/** The supervisor's methods of internal/menubar/controller.go as they are written, each run without
    interruption: a Serve goroutine whose context is cancelled has cleaned up by the time waitDone returns. */
module TunnelSync {
  import opened ConnTypes
  import T = TunnelMachine

  /** What a sync is for: exactly the tunnels listen that should and can, where listens says which addresses
      can be bound. One that already listened, and should, keeps its listener. */
  ghost predicate Synced(was: T.Shared, now: T.Shared, listens: T.Name -> bool) {
    && now.states == was.states && now.tunnels.Keys == was.tunnels.Keys
    && forall n :: n in was.tunnels ==> HandleSynced(was, was.tunnels[n], now.tunnels[n], listens(n))
  }

  predicate HandleSynced(was: T.Shared, h: T.Handle, h': T.Handle, listens: bool) {
    && h'.upstream == h.upstream && h'.stopped == h.stopped
    && (h'.gen.Some? <==> T.Want(was, h) && (h.gen.Some? || listens))
    && (T.Want(was, h) && h.gen.Some? ==> h'.gen == h.gen)
  }

  /** What a StopTunnel is for. */
  ghost predicate Stopped(was: T.Shared, now: T.Shared, name: T.Name) {
    && now.states == was.states && now.tunnels.Keys == was.tunnels.Keys
    && forall n :: n in was.tunnels ==>
         now.tunnels[n] == if n == name then T.Handle(was.tunnels[n].upstream, true, None) else was.tunnels[n]
  }

  /** The named tunnel is no longer stopped, and its upstream is in state up. */
  ghost function Marked(sh: T.Shared, name: T.Name, up: ConnState): T.Shared
    requires name in sh.tunnels
  {
    var h := sh.tunnels[name];
    sh.(tunnels := sh.tunnels[name := h.(stopped := false)], states := sh.states[h.upstream := up])
  }

  class TunnelHandle {
    const name: T.Name
    const upstream: string
    var stopped: bool
    /** srv, ctx, cancel and done, which are set and cleared together. */
    var srv: Option<T.Gen>

    constructor (name: T.Name, upstream: string)
      ensures this.name == name && this.upstream == upstream && !stopped && srv == None
    {
      this.name, this.upstream, stopped, srv := name, upstream, false, None;
    }

    ghost function Value(): T.Handle
      reads this
    {
      T.Handle(upstream, stopped, srv)
    }
  }

  class ProxyController {
    const tunnels: map<T.Name, TunnelHandle>
    var running: bool
    var states: map<string, ConnState>
    var nextGen: nat

    /** Every tunnel is in the map under its own name. */
    ghost predicate Valid()
      reads this, tunnels.Values
    {
      && (forall n :: n in tunnels ==> tunnels[n].name == n)
      && (forall n :: n in tunnels && tunnels[n].srv.Some? ==> tunnels[n].srv.value < nextGen)
    }

    constructor (tunnels: map<T.Name, TunnelHandle>, states: map<string, ConnState>)
      requires forall n :: n in tunnels ==> tunnels[n].name == n && tunnels[n].srv == None
      ensures Valid() && this.tunnels == tunnels && this.states == states && running
    {
      this.tunnels, this.states, running, nextGen := tunnels, states, true, 0;
    }

    /** The tunnels and upstreams, as the protocol sees them. */
    ghost function View(): T.Shared
      reads this, tunnels.Values
    {
      T.Shared(map n | n in tunnels :: tunnels[n].Value(), states, None, None, {}, {}, nextGen, {}, {})
    }

    predicate Wanted(h: TunnelHandle)
      reads this, h, tunnels.Values
      ensures Wanted(h) == T.Want(View(), h.Value())
    {
      h.upstream in states && states[h.upstream] == ConnConnected && !h.stopped
    }

    /** listens says whether the address can be bound. */
    method BindTunnel(h: TunnelHandle, listens: bool) returns (ok: bool)
      requires Valid() && h in tunnels.Values
      modifies this`nextGen, h`srv
      ensures Valid() && ok == (old(h.srv).Some? || listens)
      ensures if old(h.srv).Some? then h.srv == old(h.srv) else h.srv == if listens then Some(old(nextGen)) else None
    {
      if h.srv.Some? {
        return true;
      }
      if !listens {
        return false;
      }
      h.srv := Some(nextGen);
      nextGen := nextGen + 1;
      return true;
    }

    /** Cancels, and waits until serveTunnel's goroutine has cleared the handle. */
    method UnbindTunnel(h: TunnelHandle)
      requires Valid() && h in tunnels.Values
      modifies h`srv
      ensures Valid() && h.srv == None
    {
      if h.srv == None {
        return;
      }
      h.srv := None;
    }

    /** A sync of the running registry does what it is for, any other one nothing. */
    method SyncTunnels(current: bool, listens: T.Name -> bool)
      requires Valid()
      modifies this`nextGen, tunnels.Values
      ensures Valid() && running == old(running)
      ensures if running && current then Synced(old(View()), View(), listens) else View() == old(View())
    {
      if !running || !current {
        return;
      }
      Apply(listens);
      forall n | n in tunnels ensures HandleSynced(old(View()), old(View()).tunnels[n], View().tunnels[n], listens(n)) {
        assert old(View()).tunnels[n] == old(tunnels[n].Value());
      }
    }

    method Apply(listens: T.Name -> bool)
      requires Valid()
      modifies this`nextGen, tunnels.Values
      ensures Valid()
      ensures forall n :: n in tunnels ==> tunnels[n].stopped == old(tunnels[n].stopped)
      ensures forall n :: n in tunnels && old(tunnels[n].srv).Some? && Wanted(tunnels[n]) ==>
        tunnels[n].srv == old(tunnels[n].srv)
      ensures forall n :: n in tunnels ==>
        (tunnels[n].srv.Some? <==> Wanted(tunnels[n]) && (old(tunnels[n].srv).Some? || listens(n)))
    {
      var bind, unbind := Select();
      UnbindAll(unbind);
      BindAll(bind, listens);
    }

    /** The loop of syncTunnels under mu. */
    method Select() returns (bind: seq<TunnelHandle>, unbind: seq<TunnelHandle>)
      requires Valid()
      ensures forall h :: h in bind || h in unbind ==> h in tunnels.Values
      ensures forall n :: n in tunnels ==>
        && (tunnels[n] in bind <==> Wanted(tunnels[n]) && tunnels[n].srv == None)
        && (tunnels[n] in unbind <==> !Wanted(tunnels[n]) && tunnels[n].srv.Some?)
    {
      bind, unbind := [], [];
      var todo := tunnels.Keys;
      while todo != {}
        invariant todo <= tunnels.Keys
        invariant forall h :: h in bind || h in unbind ==> h in tunnels.Values
        invariant forall n :: n in tunnels ==>
          && (tunnels[n] in bind <==> n !in todo && Wanted(tunnels[n]) && tunnels[n].srv == None)
          && (tunnels[n] in unbind <==> n !in todo && !Wanted(tunnels[n]) && tunnels[n].srv.Some?)
        decreases todo
      {
        var n :| n in todo;
        var h := tunnels[n];
        if Wanted(h) && h.srv == None {
          bind := bind + [h];
        } else if !Wanted(h) && h.srv.Some? {
          unbind := unbind + [h];
        }
        todo := todo - {n};
      }
    }

    method UnbindAll(unbind: seq<TunnelHandle>)
      requires Valid() && forall h :: h in unbind ==> h in tunnels.Values
      modifies unbind
      ensures Valid() && forall h :: h in unbind ==> h.srv == None && h.stopped == old(h.stopped)
    {
      for i := 0 to |unbind|
        invariant Valid()
        invariant forall h :: h in unbind ==> h.stopped == old(h.stopped)
        invariant forall k :: 0 <= k < i ==> unbind[k].srv == None
      {
        UnbindTunnel(unbind[i]);
      }
    }

    method BindAll(bind: seq<TunnelHandle>, listens: T.Name -> bool)
      requires Valid() && forall h :: h in bind ==> h in tunnels.Values && h.srv == None
      modifies this`nextGen, bind
      ensures Valid()
      ensures forall h :: h in bind ==> (h.srv.Some? <==> listens(h.name)) && h.stopped == old(h.stopped)
    {
      for i := 0 to |bind|
        invariant Valid()
        invariant forall h :: h in bind ==> h.stopped == old(h.stopped) && (h.srv.Some? ==> listens(h.name))
        invariant forall k :: 0 <= k < i ==> (bind[k].srv.Some? <==> listens(bind[k].name))
      {
        var ok := BindTunnel(bind[i], listens(bind[i].name));
      }
    }

    method StopTunnel(name: T.Name) returns (ok: bool)
      requires Valid()
      modifies tunnels.Values
      ensures Valid() && ok == (name in tunnels)
      ensures if ok then Stopped(old(View()), View(), name) else View() == old(View())
    {
      if name !in tunnels {
        return false;
      }
      var h := tunnels[name];
      h.stopped := true;
      UnbindTunnel(h);
      return true;
    }

    /** StartTunnel for a tunnel pinned to a connection upstream, with the goroutine of connectTunnel: up is
        the state in which Up leaves that upstream. */
    method StartTunnel(name: T.Name, up: ConnState, listens: T.Name -> bool) returns (ok: bool)
      requires Valid()
      modifies this`nextGen, this`states, tunnels.Values
      ensures Valid() && ok == (running && name in tunnels)
      ensures
        if ok then Synced(Marked(old(View()), name, up), View(), listens)
        else View() == old(View())
    {
      if !running || name !in tunnels {
        return false;
      }
      var h := tunnels[name];
      h.stopped := false;
      states := states[h.upstream := up];
      assert View() == Marked(old(View()), name, up);
      SyncTunnels(true, listens);
      return true;
    }
  }
}
