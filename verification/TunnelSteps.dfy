/** What the supervisor's methods do is what the protocol's steps do, those of the Serve goroutines included,
    when no other goroutine comes in between. */
module TunnelSteps {
  import opened ConnTypes
  import opened TunnelMachine
  import opened TunnelSync
  import TunnelInvariant
  import TunnelRuns
  import Runs

  ghost predicate Reaches(s: State, s': State) { Runs.Reaches(Step, s, s') }

  lemma Stays(s: State)
    ensures Reaches(s, s)
  {
    Runs.Stays<State, Event>(Step, s);
  }

  /** One more event. */
  lemma Next(from: State, s: State, e: Event) returns (s': State)
    requires Reaches(from, s) && Step(s, e).Some?
    ensures s' == Step(s, e).value && Reaches(from, s')
  {
    s' := Runs.Next(Step, from, s, e);
  }

  /** One more step of t's, that makes sh of the shared state and leads to pc. */
  lemma On(from: State, s: State, t: Tid, a: Action, sh: Shared, pc: PC) returns (s': State)
    requires Reaches(from, s) && t in s.threads && !s.threads[t].StopRead?
    requires Local(s.sh, t, s.threads[t], a, false) == Some(Effect(sh, pc, None))
    ensures s' == State(sh, s.threads[t := pc]) && Reaches(from, s')
  {
    s' := Next(from, s, Act(t, a));
  }

  /** Every listener is being served, and none is cancelled. */
  ghost predicate AllServed(s: State) {
    && (forall n :: n in s.sh.tunnels && s.sh.tunnels[n].gen.Some? ==>
          var g := s.sh.tunnels[n].gen.value;
          g !in s.sh.cancelled && g < s.sh.nextGen && Serve(g) in s.threads && s.threads[Serve(g)] == Serving(n, g))
    && (forall g: Gen :: Serve(g) in s.threads ==> g < s.sh.nextGen)
    && (forall g :: g in s.sh.cancelled ==> g < s.sh.nextGen)
  }

  /** A step of a caller that leaves the listeners alone leaves them served. */
  lemma StillServed(s: State, s': State, t: Tid)
    requires AllServed(s) && t.Task? && t in s'.threads && s'.threads == s.threads[t := s'.threads[t]]
    requires s'.sh.tunnels == s.sh.tunnels && s'.sh.cancelled == s.sh.cancelled && s'.sh.nextGen == s.sh.nextGen
    ensures AllServed(s')
  {
  }

  // ---- selection ----

  /** The tunnels of todo that a sync has to bind, or to unbind. */
  function ToBind(sh: Shared, todo: set<Name>): set<Name>
    requires todo <= sh.tunnels.Keys
  {
    set n | n in todo && Want(sh, sh.tunnels[n]) && sh.tunnels[n].gen == None
  }

  function ToUnbind(sh: Shared, todo: set<Name>): set<Name>
    requires todo <= sh.tunnels.Keys
  {
    set n | n in todo && !Want(sh, sh.tunnels[n]) && sh.tunnels[n].gen.Some?
  }

  /** The shared states differ in the history flags at most. */
  predicate SameButFlags(sh': Shared, sh: Shared) { sh' == sh.(raced := sh'.raced, lost := sh'.lost) }

  lemma {:induction false} SelectSteps(from: State, s: State, t: Tid, todo: set<Name>, bind: set<Name>,
      unbind: set<Name>)
    returns (s': State)
    requires Reaches(from, s) && t in s.threads && s.threads[t] == InSync(Select(todo, bind, unbind))
    requires todo <= s.sh.tunnels.Keys
    ensures Reaches(from, s') && SameButFlags(s'.sh, s.sh)
    ensures
      var b, u := bind + ToBind(s.sh, todo), unbind + ToUnbind(s.sh, todo);
      s'.threads == s.threads[t := InSync(Select({}, b, u))]
    decreases todo
  {
    if todo == {} {
      s' := s;
      assert s.threads[t := s.threads[t]] == s.threads;
      assert bind + ToBind(s.sh, todo) == bind && unbind + ToUnbind(s.sh, todo) == unbind;
    } else {
      var n :| n in todo;
      var rest := todo - {n};
      var eff := Examine(s.sh, n, todo, bind, unbind).value;
      var b, u := bind + ToBind(s.sh, {n}), unbind + ToUnbind(s.sh, {n});
      Examined(s.sh, n, todo, bind, unbind);
      var s1 := On(from, s, t, Pick(n), eff.sh, InSync(Select(rest, b, u)));
      s' := SelectSteps(from, s1, t, rest, b, u);
      assert b + ToBind(s1.sh, rest) == bind + ToBind(s.sh, todo);
      assert u + ToUnbind(s1.sh, rest) == unbind + ToUnbind(s.sh, todo);
    }
  }

  lemma Examined(sh: Shared, n: Name, todo: set<Name>, bind: set<Name>, unbind: set<Name>)
    requires n in todo && todo <= sh.tunnels.Keys
    ensures
      var eff := Examine(sh, n, todo, bind, unbind);
      && eff.Some? && eff.value.spawn == None && SameButFlags(eff.value.sh, sh)
      && eff.value.pc == InSync(Select(todo - {n}, bind + ToBind(sh, {n}), unbind + ToUnbind(sh, {n})))
  {
    var h := sh.tunnels[n];
    assert ToBind(sh, {n}) == if Want(sh, h) && h.gen == None then {n} else {};
    assert ToUnbind(sh, {n}) == if !Want(sh, h) && h.gen.Some? then {n} else {};
    assert bind + {} == bind && unbind + {} == unbind;
  }

  // ---- unbinding ----

  /** The tunnels, those of gone without listener. */
  function Without(tunnels: map<Name, Handle>, gone: set<Name>): map<Name, Handle> {
    map n | n in tunnels :: if n in gone then tunnels[n].(gen := None) else tunnels[n]
  }

  /** The shared states differ in the tunnels, and in the history of listeners. */
  predicate SameButTunnels(sh': Shared, sh: Shared) {
    sh' == sh.(tunnels := sh'.tunnels, cancelled := sh'.cancelled, closed := sh'.closed, nextGen := sh'.nextGen,
               raced := sh'.raced, lost := sh'.lost)
  }

  /** The Serve goroutine of a cancelled listener clears the handle and closes its done channel. */
  lemma ServeSteps(from: State, s: State, n: Name, g: Gen) returns (s': State)
    requires Reaches(from, s) && s.sh.mu == None && n in s.sh.tunnels && g in s.sh.cancelled
    requires Serve(g) in s.threads && s.threads[Serve(g)] == Serving(n, g)
    ensures Reaches(from, s') && s'.threads == s.threads[Serve(g) := Done]
    ensures s'.sh == SetHandle(s.sh, n, s.sh.tunnels[n].(gen := None)).(closed := s.sh.closed + {g})
  {
    var t := Serve(g);
    var s1 := On(from, s, t, Go, SetHandle(s.sh, n, s.sh.tunnels[n].(gen := None)), ServeClose(g));
    s' := On(from, s1, t, Go, s1.sh.(closed := s.sh.closed + {g}), Done);
  }

  /** unbindTunnel for one tunnel of the list. */
  lemma UnbindSteps(from: State, s: State, t: Tid, n: Name, todo: set<Name>, bind: set<Name>) returns (s': State)
    requires Reaches(from, s) && AllServed(s) && s.sh.mu == None && t.Task?
    requires t in s.threads && s.threads[t] == InSync(Unbinding(todo, bind)) && n in todo && n in s.sh.tunnels
    ensures Reaches(from, s') && AllServed(s') && SameButTunnels(s'.sh, s.sh)
    ensures s'.sh.tunnels == Without(s.sh.tunnels, {n})
    ensures t in s'.threads && s'.threads[t] == InSync(Unbinding(todo - {n}, bind))
  {
    if s.sh.tunnels[n].gen == None {
      s' := On(from, s, t, Pick(n), s.sh, InSync(Unbinding(todo - {n}, bind)));
      StillServed(s, s', t);
      assert s.sh.tunnels[n] == s.sh.tunnels[n].(gen := None);
      assert s'.sh.tunnels == Without(s.sh.tunnels, {n});
    } else {
      s' := CloseSteps(from, s, t, n, todo, bind);
      ServedWithout(s, s', t, n);
    }
  }

  lemma CloseSteps(from: State, s: State, t: Tid, n: Name, todo: set<Name>, bind: set<Name>) returns (s': State)
    requires Reaches(from, s) && AllServed(s) && s.sh.mu == None && t.Task?
    requires t in s.threads && s.threads[t] == InSync(Unbinding(todo, bind)) && n in todo
    requires n in s.sh.tunnels && s.sh.tunnels[n].gen.Some?
    ensures Reaches(from, s')
    ensures
      var g := s.sh.tunnels[n].gen.value;
      && s'.sh == s.sh.(tunnels := Without(s.sh.tunnels, {n}), cancelled := s.sh.cancelled + {g},
                        closed := s.sh.closed + {g})
      && s'.threads == s.threads[Serve(g) := Done][t := InSync(Unbinding(todo - {n}, bind))]
  {
    var g := s.sh.tunnels[n].gen.value;
    var cancelled := s.sh.(cancelled := s.sh.cancelled + {g});
    var s1 := On(from, s, t, Pick(n), cancelled, InSync(Awaiting(g, todo - {n}, bind)));
    var s2 := ServeSteps(from, s1, n, g);
    s' := On(from, s2, t, Go, s2.sh, InSync(Unbinding(todo - {n}, bind)));
    assert s'.sh.tunnels == Without(s.sh.tunnels, {n});
  }

  lemma ServedWithout(s: State, s': State, t: Tid, n: Name)
    requires AllServed(s) && t.Task? && n in s.sh.tunnels && s.sh.tunnels[n].gen.Some?
    requires
      var g := s.sh.tunnels[n].gen.value;
      && s'.sh.tunnels == Without(s.sh.tunnels, {n}) && s'.sh.cancelled == s.sh.cancelled + {g}
      && s'.sh.nextGen == s.sh.nextGen
      && t in s'.threads && s'.threads == s.threads[Serve(g) := Done][t := s'.threads[t]]
    ensures AllServed(s')
  {
  }

  lemma WithoutEach(tunnels: map<Name, Handle>, n: Name, todo: set<Name>)
    requires n in todo
    ensures Without(Without(tunnels, {n}), todo - {n}) == Without(tunnels, todo)
  {
  }

  lemma {:induction false} UnbindAllSteps(from: State, s: State, t: Tid, todo: set<Name>, bind: set<Name>)
    returns (s': State)
    requires Reaches(from, s) && AllServed(s) && s.sh.mu == None && t.Task?
    requires t in s.threads && s.threads[t] == InSync(Unbinding(todo, bind)) && todo <= s.sh.tunnels.Keys
    ensures Reaches(from, s') && AllServed(s') && SameButTunnels(s'.sh, s.sh)
    ensures s'.sh.tunnels == Without(s.sh.tunnels, todo)
    ensures t in s'.threads && s'.threads[t] == InSync(Unbinding({}, bind))
    decreases todo
  {
    if todo == {} {
      s' := s;
    } else {
      var n :| n in todo;
      var s1 := UnbindSteps(from, s, t, n, todo, bind);
      s' := UnbindAllSteps(from, s1, t, todo - {n}, bind);
      WithoutEach(s.sh.tunnels, n, todo);
    }
  }

  // ---- binding ----

  /** The tunnels of todo listen where they can; no other tunnel has changed. */
  ghost predicate BoundWhere(was: map<Name, Handle>, now: map<Name, Handle>, todo: set<Name>, listens: Name -> bool) {
    && now.Keys == was.Keys
    && forall n :: n in was ==>
         if n in todo then now[n] == was[n].(gen := now[n].gen) && (now[n].gen.Some? <==> listens(n))
         else now[n] == was[n]
  }

  /** bindTunnel, from its listener on. */
  lemma ListenSteps(from: State, s: State, t: Tid, n: Name, todo: set<Name>) returns (s': State)
    requires Reaches(from, s) && AllServed(s) && s.sh.mu == None && t.Task?
    requires t in s.threads && s.threads[t] == InSync(Listening(n, todo)) && n in s.sh.tunnels
    ensures Reaches(from, s') && AllServed(s')
    ensures t in s'.threads && s'.threads[t] == InSync(Binding(todo))
    ensures s'.sh == SetHandle(s.sh, n, s.sh.tunnels[n].(gen := Some(s.sh.nextGen))).(nextGen := s.sh.nextGen + 1)
  {
    s' := Next(from, s, Act(t, Go));
    assert s'.threads == s.threads[t := InSync(Binding(todo))][Serve(s.sh.nextGen) := Serving(n, s.sh.nextGen)];
  }

  /** bindTunnel for one tunnel of the list. */
  lemma BindSteps(from: State, s: State, t: Tid, n: Name, todo: set<Name>, listens: Name -> bool) returns (s': State)
    requires Reaches(from, s) && AllServed(s) && s.sh.mu == None && t.Task?
    requires t in s.threads && s.threads[t] == InSync(Binding(todo)) && n in todo
    requires n in s.sh.tunnels && s.sh.tunnels[n].gen == None
    ensures Reaches(from, s') && AllServed(s') && SameButTunnels(s'.sh, s.sh)
    ensures BoundWhere(s.sh.tunnels, s'.sh.tunnels, {n}, listens)
    ensures t in s'.threads && s'.threads[t] == InSync(Binding(todo - {n}))
  {
    var s1 := On(from, s, t, Pick(n), s.sh, InSync(Listening(n, todo - {n})));
    StillServed(s, s1, t);
    if listens(n) {
      s' := ListenSteps(from, s1, t, n, todo - {n});
    } else {
      s' := On(from, s1, t, Fail, Lost(s.sh, n), InSync(Binding(todo - {n})));
      StillServed(s, s', t);
    }
  }

  lemma {:induction false} BindAllSteps(from: State, s: State, t: Tid, todo: set<Name>, listens: Name -> bool)
    returns (s': State)
    requires Reaches(from, s) && AllServed(s) && s.sh.mu == None && t.Task?
    requires t in s.threads && s.threads[t] == InSync(Binding(todo))
    requires forall n :: n in todo ==> n in s.sh.tunnels && s.sh.tunnels[n].gen == None
    ensures Reaches(from, s') && AllServed(s') && SameButTunnels(s'.sh, s.sh)
    ensures BoundWhere(s.sh.tunnels, s'.sh.tunnels, todo, listens)
    ensures t in s'.threads && s'.threads[t] == InSync(Binding({}))
    decreases todo
  {
    if todo == {} {
      s' := s;
    } else {
      var n :| n in todo;
      var s1 := BindSteps(from, s, t, n, todo, listens);
      s' := BindAllSteps(from, s1, t, todo - {n}, listens);
    }
  }

  // ---- a sync, a StopTunnel ----

  /** The method SyncTunnels does what a sync of the protocol and the Serve goroutines it waits for do
      together, uninterrupted by others. */
  lemma SyncIsItsSteps(s: State, t: Tid, listens: Name -> bool) returns (s': State)
    requires AllServed(s) && s.sh.mu == None && s.sh.syncMu == None
    requires t.Task? && t in s.threads && s.threads[t] == SyncWait(false)
    ensures Reaches(s, s') && t in s'.threads && s'.threads[t] == Done
    ensures AllServed(s') && s'.sh.mu == None && s'.sh.syncMu == None && Synced(s.sh, s'.sh, listens)
  {
    Stays(s);
    var names := s.sh.tunnels.Keys;
    var b, u := ToBind(s.sh, names), ToUnbind(s.sh, names);
    var s1 := SelectionSteps(s, t);
    s' := ListsSteps(s, s1, t, b, u, listens);
    forall n | n in s.sh.tunnels ensures HandleSynced(s.sh, s.sh.tunnels[n], s'.sh.tunnels[n], listens(n)) {
      assert n in b <==> Want(s.sh, s.sh.tunnels[n]) && s.sh.tunnels[n].gen == None;
      assert n in u <==> !Want(s.sh, s.sh.tunnels[n]) && s.sh.tunnels[n].gen.Some?;
    }
  }

  /** A sync up to where it has selected its lists. */
  lemma SelectionSteps(s: State, t: Tid) returns (s': State)
    requires AllServed(s) && s.sh.mu == None && s.sh.syncMu == None
    requires t.Task? && t in s.threads && s.threads[t] == SyncWait(false)
    ensures Reaches(s, s') && AllServed(s') && t in s'.threads
    ensures
      var names := s.sh.tunnels.Keys;
      s'.threads[t] == InSync(Select({}, ToBind(s.sh, names), ToUnbind(s.sh, names)))
    ensures s'.sh.tunnels == s.sh.tunnels && s'.sh.states == s.sh.states
    ensures s'.sh.mu == Some(t) && s'.sh.syncMu == Some(t)
  {
    Stays(s);
    var names := s.sh.tunnels.Keys;
    var s1 := On(s, s, t, Go, s.sh.(syncMu := Some(t)), SyncLocked(false));
    var s2 := On(s, s1, t, Go, s1.sh.(mu := Some(t)), InSync(Select(names, {}, {})));
    s' := SelectSteps(s, s2, t, names, {}, {});
    StillServed(s, s', t);
    assert {} + ToBind(s2.sh, names) == ToBind(s.sh, names);
    assert {} + ToUnbind(s2.sh, names) == ToUnbind(s.sh, names);
  }

  /** A sync from where it has selected its lists. */
  lemma ListsSteps(from: State, s: State, t: Tid, b: set<Name>, u: set<Name>, listens: Name -> bool) returns (s': State)
    requires Reaches(from, s) && AllServed(s) && s.sh.mu == Some(t) && s.sh.syncMu == Some(t)
    requires t.Task? && t in s.threads && s.threads[t] == InSync(Select({}, b, u))
    requires u <= s.sh.tunnels.Keys && b !! u
    requires forall n :: n in b ==> n in s.sh.tunnels && s.sh.tunnels[n].gen == None
    ensures Reaches(from, s') && AllServed(s') && t in s'.threads && s'.threads[t] == Done
    ensures s'.sh.mu == None && s'.sh.syncMu == None && s'.sh.states == s.sh.states
    ensures BoundWhere(Without(s.sh.tunnels, u), s'.sh.tunnels, b, listens)
  {
    var s1 := On(from, s, t, Go, s.sh.(mu := None), InSync(Unbinding(u, b)));
    StillServed(s, s1, t);
    var s2 := UnbindAllSteps(from, s1, t, u, b);
    var s3 := On(from, s2, t, Go, s2.sh, InSync(Binding(b)));
    StillServed(s2, s3, t);
    s' := BindListSteps(from, s3, t, b, listens);
  }

  lemma BindListSteps(from: State, s: State, t: Tid, b: set<Name>, listens: Name -> bool) returns (s': State)
    requires Reaches(from, s) && AllServed(s) && s.sh.mu == None && t.Task?
    requires t in s.threads && s.threads[t] == InSync(Binding(b))
    requires forall n :: n in b ==> n in s.sh.tunnels && s.sh.tunnels[n].gen == None
    ensures Reaches(from, s') && AllServed(s') && t in s'.threads && s'.threads[t] == Done
    ensures s'.sh.mu == None && s'.sh.syncMu == None && s'.sh.states == s.sh.states
    ensures BoundWhere(s.sh.tunnels, s'.sh.tunnels, b, listens)
  {
    var s1 := BindAllSteps(from, s, t, b, listens);
    s' := On(from, s1, t, Go, s1.sh.(syncMu := None), Done);
    StillServed(s1, s', t);
  }

  /** The method StopTunnel does what a StopTunnel of the protocol and the Serve goroutine it waits for do
      together, uninterrupted by others. */
  lemma StopIsItsSteps(s: State, t: Tid, n: Name) returns (s': State)
    requires AllServed(s) && s.sh.mu == None && n in s.sh.tunnels
    requires t.Task? && t in s.threads && s.threads[t] == StopMark(n)
    ensures Reaches(s, s') && t in s'.threads && s'.threads[t] == Done && Stopped(s.sh, s'.sh, n)
  {
    Stays(s);
    var h := s.sh.tunnels[n];
    var s1 := On(s, s, t, Go, SetHandle(s.sh, n, h.(stopped := true)), StopRead(n));
    assert AllServed(s1);
    s' := ReadSteps(s, s1, t, n);
  }

  /** StopTunnel from where it has marked the handle. */
  lemma ReadSteps(from: State, s: State, t: Tid, n: Name) returns (s': State)
    requires Reaches(from, s) && AllServed(s) && s.sh.mu == None && n in s.sh.tunnels && s.sh.tunnels[n].stopped
    requires t.Task? && t in s.threads && s.threads[t] == StopRead(n)
    ensures Reaches(from, s') && t in s'.threads && s'.threads[t] == Done && s'.sh.states == s.sh.states
    ensures s'.sh.tunnels == s.sh.tunnels[n := s.sh.tunnels[n].(gen := None)]
  {
    var h := s.sh.tunnels[n];
    s' := Next(from, s, Act(t, Go));
    if h.gen == None {
      assert h == h.(gen := None);
      assert s.sh.tunnels[n := h] == s.sh.tunnels;
    } else {
      var g := h.gen.value;
      assert s'.threads == s.threads[t := StopAwait(n, g)] && g in s'.sh.cancelled;
      s' := ServeSteps(from, s', n, g);
      s' := On(from, s', t, Go, s'.sh, Done);
    }
  }

  /** The method StartTunnel does what a StartTunnel of the protocol does with connectTunnel's goroutine, when
      Up leaves its upstream in state up and no other goroutine comes in between. hook is the goroutine of
      the state change, if there is one; its own sync is still to come. */
  lemma StartIsItsSteps(s: State, t: Tid, n: Name, up: ConnState, hook: Tid, listens: Name -> bool)
    returns (s': State)
    requires AllServed(s) && s.sh.mu == None && s.sh.syncMu == None
    requires n in s.sh.tunnels && s.sh.tunnels[n].upstream in s.sh.states
    requires t.Task? && t in s.threads && s.threads[t] == StartMark(n)
    requires hook.Task? && hook !in s.threads
    ensures Reaches(s, s') && t in s'.threads && s'.threads[t] == Done
    ensures AllServed(s') && s'.sh.mu == None && s'.sh.syncMu == None
    ensures Synced(Marked(s.sh, n, up), s'.sh, listens)
  {
    var h := s.sh.tunnels[n];
    Stays(s);
    var s1 := On(s, s, t, Go, SetHandle(s.sh, n, h.(stopped := false)), Upping(n));
    assert AllServed(s1);
    var s2 := ChangeSteps(s, s1, t, h.upstream, up, hook);
    var s3 := On(s, s2, t, Go, s2.sh, SyncWait(false));
    StillServed(s2, s3, t);
    assert s3.sh == Marked(s.sh, n, up);
    s' := SyncIsItsSteps(s3, t, listens);
    Runs.GoesOn(Step, s, s3, s');
  }

  /** Up changes the state of an upstream. */
  lemma ChangeSteps(from: State, s: State, t: Tid, upstream: string, up: ConnState, hook: Tid) returns (s': State)
    requires Reaches(from, s) && AllServed(s) && upstream in s.sh.states
    requires t in s.threads && hook.Task? && hook !in s.threads
    ensures Reaches(from, s') && AllServed(s') && t in s'.threads && s'.threads[t] == s.threads[t]
    ensures s'.sh == s.sh.(states := s.sh.states[upstream := up])
  {
    s' := Next(from, s, Change(hook, upstream, up));
    if s.sh.states[upstream] == up {
      assert s.sh.states[upstream := up] == s.sh.states;
    }
  }

  // ---- where this applies ----

  /** At the states of runs, every listener is being served and none cancelled exactly if no Serve goroutine
      has a cancelled listener yet to clear, and the locks are free exactly if no goroutine is between
      taking and leaving them. */
  lemma ServedAt(r: TunnelRuns.Run, i: nat)
    requires TunnelRuns.Valid(r) && i < |r.states|
    ensures
      var s := r.states[i];
      && (AllServed(s) <==> forall t :: t in s.threads && s.threads[t].Serving? ==> s.threads[t].g !in s.sh.cancelled)
      && (s.sh.mu == None <==> forall t :: t in s.threads ==> !TunnelInvariant.HoldsMu(s.threads[t]))
      && (s.sh.syncMu == None <==> forall t :: t in s.threads ==> !TunnelInvariant.HoldsSyncMu(s.threads[t]))
  {
    TunnelRuns.InvAt(r, i);
    var s := r.states[i];
    forall t | t in s.threads ensures TunnelInvariant.PcOk(s.sh, t, s.threads[t]) {
    }
    if s.sh.mu.Some? {
      assert TunnelInvariant.HoldsMu(s.threads[s.sh.mu.value]);
    }
    if s.sh.syncMu.Some? {
      assert TunnelInvariant.HoldsSyncMu(s.threads[s.sh.syncMu.value]);
    }
    ServedIffNoneClosing(s);
  }

  lemma ServedIffNoneClosing(s: State)
    requires TunnelRuns.Inv(s)
    ensures AllServed(s) <==>
      forall t :: t in s.threads && s.threads[t].Serving? ==> s.threads[t].g !in s.sh.cancelled
  {
    forall t | t in s.threads ensures TunnelInvariant.PcOk(s.sh, t, s.threads[t]) {
    }
  }
}
