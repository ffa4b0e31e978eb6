/** What every step of the tunnel supervisor keeps. */
module TunnelInvariant {
  import opened ConnTypes
  import opened TunnelMachine

  // ---- program points ----

  predicate HoldsSyncMu(pc: PC) { pc.SyncLocked? || pc.InSync? }

  predicate HoldsMu(pc: PC) { pc.InSync? && pc.sync.Select? }

  predicate SyncOk(sh: Shared, sync: SyncPC) {
    match sync
    case Select(todo, bind, unbind) => todo !! bind && todo !! unbind && todo <= sh.tunnels.Keys &&
      unbind <= sh.tunnels.Keys
    case Unbinding(todo, bind) => todo <= sh.tunnels.Keys
    case Awaiting(g, todo, bind) => todo <= sh.tunnels.Keys
    case Binding(todo) => true
    case Listening(n, todo) => n !in todo
  }

  /** The tunnels on a bind list have no listener, and are on no unbind list. */
  predicate ListsOk(sh: Shared, pc: PC) {
    && BindList(pc) !! UnbindList(pc)
    && forall n :: n in BindList(pc) ==> n in sh.tunnels && sh.tunnels[n].gen == None
  }

  /** The assertion at goroutine t's program point. */
  predicate PcOk(sh: Shared, t: Tid, pc: PC) {
    && (sh.syncMu == Some(t) <==> HoldsSyncMu(pc))
    && (sh.mu == Some(t) <==> HoldsMu(pc))
    && (pc.InSync? ==> SyncOk(sh, pc.sync))
    && ListsOk(sh, pc)
    && (t.Serve? ==> t.g < sh.nextGen)
    && (pc.Serving? ==> t == Serve(pc.g) && pc.n in sh.tunnels && sh.tunnels[pc.n].gen == Some(pc.g))
  }

  predicate SharedOk(sh: Shared) {
    && (forall g :: g in sh.cancelled ==> g < sh.nextGen)
    && (forall n :: n in sh.tunnels && sh.tunnels[n].gen.Some? ==> sh.tunnels[n].gen.value < sh.nextGen)
    && (forall n, m ::
          n in sh.tunnels && m in sh.tunnels && sh.tunnels[n].gen.Some? && sh.tunnels[n].gen == sh.tunnels[m].gen ==>
            n == m)
  }

  /** What goroutine t, at pc, may rely on when another one takes sh to sh'. */
  predicate Rely(t: Tid, pc: PC, sh: Shared, sh': Shared) {
    && (sh'.mu == Some(t) <==> sh.mu == Some(t))
    && (sh'.syncMu == Some(t) <==> sh.syncMu == Some(t))
    && sh'.tunnels.Keys == sh.tunnels.Keys
    && sh.nextGen <= sh'.nextGen
    && (sh.syncMu == Some(t) ==>
          forall n :: n in sh.tunnels && sh.tunnels[n].gen == None ==> sh'.tunnels[n].gen == None)
    && (pc.Serving? && pc.n in sh.tunnels && sh.tunnels[pc.n].gen == Some(pc.g) ==> sh'.tunnels[pc.n].gen == Some(pc.g))
  }

  lemma Stable(sh: Shared, sh': Shared, u: Tid, pc: PC)
    requires PcOk(sh, u, pc) && Rely(u, pc, sh, sh')
    ensures PcOk(sh', u, pc)
  {
  }

  // ---- the state of one tunnel ----

  /** The goroutine at pc will yet make a sync look at tunnel n. */
  predicate PendsFor(pc: PC, n: Name) {
    || pc.Hook? || pc == SyncWait(false) || pc == SyncLocked(false) || pc == Upping(n)
    || (pc.InSync? && pc.sync.Select? && n in pc.sync.todo)
  }

  /** Tunnel n is as it should be, or will be put right: pend, some goroutine will yet have a sync look at
      it; stop, some StopTunnel has marked it and will yet unbind it; pb and pu, the sync that runs has it
      on its bind or its unbind list. */
  predicate TunnelOk(sh: Shared, n: Name, pend: bool, stop: bool, pb: bool, pu: bool)
    requires n in sh.tunnels
  {
    var h := sh.tunnels[n];
    pend ||
    (&& (pb ==> Up(sh, h))
     && (n !in sh.raced && n !in sh.lost ==>
           if Want(sh, h) then (Bound(sh, h) || pb) && !pu
           else stop || (!pb && (Bound(sh, h) ==> pu)))
     && (n in sh.raced ==> h.stopped && (Bound(sh, h) || pb) && !pu)
     && (n in sh.lost ==> !Bound(sh, h) && !pb))
  }

  /** TunnelOk with the part of the goroutine at pc split off: the op* stand for all the others. */
  predicate TunnelOkAt(sh: Shared, n: Name, pc: PC, op: bool, os: bool, opb: bool, opu: bool)
    requires n in sh.tunnels
  {
    TunnelOk(sh, n, op || PendsFor(pc, n), os || pc == StopRead(n), opb || n in BindList(pc),
      opu || n in UnbindList(pc))
  }

  /** What the others' parts satisfy. */
  predicate OthersOk(sh: Shared, n: Name, pc: PC, opb: bool, opu: bool)
    requires n in sh.tunnels
  {
    && (HoldsSyncMu(pc) ==> !opb && !opu)
    && (opb ==> sh.tunnels[n].gen == None && !opu)
  }

  /** What every other goroutine may rely on. */
  ghost predicate Guaranteed(sh: Shared, t: Tid, sh': Shared) {
    forall u: Tid, pc: PC :: u != t && PcOk(sh, u, pc) ==> Rely(u, pc, sh, sh')
  }

  // ---- preservation ----

  lemma SelectStep(sh: Shared, t: Tid, pc: PC, todo: set<Name>, bind: set<Name>, unbind: set<Name>, a: Action,
      eff: Effect)
    requires SharedOk(sh) && PcOk(sh, t, pc) && pc == InSync(Select(todo, bind, unbind)) &&
      GoSelect(sh, todo, bind, unbind, a) == Some(eff)
    ensures SharedOk(eff.sh) && PcOk(eff.sh, t, eff.pc) && Guaranteed(sh, t, eff.sh)
  {
  }

  lemma ExamineKeepsTunnel(sh: Shared, t: Tid, pc: PC, todo: set<Name>, bind: set<Name>, unbind: set<Name>, a: Action,
      eff: Effect, n: Name, op: bool, os: bool, opb: bool, opu: bool)
    requires SharedOk(sh) && PcOk(sh, t, pc) && pc == InSync(Select(todo, bind, unbind)) &&
      GoSelect(sh, todo, bind, unbind, a) == Some(eff)
    requires n in sh.tunnels && OthersOk(sh, n, pc, opb, opu) && TunnelOkAt(sh, n, pc, op, os, opb, opu)
    requires a == Pick(n)
    ensures n in eff.sh.tunnels && TunnelOkAt(eff.sh, n, eff.pc, op, os, opb, opu)
  {
  }

  lemma PassKeepsTunnel(sh: Shared, t: Tid, pc: PC, todo: set<Name>, bind: set<Name>, unbind: set<Name>, a: Action,
      eff: Effect, n: Name, op: bool, os: bool, opb: bool, opu: bool)
    requires SharedOk(sh) && PcOk(sh, t, pc) && pc == InSync(Select(todo, bind, unbind)) &&
      GoSelect(sh, todo, bind, unbind, a) == Some(eff)
    requires n in sh.tunnels && OthersOk(sh, n, pc, opb, opu) && TunnelOkAt(sh, n, pc, op, os, opb, opu)
    requires a.Pick? && a.n != n
    ensures n in eff.sh.tunnels && TunnelOkAt(eff.sh, n, eff.pc, op, os, opb, opu)
  {
    var sync := eff.pc.sync;
    assert (n in sync.todo <==> n in todo) && (n in sync.bind <==> n in bind) && (n in sync.unbind <==> n in unbind);
    assert eff.sh.tunnels == sh.tunnels && eff.sh.states == sh.states && eff.sh.cancelled == sh.cancelled;
    assert (n in eff.sh.raced <==> n in sh.raced) && (n in eff.sh.lost <==> n in sh.lost);
  }

  lemma SelectKeepsTunnel(sh: Shared, t: Tid, pc: PC, todo: set<Name>, bind: set<Name>, unbind: set<Name>, a: Action,
      eff: Effect, n: Name, op: bool, os: bool, opb: bool, opu: bool)
    requires SharedOk(sh) && PcOk(sh, t, pc) && pc == InSync(Select(todo, bind, unbind)) &&
      GoSelect(sh, todo, bind, unbind, a) == Some(eff)
    requires n in sh.tunnels && OthersOk(sh, n, pc, opb, opu) && TunnelOkAt(sh, n, pc, op, os, opb, opu)
    ensures n in eff.sh.tunnels && TunnelOkAt(eff.sh, n, eff.pc, op, os, opb, opu)
  {
    if a == Pick(n) {
      ExamineKeepsTunnel(sh, t, pc, todo, bind, unbind, a, eff, n, op, os, opb, opu);
    } else if a.Pick? {
      PassKeepsTunnel(sh, t, pc, todo, bind, unbind, a, eff, n, op, os, opb, opu);
    }
  }

  lemma UnbindStep(sh: Shared, t: Tid, pc: PC, todo: set<Name>, bind: set<Name>, a: Action, eff: Effect)
    requires SharedOk(sh) && PcOk(sh, t, pc) && pc == InSync(Unbinding(todo, bind)) &&
      GoUnbind(sh, todo, bind, a) == Some(eff)
    ensures SharedOk(eff.sh) && PcOk(eff.sh, t, eff.pc) && Guaranteed(sh, t, eff.sh)
  {
  }

  lemma UnbindKeepsTunnel(sh: Shared, t: Tid, pc: PC, todo: set<Name>, bind: set<Name>, a: Action, eff: Effect, n: Name,
      op: bool, os: bool, opb: bool, opu: bool)
    requires SharedOk(sh) && PcOk(sh, t, pc) && pc == InSync(Unbinding(todo, bind)) &&
      GoUnbind(sh, todo, bind, a) == Some(eff)
    requires n in sh.tunnels && OthersOk(sh, n, pc, opb, opu) && TunnelOkAt(sh, n, pc, op, os, opb, opu)
    ensures n in eff.sh.tunnels && TunnelOkAt(eff.sh, n, eff.pc, op, os, opb, opu)
  {
  }

  lemma BindStep(sh: Shared, t: Tid, pc: PC, todo: set<Name>, a: Action, eff: Effect)
    requires SharedOk(sh) && PcOk(sh, t, pc) && pc == InSync(Binding(todo)) && GoBind(sh, todo, a) == Some(eff)
    ensures SharedOk(eff.sh) && PcOk(eff.sh, t, eff.pc) && Guaranteed(sh, t, eff.sh)
  {
  }

  lemma BindKeepsTunnel(sh: Shared, t: Tid, pc: PC, todo: set<Name>, a: Action, eff: Effect, n: Name, op: bool,
      os: bool, opb: bool, opu: bool)
    requires SharedOk(sh) && PcOk(sh, t, pc) && pc == InSync(Binding(todo)) && GoBind(sh, todo, a) == Some(eff)
    requires n in sh.tunnels && OthersOk(sh, n, pc, opb, opu) && TunnelOkAt(sh, n, pc, op, os, opb, opu)
    ensures n in eff.sh.tunnels && TunnelOkAt(eff.sh, n, eff.pc, op, os, opb, opu)
  {
  }

  lemma ListenStep(sh: Shared, t: Tid, pc: PC, m: Name, todo: set<Name>, a: Action, eff: Effect)
    requires SharedOk(sh) && PcOk(sh, t, pc) && pc == InSync(Listening(m, todo)) &&
      GoListen(sh, m, todo, a) == Some(eff)
    ensures SharedOk(eff.sh) && PcOk(eff.sh, t, eff.pc) && Guaranteed(sh, t, eff.sh)
  {
  }

  lemma ListenKeepsTunnel(sh: Shared, t: Tid, pc: PC, m: Name, todo: set<Name>, a: Action, eff: Effect, n: Name,
      op: bool, os: bool, opb: bool, opu: bool)
    requires SharedOk(sh) && PcOk(sh, t, pc) && pc == InSync(Listening(m, todo)) &&
      GoListen(sh, m, todo, a) == Some(eff)
    requires n in sh.tunnels && OthersOk(sh, n, pc, opb, opu) && TunnelOkAt(sh, n, pc, op, os, opb, opu)
    ensures n in eff.sh.tunnels && TunnelOkAt(eff.sh, n, eff.pc, op, os, opb, opu)
  {
  }

  lemma StopStep(sh: Shared, t: Tid, pc: PC, selected: bool, eff: Effect)
    requires SharedOk(sh) && PcOk(sh, t, pc) && GoStop(sh, pc, selected) == Some(eff)
    ensures SharedOk(eff.sh) && PcOk(eff.sh, t, eff.pc) && Guaranteed(sh, t, eff.sh)
  {
  }

  lemma ReadKeepsTunnel(sh: Shared, t: Tid, pc: PC, selected: bool, eff: Effect, n: Name, op: bool, os: bool, opb: bool,
      opu: bool)
    requires SharedOk(sh) && PcOk(sh, t, pc) && GoStop(sh, pc, selected) == Some(eff)
    requires n in sh.tunnels && OthersOk(sh, n, pc, opb, opu) && TunnelOkAt(sh, n, pc, op, os, opb, opu)
    requires pc == StopRead(n) && selected == opb
    ensures n in eff.sh.tunnels && TunnelOkAt(eff.sh, n, eff.pc, op, os, opb, opu)
  {
  }

  lemma MarkKeepsTunnel(sh: Shared, t: Tid, pc: PC, selected: bool, eff: Effect, n: Name, op: bool, os: bool, opb: bool,
      opu: bool)
    requires SharedOk(sh) && PcOk(sh, t, pc) && GoStop(sh, pc, selected) == Some(eff)
    requires n in sh.tunnels && OthersOk(sh, n, pc, opb, opu) && TunnelOkAt(sh, n, pc, op, os, opb, opu)
    requires pc == StopRead(n) ==> selected == opb
    requires pc.StopMark?
    ensures n in eff.sh.tunnels && TunnelOkAt(eff.sh, n, eff.pc, op, os, opb, opu)
  {
  }

  lemma StopKeepsTunnel(sh: Shared, t: Tid, pc: PC, selected: bool, eff: Effect, n: Name, op: bool, os: bool, opb: bool,
      opu: bool)
    requires SharedOk(sh) && PcOk(sh, t, pc) && GoStop(sh, pc, selected) == Some(eff)
    requires n in sh.tunnels && OthersOk(sh, n, pc, opb, opu) && TunnelOkAt(sh, n, pc, op, os, opb, opu)
    requires pc == StopRead(n) ==> selected == opb
    ensures n in eff.sh.tunnels && TunnelOkAt(eff.sh, n, eff.pc, op, os, opb, opu)
  {
    if pc == StopRead(n) {
      ReadKeepsTunnel(sh, t, pc, selected, eff, n, op, os, opb, opu);
    } else if pc.StopMark? {
      MarkKeepsTunnel(sh, t, pc, selected, eff, n, op, os, opb, opu);
    }
  }

  lemma ServeStep(sh: Shared, t: Tid, pc: PC, a: Action, eff: Effect)
    requires pc.Serving? || pc.ServeClose?
    requires SharedOk(sh) && PcOk(sh, t, pc) && GoRest(sh, t, pc, a) == Some(eff)
    ensures SharedOk(eff.sh) && PcOk(eff.sh, t, eff.pc) && Guaranteed(sh, t, eff.sh)
  {
  }

  lemma EntryStep(sh: Shared, t: Tid, pc: PC, a: Action, eff: Effect)
    requires !pc.Serving? && !pc.ServeClose?
    requires SharedOk(sh) && PcOk(sh, t, pc) && GoRest(sh, t, pc, a) == Some(eff)
    ensures SharedOk(eff.sh) && PcOk(eff.sh, t, eff.pc) && Guaranteed(sh, t, eff.sh)
  {
  }

  lemma RestStep(sh: Shared, t: Tid, pc: PC, a: Action, eff: Effect)
    requires SharedOk(sh) && PcOk(sh, t, pc) && GoRest(sh, t, pc, a) == Some(eff)
    ensures SharedOk(eff.sh) && PcOk(eff.sh, t, eff.pc) && Guaranteed(sh, t, eff.sh)
  {
    if pc.Serving? || pc.ServeClose? {
      ServeStep(sh, t, pc, a, eff);
    } else {
      EntryStep(sh, t, pc, a, eff);
    }
  }

  lemma RestKeepsTunnel(sh: Shared, t: Tid, pc: PC, a: Action, eff: Effect, n: Name, op: bool, os: bool, opb: bool,
      opu: bool)
    requires SharedOk(sh) && PcOk(sh, t, pc) && GoRest(sh, t, pc, a) == Some(eff)
    requires n in sh.tunnels && OthersOk(sh, n, pc, opb, opu) && TunnelOkAt(sh, n, pc, op, os, opb, opu)
    ensures n in eff.sh.tunnels && TunnelOkAt(eff.sh, n, eff.pc, op, os, opb, opu)
  {
  }

  lemma LocalStep(sh: Shared, t: Tid, pc: PC, a: Action, selected: bool, eff: Effect)
    requires SharedOk(sh) && PcOk(sh, t, pc) && Local(sh, t, pc, a, selected) == Some(eff)
    ensures SharedOk(eff.sh) && PcOk(eff.sh, t, eff.pc) && Guaranteed(sh, t, eff.sh)
  {
    match pc
    case InSync(Select(todo, bind, unbind)) => SelectStep(sh, t, pc, todo, bind, unbind, a, eff);
    case InSync(Unbinding(todo, bind)) => UnbindStep(sh, t, pc, todo, bind, a, eff);
    case InSync(Binding(todo)) => BindStep(sh, t, pc, todo, a, eff);
    case InSync(Listening(m, todo)) => ListenStep(sh, t, pc, m, todo, a, eff);
    case InSync(Awaiting(_, _, _)) =>
    case StopMark(_) => StopStep(sh, t, pc, selected, eff);
    case StopRead(_) => StopStep(sh, t, pc, selected, eff);
    case StopAwait(_, _) => StopStep(sh, t, pc, selected, eff);
    case _ => RestStep(sh, t, pc, a, eff);
  }

  lemma LocalKeepsTunnel(sh: Shared, t: Tid, pc: PC, a: Action, selected: bool, eff: Effect,
                    n: Name, op: bool, os: bool, opb: bool, opu: bool)
    requires SharedOk(sh) && PcOk(sh, t, pc) && Local(sh, t, pc, a, selected) == Some(eff)
    requires n in sh.tunnels && OthersOk(sh, n, pc, opb, opu) && TunnelOkAt(sh, n, pc, op, os, opb, opu)
    requires pc == StopRead(n) ==> selected == opb
    ensures n in eff.sh.tunnels && TunnelOkAt(eff.sh, n, eff.pc, op, os, opb, opu)
  {
    match pc
    case InSync(Select(todo, bind, unbind)) =>
      SelectKeepsTunnel(sh, t, pc, todo, bind, unbind, a, eff, n, op, os, opb, opu);
    case InSync(Unbinding(todo, bind)) => UnbindKeepsTunnel(sh, t, pc, todo, bind, a, eff, n, op, os, opb, opu);
    case InSync(Binding(todo)) => BindKeepsTunnel(sh, t, pc, todo, a, eff, n, op, os, opb, opu);
    case InSync(Listening(m, todo)) => ListenKeepsTunnel(sh, t, pc, m, todo, a, eff, n, op, os, opb, opu);
    case InSync(Awaiting(_, _, _)) =>
    case StopMark(_) => StopKeepsTunnel(sh, t, pc, selected, eff, n, op, os, opb, opu);
    case StopRead(_) => StopKeepsTunnel(sh, t, pc, selected, eff, n, op, os, opb, opu);
    case StopAwait(_, _) => StopKeepsTunnel(sh, t, pc, selected, eff, n, op, os, opb, opu);
    case _ => RestKeepsTunnel(sh, t, pc, a, eff, n, op, os, opb, opu);
  }
}
