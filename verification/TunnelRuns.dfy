/** Convergence of the tunnel supervisor, over every run. */
module TunnelRuns {
  import opened ConnTypes
  import opened TunnelMachine
  import opened TunnelInvariant
  import Runs

  /** What a goroutine may have in store for a tunnel. */
  datatype Aspect = Pending | Stopping | ToBind | ToUnbind

  predicate Has(pc: PC, n: Name, k: Aspect) {
    match k
    case Pending => PendsFor(pc, n)
    case Stopping => pc == StopRead(n)
    case ToBind => n in BindList(pc)
    case ToUnbind => n in UnbindList(pc)
  }

  ghost predicate Any(threads: map<Tid, PC>, n: Name, k: Aspect) {
    exists t :: t in threads && Has(threads[t], n, k)
  }

  ghost predicate AnyBut(threads: map<Tid, PC>, t: Tid, n: Name, k: Aspect) {
    exists u :: u in threads && u != t && Has(threads[u], n, k)
  }

  ghost predicate Threads(sh: Shared, threads: map<Tid, PC>) {
    && (sh.mu.Some? ==> sh.mu.value in threads)
    && (sh.syncMu.Some? ==> sh.syncMu.value in threads)
    && (forall t :: t in threads ==> PcOk(sh, t, threads[t]))
  }

  /** Every listener is being served. */
  ghost predicate Served(sh: Shared, threads: map<Tid, PC>) {
    forall n :: n in sh.tunnels && sh.tunnels[n].gen.Some? ==>
      var g := sh.tunnels[n].gen.value; Serve(g) in threads && threads[Serve(g)] == Serving(n, g)
  }

  ghost predicate TunnelInv(s: State, n: Name)
    requires n in s.sh.tunnels
  {
    TunnelOk(s.sh, n, Any(s.threads, n, Pending), Any(s.threads, n, Stopping), Any(s.threads, n, ToBind),
             Any(s.threads, n, ToUnbind))
  }

  ghost predicate Inv(s: State) {
    && SharedOk(s.sh)
    && Threads(s.sh, s.threads)
    && Served(s.sh, s.threads)
    && forall n :: n in s.sh.tunnels ==> TunnelInv(s, n)
  }

  /** The state after Start returned: no pinned tunnel is bound or stopped, nothing is connected. */
  ghost predicate Initial(s: State) {
    && s.threads == map[]
    && s.sh.mu == None && s.sh.syncMu == None && s.sh.cancelled == {} && s.sh.closed == {} && s.sh.nextGen == 0
    && s.sh.raced == {} && s.sh.lost == {}
    && (forall n :: n in s.sh.tunnels ==> s.sh.tunnels[n].gen == None && !s.sh.tunnels[n].stopped)
    && (forall u :: u in s.sh.states ==> s.sh.states[u] != ConnConnected)
  }

  // ---- lifting the steps of one goroutine ----

  lemma Split(threads: map<Tid, PC>, t: Tid, n: Name, k: Aspect)
    requires t in threads
    ensures Any(threads, n, k) <==> AnyBut(threads, t, n, k) || Has(threads[t], n, k)
  {
  }

  lemma SplitAfter(threads: map<Tid, PC>, t: Tid, eff: Effect, n: Name, k: Aspect)
    requires t in threads
    requires eff.spawn.Some? && eff.spawn.value.Serving? ==> Serve(eff.spawn.value.g) !in threads
    ensures Any(Put(threads, t, eff), n, k) <==> AnyBut(threads, t, n, k) || Has(eff.pc, n, k)
  {
    var after := Put(threads, t, eff);
    if u :| u in threads && u != t && Has(threads[u], n, k) {
      assert Has(after[u], n, k);
    }
    if Has(eff.pc, n, k) {
      assert Has(after[t], n, k);
    }
  }

  /** A spawned Serve goroutine is a new one. */
  lemma SpawnFresh(s: State, t: Tid, a: Action, selected: bool, eff: Effect)
    requires Inv(s) && t in s.threads && Local(s.sh, t, s.threads[t], a, selected) == Some(eff) && eff.spawn.Some?
    ensures
      && s.threads[t].InSync? && s.threads[t].sync.Listening? && a.Go?
      && eff.spawn == Some(Serving(s.threads[t].sync.n, s.sh.nextGen))
      && Serve(s.sh.nextGen) !in s.threads
  {
    assert PcOk(s.sh, t, s.threads[t]);
  }

  lemma LiftThreads(s: State, t: Tid, a: Action, selected: bool, eff: Effect)
    requires Inv(s) && t in s.threads && Local(s.sh, t, s.threads[t], a, selected) == Some(eff)
    ensures SharedOk(eff.sh) && Threads(eff.sh, Put(s.threads, t, eff))
  {
    var pc := s.threads[t];
    LocalStep(s.sh, t, pc, a, selected, eff);
    if eff.spawn.Some? {
      SpawnFresh(s, t, a, selected, eff);
    }
    forall u | u in s.threads && u != t ensures PcOk(eff.sh, u, s.threads[u]) && Rely(u, s.threads[u], s.sh, eff.sh) {
      assert Rely(u, s.threads[u], s.sh, eff.sh);
      Stable(s.sh, eff.sh, u, s.threads[u]);
    }
    HoldersKnown(s, t, a, selected, eff);
    if eff.spawn.Some? {
      assert PcOk(eff.sh, Serve(s.sh.nextGen), eff.spawn.value);
    }
  }

  lemma HoldersKnown(s: State, t: Tid, a: Action, selected: bool, eff: Effect)
    requires Inv(s) && t in s.threads && Local(s.sh, t, s.threads[t], a, selected) == Some(eff)
    ensures eff.sh.mu.Some? ==> eff.sh.mu.value in s.threads
    ensures eff.sh.syncMu.Some? ==> eff.sh.syncMu.value in s.threads
  {
    LocksHeld(s.sh, t, s.threads[t], a, selected, eff);
  }

  /** A goroutine takes a lock for itself, or leaves it as it is, or frees it. */
  lemma LocksHeld(sh: Shared, t: Tid, pc: PC, a: Action, selected: bool, eff: Effect)
    requires Local(sh, t, pc, a, selected) == Some(eff)
    ensures eff.sh.mu == sh.mu || eff.sh.mu in {None, Some(t)}
    ensures eff.sh.syncMu == sh.syncMu || eff.sh.syncMu in {None, Some(t)}
  {
    match pc
    case InSync(sync) => assert GoSync(sh, sync, a) == Some(eff);
    case _ =>
  }

  lemma LiftServed(s: State, t: Tid, a: Action, selected: bool, eff: Effect)
    requires Inv(s) && t in s.threads && Local(s.sh, t, s.threads[t], a, selected) == Some(eff)
    ensures Served(eff.sh, Put(s.threads, t, eff))
  {
    if eff.spawn.Some? {
      SpawnFresh(s, t, a, selected, eff);
    }
    forall n | n in eff.sh.tunnels && eff.sh.tunnels[n].gen.Some?
      ensures
        var g := eff.sh.tunnels[n].gen.value;
        Serve(g) in Put(s.threads, t, eff) && Put(s.threads, t, eff)[Serve(g)] == Serving(n, g)
    {
      GenHistory(s.sh, t, s.threads[t], a, selected, eff, n);
    }
  }

  /** A tunnel's listener is only ever set by the sync that binds it, and cleared by its own Serve goroutine. */
  lemma GenHistory(sh: Shared, t: Tid, pc: PC, a: Action, selected: bool, eff: Effect, n: Name)
    requires SharedOk(sh) && PcOk(sh, t, pc) && Local(sh, t, pc, a, selected) == Some(eff)
    requires n in eff.sh.tunnels && eff.sh.tunnels[n].gen.Some?
    ensures
      || (n in sh.tunnels && eff.sh.tunnels[n].gen == sh.tunnels[n].gen && !(pc.Serving? && pc.n == n))
      || (eff.spawn == Some(Serving(n, eff.sh.tunnels[n].gen.value)))
  {
    match pc
    case InSync(sync) => assert GoSync(sh, sync, a) == Some(eff);
    case StopMark(_) => assert GoStop(sh, pc, selected) == Some(eff);
    case StopRead(_) => assert GoStop(sh, pc, selected) == Some(eff);
    case StopAwait(_, _) => assert GoStop(sh, pc, selected) == Some(eff);
    case _ => assert GoRest(sh, t, pc, a) == Some(eff);
  }

  lemma OthersAreOk(s: State, t: Tid, n: Name)
    requires Inv(s) && t in s.threads && n in s.sh.tunnels
    ensures OthersOk(s.sh, n, s.threads[t], AnyBut(s.threads, t, n, ToBind), AnyBut(s.threads, t, n, ToUnbind))
    ensures Selected(s, n) <==> Any(s.threads, n, ToBind)
  {
    forall u | u in s.threads && (Has(s.threads[u], n, ToBind) || Has(s.threads[u], n, ToUnbind))
      ensures s.sh.syncMu == Some(u) && (Has(s.threads[u], n, ToBind) ==> s.sh.tunnels[n].gen == None)
      ensures !(Has(s.threads[u], n, ToBind) && Has(s.threads[u], n, ToUnbind))
    {
      assert PcOk(s.sh, u, s.threads[u]);
    }
    assert PcOk(s.sh, t, s.threads[t]);
    if Selected(s, n) {
      assert Has(s.threads[s.sh.syncMu.value], n, ToBind);
    }
  }

  lemma LiftTunnel(s: State, t: Tid, a: Action, eff: Effect, n: Name)
    requires Inv(s) && t in s.threads && n in s.sh.tunnels
    requires Local(s.sh, t, s.threads[t], a, s.threads[t].StopRead? && Selected(s, s.threads[t].n)) == Some(eff)
    ensures n in eff.sh.tunnels && TunnelInv(State(eff.sh, Put(s.threads, t, eff)), n)
  {
    var pc := s.threads[t];
    var selected := pc.StopRead? && Selected(s, pc.n);
    if eff.spawn.Some? {
      SpawnFresh(s, t, a, selected, eff);
    }
    forall k: Aspect
      ensures Any(s.threads, n, k) <==> AnyBut(s.threads, t, n, k) || Has(pc, n, k)
      ensures Any(Put(s.threads, t, eff), n, k) <==> AnyBut(s.threads, t, n, k) || Has(eff.pc, n, k)
    {
      Split(s.threads, t, n, k);
      SplitAfter(s.threads, t, eff, n, k);
    }
    OthersAreOk(s, t, n);
    LocalKeepsTunnel(s.sh, t, pc, a, selected, eff, n, AnyBut(s.threads, t, n, Pending),
      AnyBut(s.threads, t, n, Stopping), AnyBut(s.threads, t, n, ToBind), AnyBut(s.threads, t, n, ToUnbind));
  }

  /** Every step keeps the invariant. */
  lemma InvStep(s: State, e: Event, s': State)
    requires Inv(s) && Step(s, e) == Some(s')
    ensures Inv(s') && s'.sh.tunnels.Keys == s.sh.tunnels.Keys
  {
    match e
    case Act(t, a) =>
      var selected := s.threads[t].StopRead? && Selected(s, s.threads[t].n);
      var eff := Local(s.sh, t, s.threads[t], a, selected).value;
      LiftThreads(s, t, a, selected, eff);
      LiftServed(s, t, a, selected, eff);
      forall n | n in s.sh.tunnels ensures n in s'.sh.tunnels && TunnelInv(s', n) {
        LiftTunnel(s, t, a, eff, n);
      }
      KeysStay(s.sh, t, s.threads[t], a, selected, eff);
    case _ =>
      Arrival(s, e, s');
  }

  lemma KeysStay(sh: Shared, t: Tid, pc: PC, a: Action, selected: bool, eff: Effect)
    requires SharedOk(sh) && PcOk(sh, t, pc) && Local(sh, t, pc, a, selected) == Some(eff)
    ensures eff.sh.tunnels.Keys == sh.tunnels.Keys
  {
    match pc
    case InSync(sync) => assert GoSync(sh, sync, a) == Some(eff);
    case _ =>
  }

  lemma Newcomer(threads: map<Tid, PC>, t: Tid, pc: PC, n: Name, k: Aspect)
    requires t !in threads
    ensures Any(threads[t := pc], n, k) <==> Any(threads, n, k) || Has(pc, n, k)
  {
    var after := threads[t := pc];
    if u :| u in threads && Has(threads[u], n, k) {
      assert Has(after[u], n, k);
    }
    if Has(pc, n, k) {
      assert Has(after[t], n, k);
    }
  }

  /** Calls arrive, and states change. */
  lemma Arrival(s: State, e: Event, s': State)
    requires Inv(s) && !e.Act? && Step(s, e) == Some(s')
    ensures Inv(s') && s'.sh.tunnels == s.sh.tunnels
  {
    if s' != s {
      var pc := if e.Begin? then Entry(e.req) else Hook;
      assert PcOk(s'.sh, e.t, pc);
      forall u | u in s.threads ensures PcOk(s'.sh, u, s.threads[u]) {
        assert PcOk(s.sh, u, s.threads[u]);
      }
      forall n | n in s.sh.tunnels ensures TunnelInv(s', n) {
        assert TunnelInv(s, n);
        forall k: Aspect ensures Any(s'.threads, n, k) <==> Any(s.threads, n, k) || Has(pc, n, k) {
          Newcomer(s.threads, e.t, pc, n, k);
        }
      }
    }
  }

  // ---- runs ----

  type Run = Runs.Run<State, Event>

  ghost predicate Valid(r: Run) { Runs.IsRun(Step, r) && Initial(r.states[0]) }

  lemma {:induction false} InvAt(r: Run, i: nat)
    requires Valid(r) && i < |r.states|
    ensures Inv(r.states[i]) && r.states[i].sh.tunnels.Keys == r.states[0].sh.tunnels.Keys
  {
    if i > 0 {
      InvAt(r, i - 1);
      InvStep(r.states[i - 1], r.events[i - 1], r.states[i]);
    }
  }

  /** No sync is due or under way, and no StopTunnel or Serve goroutine has yet to finish an unbind.
      Stale syncs, and calls that have not begun, may be around. */
  predicate Idle(sh: Shared, pc: PC) {
    || pc.Done? || pc.StopMark? || pc.StartMark?
    || pc == SyncWait(true) || pc == SyncLocked(true)
    || (pc.Serving? && pc.g !in sh.cancelled)
  }

  ghost predicate Quiet(s: State) {
    forall t :: t in s.threads ==> Idle(s.sh, s.threads[t])
  }

  /** Nothing is in store for tunnel n: no sync is due or under way, no StartTunnel of n is bringing its
      upstream up, no StopTunnel of n has yet to unbind it, and no cancelled listener of n has yet to be
      cleared. Calls on other tunnels may be anywhere. */
  predicate IdleFor(sh: Shared, pc: PC, n: Name) {
    match pc
    case Hook => false
    case SyncWait(stale) => stale
    case SyncLocked(stale) => stale
    case InSync(_) => false
    case StopRead(m) => m != n
    case Upping(m) => m != n
    case Serving(m, g) => m != n || g !in sh.cancelled
    case _ => true
  }

  ghost predicate QuietFor(s: State, n: Name) {
    forall t :: t in s.threads ==> IdleFor(s.sh, s.threads[t], n)
  }

  lemma QuietIsQuietFor(s: State, n: Name)
    requires Quiet(s)
    ensures QuietFor(s, n)
  {
    forall t | t in s.threads ensures IdleFor(s.sh, s.threads[t], n) {
      assert Idle(s.sh, s.threads[t]);
    }
  }

  // ---- the events that decide about a tunnel ----

  /** At pc, a StopTunnel reads the handle of n, still stopped, and finds no listener, while the running sync
      has already selected n to be bound. */
  predicate Races(sh: Shared, pc: PC, a: Action, selected: bool, n: Name)
    requires n in sh.tunnels
  {
    a.Go? && pc == StopRead(n) && selected && sh.tunnels[n].gen == None && sh.tunnels[n].stopped
  }

  /** At pc, action a deprives n of its listener, or of getting one, other than by its wish: a bind or a
      Serve fails, a StopTunnel closes a listener after a StartTunnel has undone its mark, or a sync that
      should bind n finds its cancelled listener still closing. */
  predicate Deprives(sh: Shared, pc: PC, a: Action, n: Name)
    requires n in sh.tunnels
  {
    var h := sh.tunnels[n];
    || (a.Fail? && pc.Serving? && pc.n == n && pc.g !in sh.cancelled)
    || (a.Fail? && pc.InSync? && pc.sync.Listening? && pc.sync.n == n)
    || (a.Go? && pc == StopRead(n) && !h.stopped && Bound(sh, h))
    || (a == Pick(n) && pc.InSync? && pc.sync.Select? && Want(sh, h) && h.gen.Some? && h.gen.value in sh.cancelled)
  }

  /** At pc, a sync looks at n, or a StopTunnel closes its listener. */
  predicate Renews(sh: Shared, pc: PC, a: Action, n: Name)
    requires n in sh.tunnels
  {
    || (a == Pick(n) && pc.InSync? && pc.sync.Select?)
    || (a.Go? && pc == StopRead(n) && Bound(sh, sh.tunnels[n]))
  }

  predicate Concerns(sh: Shared, pc: PC, a: Action, selected: bool, n: Name)
    requires n in sh.tunnels
  {
    Races(sh, pc, a, selected, n) || Deprives(sh, pc, a, n) || Renews(sh, pc, a, n)
  }

  lemma FlagStep(sh: Shared, t: Tid, pc: PC, a: Action, selected: bool, eff: Effect, n: Name)
    requires n in sh.tunnels && Local(sh, t, pc, a, selected) == Some(eff)
    ensures n in eff.sh.raced <==>
      Races(sh, pc, a, selected, n) || (n in sh.raced && !Concerns(sh, pc, a, selected, n))
    ensures n in eff.sh.lost <==> Deprives(sh, pc, a, n) || (n in sh.lost && !Concerns(sh, pc, a, selected, n))
  {
    match pc
    case InSync(sync) => SyncFlagStep(sh, sync, a, eff, n);
    case StopRead(_) => assert GoStop(sh, pc, selected) == Some(eff);
    case _ =>
  }

  lemma SyncFlagStep(sh: Shared, sync: SyncPC, a: Action, eff: Effect, n: Name)
    requires n in sh.tunnels && GoSync(sh, sync, a) == Some(eff)
    ensures n in eff.sh.raced <==> n in sh.raced && !Concerns(sh, InSync(sync), a, false, n)
    ensures n in eff.sh.lost <==>
      Deprives(sh, InSync(sync), a, n) || (n in sh.lost && !Concerns(sh, InSync(sync), a, false, n))
  {
  }

  /** Event i is a goroutine's step. */
  ghost predicate Acts(r: Run, i: nat, n: Name) {
    && i < |r.events| && i < |r.states|
    && r.events[i].Act? && r.events[i].t in r.states[i].threads && n in r.states[i].sh.tunnels
  }

  /** The program point at which event i is a step. */
  ghost function PcAt(r: Run, i: nat, n: Name): PC
    requires Acts(r, i, n)
  {
    r.states[i].threads[r.events[i].t]
  }

  ghost predicate SelectedAt(r: Run, i: nat, n: Name)
    requires Acts(r, i, n)
  {
    PcAt(r, i, n).StopRead? && Selected(r.states[i], PcAt(r, i, n).n)
  }

  ghost predicate RacyStop(r: Run, i: nat, n: Name) {
    Acts(r, i, n) && Races(r.states[i].sh, PcAt(r, i, n), r.events[i].a, SelectedAt(r, i, n), n)
  }

  ghost predicate Mishap(r: Run, i: nat, n: Name) {
    Acts(r, i, n) && Deprives(r.states[i].sh, PcAt(r, i, n), r.events[i].a, n)
  }

  ghost predicate ConcernsAt(r: Run, i: nat, n: Name) {
    Acts(r, i, n) && Concerns(r.states[i].sh, PcAt(r, i, n), r.events[i].a, SelectedAt(r, i, n), n)
  }

  /** Of the events before i that concern n, the last is a racing StopTunnel. */
  ghost predicate RacedLast(r: Run, i: nat, n: Name) {
    exists k: nat :: k < i && RacyStop(r, k, n) && forall m :: k < m < i ==> !ConcernsAt(r, m, n)
  }

  /** Of the events before i that concern n, the last is a mishap. */
  ghost predicate LostLast(r: Run, i: nat, n: Name) {
    exists k: nat :: k < i && Mishap(r, k, n) && forall m :: k < m < i ==> !ConcernsAt(r, m, n)
  }

  lemma FlagsAt(r: Run, i: nat, n: Name)
    requires Valid(r) && i < |r.events| && n in r.states[0].sh.tunnels
    ensures n in r.states[i + 1].sh.raced <==> RacyStop(r, i, n) || (n in r.states[i].sh.raced && !ConcernsAt(r, i, n))
    ensures n in r.states[i + 1].sh.lost <==> Mishap(r, i, n) || (n in r.states[i].sh.lost && !ConcernsAt(r, i, n))
  {
    InvAt(r, i);
    var s, e := r.states[i], r.events[i];
    assert Step(s, e) == Some(r.states[i + 1]);
    if e.Act? {
      var pc := s.threads[e.t];
      var selected := pc.StopRead? && Selected(s, pc.n);
      FlagStep(s.sh, e.t, pc, e.a, selected, Local(s.sh, e.t, pc, e.a, selected).value, n);
    }
  }

  /** One more event keeps the last one that concerned n, unless it concerns n itself. */
  lemma LastGrows(r: Run, i: nat, n: Name)
    ensures RacedLast(r, i + 1, n) <==> RacyStop(r, i, n) || (RacedLast(r, i, n) && !ConcernsAt(r, i, n))
    ensures LostLast(r, i + 1, n) <==> Mishap(r, i, n) || (LostLast(r, i, n) && !ConcernsAt(r, i, n))
  {
    if !ConcernsAt(r, i, n) {
      if RacedLast(r, i, n) {
        var k: nat :| k < i && RacyStop(r, k, n) && forall m :: k < m < i ==> !ConcernsAt(r, m, n);
        assert forall m :: k < m < i + 1 ==> !ConcernsAt(r, m, n);
      }
      if LostLast(r, i, n) {
        var k: nat :| k < i && Mishap(r, k, n) && forall m :: k < m < i ==> !ConcernsAt(r, m, n);
        assert forall m :: k < m < i + 1 ==> !ConcernsAt(r, m, n);
      }
    }
  }

  /** The flags of the protocol are no more than this history. */
  lemma {:induction false} FlagsAreHistory(r: Run, i: nat, n: Name)
    requires Valid(r) && i < |r.states| && n in r.states[0].sh.tunnels
    ensures n in r.states[i].sh.raced <==> RacedLast(r, i, n)
    ensures n in r.states[i].sh.lost <==> LostLast(r, i, n)
  {
    if i > 0 {
      FlagsAreHistory(r, i - 1, n);
      FlagsGrow(r, i - 1, n);
    }
  }

  lemma FlagsGrow(r: Run, i: nat, n: Name)
    requires Valid(r) && i < |r.events| && n in r.states[0].sh.tunnels
    requires n in r.states[i].sh.raced <==> RacedLast(r, i, n)
    requires n in r.states[i].sh.lost <==> LostLast(r, i, n)
    ensures n in r.states[i + 1].sh.raced <==> RacedLast(r, i + 1, n)
    ensures n in r.states[i + 1].sh.lost <==> LostLast(r, i + 1, n)
  {
    FlagsAt(r, i, n);
    LastGrows(r, i, n);
  }

  // ---- convergence ----

  /** No goroutine has anything in store for it. */
  lemma QuietHasNone(s: State, n: Name, k: Aspect)
    requires QuietFor(s, n)
    ensures !Any(s.threads, n, k)
  {
    forall t | t in s.threads ensures !Has(s.threads[t], n, k) {
      assert IdleFor(s.sh, s.threads[t], n);
    }
  }

  /** Nor is its listener cancelled. */
  lemma QuietIsBound(s: State, n: Name)
    requires Inv(s) && QuietFor(s, n) && n in s.sh.tunnels
    ensures s.sh.tunnels[n].gen.Some? <==> Bound(s.sh, s.sh.tunnels[n])
  {
    if s.sh.tunnels[n].gen.Some? {
      assert IdleFor(s.sh, s.threads[Serve(s.sh.tunnels[n].gen.value)], n);
    }
  }

  lemma QuietFlags(s: State, n: Name)
    requires Inv(s) && QuietFor(s, n) && n in s.sh.tunnels
    ensures
      var h := s.sh.tunnels[n];
      && ((h.gen.Some? <==> Want(s.sh, h)) <==> n !in s.sh.raced && (n in s.sh.lost ==> !Want(s.sh, h)))
      && (n in s.sh.raced ==> h.gen.Some? && h.stopped)
      && (n in s.sh.lost ==> h.gen == None)
  {
    assert TunnelInv(s, n);
    QuietHasNone(s, n, Pending);
    QuietHasNone(s, n, Stopping);
    QuietHasNone(s, n, ToBind);
    QuietHasNone(s, n, ToUnbind);
    QuietIsBound(s, n);
  }

  /** At every state that is quiet for it, a pinned tunnel listens exactly if its upstream is connected and it is not
      stopped, if and only if the last event that concerned it is no racing StopTunnel (after which it
      listens although stopped) and, if it should listen, no mishap (after which it does not). */
  lemma QuietTunnel(r: Run, i: nat, n: Name)
    requires Valid(r) && i < |r.states| && n in r.states[i].sh.tunnels && QuietFor(r.states[i], n)
    ensures
      var sh := r.states[i].sh;
      var h := sh.tunnels[n];
      && ((h.gen.Some? <==> Want(sh, h)) <==> !RacedLast(r, i, n) && (LostLast(r, i, n) ==> !Want(sh, h)))
      && (RacedLast(r, i, n) ==> h.gen.Some? && h.stopped)
      && (LostLast(r, i, n) ==> h.gen == None)
  {
    InvAt(r, i);
    FlagsAreHistory(r, i, n);
    QuietFlags(r.states[i], n);
  }

  /** Convergence: in a run in which no StopTunnel races the selection of n and n meets no mishap, at every
      state quiet for n, it listens exactly if its upstream is connected and it is not stopped. */
  lemma TunnelsConverge(r: Run, i: nat, n: Name)
    requires Valid(r) && i < |r.states| && n in r.states[i].sh.tunnels && QuietFor(r.states[i], n)
    requires forall k :: 0 <= k < i ==> !RacyStop(r, k, n) && !Mishap(r, k, n)
    ensures r.states[i].sh.tunnels[n].gen.Some? <==> Want(r.states[i].sh, r.states[i].sh.tunnels[n])
  {
    QuietTunnel(r, i, n);
  }

  /** A tunnel pinned to an upstream that is not connected does not listen once the syncs have drained,
      unless a StopTunnel raced its selection. */
  lemma DisconnectedIsUnbound(r: Run, i: nat, n: Name)
    requires Valid(r) && i < |r.states| && n in r.states[i].sh.tunnels && QuietFor(r.states[i], n)
    requires forall k :: 0 <= k < i ==> !RacyStop(r, k, n)
    requires !Up(r.states[i].sh, r.states[i].sh.tunnels[n])
    ensures r.states[i].sh.tunnels[n].gen == None
  {
    QuietTunnel(r, i, n);
  }
}
