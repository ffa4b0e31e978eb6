/** The tunnel supervisor as its callers see it: when tunnels converge, in terms of calls that overlap, and
    that no call is ever stuck. */
module TunnelCalls {
  import opened ConnTypes
  import opened TunnelMachine
  import opened TunnelInvariant
  import opened TunnelRuns

  // ---- who closes a cancelled listener, and who waits for it ----

  predicate Awaiting1(pc: PC) { pc.InSync? && pc.sync.Awaiting? }

  /** The goroutine at pc waits for listener g of n to close. */
  predicate Awaits(pc: PC, n: Name, g: Gen) { pc == StopAwait(n, g) || (Awaiting1(pc) && pc.sync.g == g) }

  predicate PcMore(sh: Shared, t: Tid, pc: PC) {
    && (pc.ServeClose? ==> t == Serve(pc.g))
    && (pc.StopRead? ==> pc.n in sh.tunnels)
    && (pc.StopAwait? ==> pc.g in sh.cancelled)
    && (Awaiting1(pc) ==> pc.sync.g in sh.cancelled)
  }

  /** A listener is closed by its own Serve goroutine's last step, cancelled by who then waits for it, and
      waited for until it is closed. */
  predicate Closing(sh: Shared, t: Tid, pc: PC, eff: Effect) {
    && (eff.sh.closed == sh.closed || (pc.ServeClose? && eff.sh.closed == sh.closed + {pc.g}))
    && (eff.sh.cancelled == sh.cancelled
        || (eff.pc.StopAwait? && eff.sh.cancelled == sh.cancelled + {eff.pc.g} && eff.pc.n in sh.tunnels
            && sh.tunnels[eff.pc.n].gen == Some(eff.pc.g))
        || (Awaiting1(eff.pc) && eff.sh.cancelled == sh.cancelled + {eff.pc.sync.g}))
    && (pc.StopAwait? ==> pc.g in sh.closed)
    && (Awaiting1(pc) ==> pc.sync.g in sh.closed)
    && (pc.Serving? ==> eff.pc == ServeClose(pc.g))
    && (pc.ServeClose? ==> eff.pc.Done? && pc.g in eff.sh.closed)
    && !pc.Done?
  }

  lemma SyncCloses(sh: Shared, t: Tid, sync: SyncPC, a: Action, eff: Effect)
    requires PcOk(sh, t, InSync(sync)) && PcMore(sh, t, InSync(sync)) && GoSync(sh, sync, a) == Some(eff)
    ensures PcMore(eff.sh, t, eff.pc) && Closing(sh, t, InSync(sync), eff) && sh.nextGen <= eff.sh.nextGen
  {
  }

  lemma LocalCloses(sh: Shared, t: Tid, pc: PC, a: Action, selected: bool, eff: Effect)
    requires PcOk(sh, t, pc) && PcMore(sh, t, pc) && Local(sh, t, pc, a, selected) == Some(eff)
    ensures PcMore(eff.sh, t, eff.pc) && Closing(sh, t, pc, eff) && sh.nextGen <= eff.sh.nextGen
  {
    match pc
    case InSync(sync) => SyncCloses(sh, t, sync, a, eff);
    case StopMark(_) => assert GoStop(sh, pc, selected) == Some(eff);
    case StopRead(_) => assert GoStop(sh, pc, selected) == Some(eff);
    case _ =>
  }

  ghost predicate SomeAwaits(threads: map<Tid, PC>, n: Name, g: Gen) {
    exists t :: t in threads && Awaits(threads[t], n, g)
  }

  /** A listener that a handle still holds is not closed, and if cancelled, someone waits for it. */
  ghost predicate HandlesOk(s: State) {
    forall n :: n in s.sh.tunnels && s.sh.tunnels[n].gen.Some? ==>
      var g := s.sh.tunnels[n].gen.value;
      g !in s.sh.closed && (g in s.sh.cancelled ==> SomeAwaits(s.threads, n, g))
  }

  /** The Serve goroutine of g has yet to close it, or g is closed. */
  ghost predicate Serves(s: State, g: Gen) {
    && Serve(g) in s.threads
    && var pc := s.threads[Serve(g)];
       (pc.Serving? && pc.g == g) || pc == ServeClose(g) || (pc.Done? && g in s.sh.closed)
  }

  ghost predicate More(s: State) {
    && (forall t :: t in s.threads ==> PcMore(s.sh, t, s.threads[t]))
    && (forall g :: g in s.sh.closed ==> g < s.sh.nextGen)
    && (forall g: Gen :: g < s.sh.nextGen ==> Serves(s, g))
    && HandlesOk(s)
  }

  // ---- every step keeps this ----

  lemma ThreadsMore(s: State, t: Tid, a: Action, selected: bool, eff: Effect)
    requires Inv(s) && More(s) && t in s.threads && Local(s.sh, t, s.threads[t], a, selected) == Some(eff)
    ensures forall u :: u in Put(s.threads, t, eff) ==> PcMore(eff.sh, u, Put(s.threads, t, eff)[u])
    ensures forall g :: g in eff.sh.closed ==> g < eff.sh.nextGen
    ensures Closing(s.sh, t, s.threads[t], eff)
  {
    assert PcOk(s.sh, t, s.threads[t]) && PcMore(s.sh, t, s.threads[t]);
    LocalCloses(s.sh, t, s.threads[t], a, selected, eff);
    KeysStay(s.sh, t, s.threads[t], a, selected, eff);
    if eff.spawn.Some? {
      SpawnFresh(s, t, a, selected, eff);
    }
    forall u | u in s.threads && u != t ensures PcMore(eff.sh, u, s.threads[u]) {
      assert PcMore(s.sh, u, s.threads[u]);
    }
  }

  lemma ServesMore(s: State, t: Tid, a: Action, selected: bool, eff: Effect)
    requires Inv(s) && More(s) && t in s.threads && Local(s.sh, t, s.threads[t], a, selected) == Some(eff)
    ensures forall g: Gen :: g < eff.sh.nextGen ==> Serves(State(eff.sh, Put(s.threads, t, eff)), g)
  {
    ThreadsMore(s, t, a, selected, eff);
    NextGen(s.sh, t, s.threads[t], a, selected, eff);
    assert PcOk(s.sh, t, s.threads[t]);
    if eff.spawn.Some? {
      SpawnFresh(s, t, a, selected, eff);
    }
    forall g: Gen | g < s.sh.nextGen ensures Serves(State(eff.sh, Put(s.threads, t, eff)), g) {
      assert Serves(s, g);
    }
  }

  lemma NextGen(sh: Shared, t: Tid, pc: PC, a: Action, selected: bool, eff: Effect)
    requires Local(sh, t, pc, a, selected) == Some(eff)
    ensures
      if eff.spawn == None then eff.sh.nextGen == sh.nextGen
      else eff.sh.nextGen == sh.nextGen + 1 && eff.spawn.value.Serving? && eff.spawn.value.g == sh.nextGen
  {
    match pc
    case InSync(sync) => assert GoSync(sh, sync, a) == Some(eff);
    case _ =>
  }

  lemma HandlesMore(s: State, t: Tid, a: Action, selected: bool, eff: Effect, n: Name)
    requires Inv(s) && More(s) && t in s.threads && Local(s.sh, t, s.threads[t], a, selected) == Some(eff)
    requires n in eff.sh.tunnels && eff.sh.tunnels[n].gen.Some?
    ensures
      var g := eff.sh.tunnels[n].gen.value;
      g !in eff.sh.closed && (g in eff.sh.cancelled ==> SomeAwaits(Put(s.threads, t, eff), n, g))
  {
    var pc, g := s.threads[t], eff.sh.tunnels[n].gen.value;
    var after := Put(s.threads, t, eff);
    ThreadsMore(s, t, a, selected, eff);
    assert PcOk(s.sh, t, pc);
    GenHistory(s.sh, t, pc, a, selected, eff, n);
    if eff.spawn.Some? {
      SpawnFresh(s, t, a, selected, eff);
    }
    if n in s.sh.tunnels && s.sh.tunnels[n].gen == Some(g) {
      assert s.threads[Serve(g)] == Serving(n, g);
      if g in s.sh.cancelled {
        var u :| u in s.threads && Awaits(s.threads[u], n, g);
        assert u != t;
        assert Awaits(after[u], n, g);
      } else if g in eff.sh.cancelled {
        assert Awaits(after[t], n, g);
      }
    }
  }

  lemma MoreStep(s: State, e: Event, s': State)
    requires Inv(s) && More(s) && Step(s, e) == Some(s')
    ensures More(s')
  {
    match e
    case Act(t, a) =>
      var selected := s.threads[t].StopRead? && Selected(s, s.threads[t].n);
      var eff := Local(s.sh, t, s.threads[t], a, selected).value;
      ThreadsMore(s, t, a, selected, eff);
      ServesMore(s, t, a, selected, eff);
      forall n | n in s'.sh.tunnels && s'.sh.tunnels[n].gen.Some?
        ensures
          var g := s'.sh.tunnels[n].gen.value;
          g !in s'.sh.closed && (g in s'.sh.cancelled ==> SomeAwaits(s'.threads, n, g))
      {
        HandlesMore(s, t, a, selected, eff, n);
      }
    case _ => ArrivalMore(s, e, s');
  }

  lemma ArrivalMore(s: State, e: Event, s': State)
    requires Inv(s) && More(s) && !e.Act? && Step(s, e) == Some(s')
    ensures More(s')
  {
    forall n, g | SomeAwaits(s.threads, n, g) ensures SomeAwaits(s'.threads, n, g) {
      var u :| u in s.threads && Awaits(s.threads[u], n, g);
      assert Awaits(s'.threads[u], n, g);
    }
    forall g: Gen | g < s.sh.nextGen ensures Serves(s', g) {
      assert Serves(s, g);
    }
  }

  lemma {:induction false} MoreAt(r: Run, i: nat)
    requires Valid(r) && i < |r.states|
    ensures Inv(r.states[i]) && More(r.states[i])
  {
    InvAt(r, i);
    if i > 0 {
      MoreAt(r, i - 1);
      assert Step(r.states[i - 1], r.events[i - 1]) == Some(r.states[i]);
      MoreStep(r.states[i - 1], r.events[i - 1], r.states[i]);
    }
  }

  // ---- calls that overlap ----

  /** A StopTunnel of n is under way. */
  ghost predicate StopUnderWay(s: State, n: Name) {
    exists t :: t in s.threads && (s.threads[t] == StopMark(n) || s.threads[t] == StopRead(n) ||
      (s.threads[t].StopAwait? && s.threads[t].n == n))
  }

  ghost predicate StartUnderWay(s: State, n: Name) { exists t :: t in s.threads && s.threads[t] == StartMark(n) }

  ghost predicate SyncUnderWay(s: State) { exists t :: t in s.threads && s.threads[t].InSync? }

  /** No StopTunnel of n overlaps a sync, or a StartTunnel of n. */
  ghost predicate Apart(s: State, n: Name) {
    StopUnderWay(s, n) ==> !SyncUnderWay(s) && !StartUnderWay(s, n)
  }

  /** With event i, a bind or a Serve of n fails. */
  ghost predicate FailsAt(r: Run, i: nat, n: Name) {
    && Acts(r, i, n) && r.events[i].a.Fail?
    && var pc := PcAt(r, i, n);
       || (pc.Serving? && pc.n == n && pc.g !in r.states[i].sh.cancelled)
       || (pc.InSync? && pc.sync.Listening? && pc.sync.n == n)
  }

  lemma LocalMark(sh: Shared, t: Tid, pc: PC, a: Action, selected: bool, eff: Effect, n: Name)
    requires n in sh.tunnels && Local(sh, t, pc, a, selected) == Some(eff) && n in eff.sh.tunnels
    ensures sh.tunnels[n].stopped && !eff.sh.tunnels[n].stopped ==> pc == StartMark(n)
    ensures eff.pc == StopRead(n) ==> eff.sh.tunnels[n].stopped
    ensures eff.spawn.Some? ==> eff.spawn.value.Serving?
  {
    match pc
    case InSync(sync) => assert GoSync(sh, sync, a) == Some(eff);
    case StopMark(_) => assert GoStop(sh, pc, selected) == Some(eff);
    case StopRead(_) => assert GoStop(sh, pc, selected) == Some(eff);
    case _ =>
  }

  /** A StopTunnel of n that has yet to unbind n finds its mark. */
  ghost predicate Marked(s: State, n: Name)
    requires n in s.sh.tunnels
  {
    (exists t :: t in s.threads && s.threads[t] == StopRead(n)) ==> s.sh.tunnels[n].stopped
  }

  lemma MarkStep(s: State, e: Event, s': State, n: Name)
    requires Step(s, e) == Some(s') && n in s.sh.tunnels && n in s'.sh.tunnels
    requires Marked(s, n) && Apart(s, n)
    ensures Marked(s', n)
  {
    if u :| u in s'.threads && s'.threads[u] == StopRead(n) {
      if e.Act? {
        var pc := s.threads[e.t];
        var selected := pc.StopRead? && Selected(s, pc.n);
        LocalMark(s.sh, e.t, pc, e.a, selected, Local(s.sh, e.t, pc, e.a, selected).value, n);
        if u != e.t {
          assert s.threads[u] == StopRead(n);
        }
      } else {
        assert s.threads[u] == StopRead(n);
      }
    }
  }

  lemma KeysAt(r: Run, i: nat)
    requires Valid(r) && i < |r.states|
    ensures r.states[i].sh.tunnels.Keys == r.states[0].sh.tunnels.Keys
  {
    InvAt(r, i);
  }

  /** While no StartTunnel of n overlaps it, a StopTunnel of n keeps its mark. */
  lemma {:induction false} MarkStays(r: Run, i: nat, n: Name)
    requires Valid(r) && i < |r.states| && n in r.states[0].sh.tunnels
    requires forall k :: 0 <= k < i ==> Apart(r.states[k], n)
    ensures n in r.states[i].sh.tunnels && Marked(r.states[i], n)
  {
    KeysAt(r, i);
    if i > 0 {
      MarkStays(r, i - 1, n);
      assert Step(r.states[i - 1], r.events[i - 1]) == Some(r.states[i]);
      MarkStep(r.states[i - 1], r.events[i - 1], r.states[i], n);
    }
  }

  /** Where no StopTunnel of n overlaps a sync or a StartTunnel of n, and nothing fails, no event deprives n of
      its listener or races its selection. */
  lemma ApartIsHarmless(r: Run, i: nat, n: Name)
    requires Valid(r) && i < |r.events| && n in r.states[0].sh.tunnels
    requires forall k :: 0 <= k <= i ==> Apart(r.states[k], n) && !FailsAt(r, k, n)
    ensures !RacyStop(r, i, n) && !Mishap(r, i, n)
  {
    if Acts(r, i, n) {
      var s := r.states[i];
      var t, pc, a, h := r.events[i].t, PcAt(r, i, n), r.events[i].a, s.sh.tunnels[n];
      InvAt(r, i);
      assert Apart(s, n);
      if pc == StopRead(n) {
        MarkStays(r, i, n);
        NoneSelected(s, n, t);
      }
      if pc.InSync? && pc.sync.Select? && h.gen.Some? && h.gen.value in s.sh.cancelled {
        LookFindsNoneClosing(r, i, n, t);
      }
    }
  }

  /** No sync has selected n while a StopTunnel of n is about to unbind it. */
  lemma NoneSelected(s: State, n: Name, t: Tid)
    requires Inv(s) && Apart(s, n) && t in s.threads && s.threads[t] == StopRead(n)
    ensures !Selected(s, n)
  {
    assert StopUnderWay(s, n);
    forall u | u in s.threads ensures n !in BindList(s.threads[u]) {
      assert !s.threads[u].InSync?;
    }
  }

  /** While a sync is selecting, nobody waits for a listener of n to close. */
  lemma NoneAwaits(s: State, n: Name, g: Gen, t: Tid)
    requires Inv(s) && Apart(s, n) && t in s.threads && s.threads[t].InSync? && s.threads[t].sync.Select?
    ensures !SomeAwaits(s.threads, n, g)
  {
    assert SyncUnderWay(s);
    forall u | u in s.threads ensures !Awaits(s.threads[u], n, g) {
      assert PcOk(s.sh, u, s.threads[u]) && PcOk(s.sh, t, s.threads[t]);
    }
  }

  /** A sync that looks at n finds its listener cancelled only while a StopTunnel of n waits for it. */
  lemma LookFindsNoneClosing(r: Run, i: nat, n: Name, t: Tid)
    requires Valid(r) && i < |r.states| && Apart(r.states[i], n) && n in r.states[i].sh.tunnels
    requires t in r.states[i].threads && r.states[i].threads[t].InSync? && r.states[i].threads[t].sync.Select?
    ensures
      var h := r.states[i].sh.tunnels[n];
      h.gen.Some? ==> h.gen.value !in r.states[i].sh.cancelled
  {
    MoreAt(r, i);
    var h := r.states[i].sh.tunnels[n];
    if h.gen.Some? {
      NoneAwaits(r.states[i], n, h.gen.value, t);
    }
  }

  /** Convergence, as callers see it: in a run in which no StopTunnel of n overlaps a sync or a StartTunnel of
      n, and no bind or Serve of n fails, n listens at every state quiet for it exactly if its upstream is
      connected and it is not stopped. */
  lemma CallsApartConverge(r: Run, i: nat, n: Name)
    requires Valid(r) && i < |r.states| && n in r.states[i].sh.tunnels && QuietFor(r.states[i], n)
    requires forall k :: 0 <= k < i ==> Apart(r.states[k], n) && !FailsAt(r, k, n)
    ensures r.states[i].sh.tunnels[n].gen.Some? <==> Want(r.states[i].sh, r.states[i].sh.tunnels[n])
  {
    InvAt(r, i);
    forall k | 0 <= k < i ensures !RacyStop(r, k, n) && !Mishap(r, k, n) {
      ApartIsHarmless(r, k, n);
    }
    TunnelsConverge(r, i, n);
  }

  // ---- what causes a sync, and what protects it ----

  /** The goroutine at pc is a sync of the running registry, due or under way. */
  predicate Syncs(pc: PC) { pc.Hook? || pc == SyncWait(false) || pc == SyncLocked(false) || pc.InSync? }

  /** Event k begins a StartTunnel as goroutine t, or is a change of some upstream's state with t as its hook. */
  ghost predicate Causes(r: Run, k: nat, t: Tid) {
    && k < |r.events| && k < |r.states|
    && match r.events[k]
       case Begin(u, req) => u == t && req.Start?
       case Change(u, upstream, state) =>
         u == t && upstream in r.states[k].sh.states && r.states[k].sh.states[upstream] != state
       case Act(_, _) => false
  }

  predicate StartsSync(pc: PC) { Syncs(pc) || pc.StartMark? || pc.Upping? }

  lemma SyncsLocal(sh: Shared, t: Tid, pc: PC, a: Action, selected: bool, eff: Effect)
    requires Local(sh, t, pc, a, selected) == Some(eff)
    ensures StartsSync(eff.pc) ==> StartsSync(pc)
    ensures eff.spawn.Some? ==> eff.spawn.value.Serving?
  {
    match pc
    case InSync(sync) => assert GoSync(sh, sync, a) == Some(eff);
    case _ =>
  }

  lemma SyncsStep(s: State, e: Event, s': State, t: Tid)
    requires Step(s, e) == Some(s') && t in s'.threads && StartsSync(s'.threads[t])
    ensures (t in s.threads && StartsSync(s.threads[t])) || (!e.Act? && e.t == t && t !in s.threads)
  {
    if e.Act? {
      var pc := s.threads[e.t];
      var selected := pc.StopRead? && Selected(s, pc.n);
      SyncsLocal(s.sh, e.t, pc, e.a, selected, Local(s.sh, e.t, pc, e.a, selected).value);
    }
  }

  /** Every sync has a cause: a StartTunnel, or a change of some upstream's state. A sync of an earlier registry
      never comes to select. */
  lemma {:induction false} SyncsHaveACause(r: Run, i: nat, t: Tid)
    requires Valid(r) && i < |r.states| && t in r.states[i].threads && StartsSync(r.states[i].threads[t])
    ensures exists k: nat :: k < i && Causes(r, k, t)
  {
    assert i > 0;
    var s, e := r.states[i - 1], r.events[i - 1];
    assert Step(s, e) == Some(r.states[i]);
    SyncsStep(s, e, r.states[i], t);
    if t in s.threads && StartsSync(s.threads[t]) {
      SyncsHaveACause(r, i - 1, t);
    } else {
      assert Causes(r, i - 1, t);
    }
  }

  lemma MuLocal(sh: Shared, t: Tid, pc: PC, a: Action, selected: bool, eff: Effect)
    requires PcOk(sh, t, pc) && Local(sh, t, pc, a, selected) == Some(eff) && sh.mu.Some? && sh.mu != Some(t)
    ensures eff.sh.tunnels == sh.tunnels && eff.sh.mu == sh.mu
  {
    match pc
    case InSync(sync) => assert GoSync(sh, sync, a) == Some(eff);
    case _ =>
  }

  /** While a sync selects, no other goroutine changes a stop mark or a listener. */
  lemma SelectionIsUndisturbed(r: Run, i: nat, u: Tid)
    requires Valid(r) && i < |r.events| && u in r.states[i].threads
    requires r.states[i].threads[u].InSync? && r.states[i].threads[u].sync.Select? && r.events[i].t != u
    ensures r.states[i + 1].sh.tunnels == r.states[i].sh.tunnels && r.states[i + 1].sh.mu == Some(u)
  {
    InvAt(r, i);
    var s, e := r.states[i], r.events[i];
    assert PcOk(s.sh, u, s.threads[u]);
    assert Step(s, e) == Some(r.states[i + 1]);
    if e.Act? {
      var pc := s.threads[e.t];
      var selected := pc.StopRead? && Selected(s, pc.n);
      assert PcOk(s.sh, e.t, pc);
      MuLocal(s.sh, e.t, pc, e.a, selected, Local(s.sh, e.t, pc, e.a, selected).value);
    }
  }

  // ---- progress ----

  /** The goroutine at pc has ended, or serves a listener nobody has cancelled. */
  predicate AtRest(sh: Shared, pc: PC) { pc.Done? || (pc.Serving? && pc.g !in sh.cancelled) }

  /** Some goroutine can take a step, and it is not one that fails. */
  ghost predicate Moves(s: State) {
    exists t, a: Action :: t in s.threads && !a.Fail? && Step(s, Act(t, a)).Some?
  }

  lemma MovesBy(s: State, t: Tid, a: Action)
    requires t in s.threads && !a.Fail?
    requires Local(s.sh, t, s.threads[t], a, s.threads[t].StopRead? && Selected(s, s.threads[t].n)).Some?
    ensures Moves(s)
  {
    assert Step(s, Act(t, a)).Some?;
  }

  /** The holder of mu is selecting. */
  lemma SelectMoves(s: State)
    requires Inv(s) && s.sh.mu.Some?
    ensures Moves(s)
  {
    var t := s.sh.mu.value;
    var pc := s.threads[t];
    assert PcOk(s.sh, t, pc);
    if n :| n in pc.sync.todo {
      MovesBy(s, t, Pick(n));
    } else {
      MovesBy(s, t, Go);
    }
  }

  /** Who waits for a cancelled listener to close need not wait for anybody else. */
  lemma ServeMoves(s: State, g: Gen)
    requires Inv(s) && More(s) && s.sh.mu == None && g in s.sh.cancelled && g !in s.sh.closed
    ensures Moves(s)
  {
    assert Serves(s, g);
    assert PcOk(s.sh, Serve(g), s.threads[Serve(g)]);
    MovesBy(s, Serve(g), Go);
  }

  /** The holder of syncMu, once it has selected. */
  lemma SyncMoves(s: State)
    requires Inv(s) && More(s) && s.sh.mu == None && s.sh.syncMu.Some?
    ensures Moves(s)
  {
    var t := s.sh.syncMu.value;
    var pc := s.threads[t];
    assert PcOk(s.sh, t, pc) && PcMore(s.sh, t, pc);
    if pc.InSync? && pc.sync.Awaiting? && pc.sync.g !in s.sh.closed {
      ServeMoves(s, pc.sync.g);
    } else if pc.InSync? && pc.sync.Unbinding? && pc.sync.todo != {} {
      var n :| n in pc.sync.todo;
      MovesBy(s, t, Pick(n));
    } else if pc.InSync? && pc.sync.Binding? && pc.sync.todo != {} {
      var n :| n in BindList(pc);
      MovesBy(s, t, Pick(n));
    } else {
      MovesBy(s, t, Go);
    }
  }

  /** Any other goroutine. */
  lemma OthersMove(s: State, t: Tid)
    requires Inv(s) && More(s) && s.sh.mu == None && s.sh.syncMu == None
    requires t in s.threads && !AtRest(s.sh, s.threads[t])
    ensures Moves(s)
  {
    var pc := s.threads[t];
    assert PcOk(s.sh, t, pc) && PcMore(s.sh, t, pc);
    if pc.StopAwait? && pc.g !in s.sh.closed {
      ServeMoves(s, pc.g);
    } else {
      MovesBy(s, t, Go);
    }
  }

  /** Progress: in every run, while some call, sync or cancelled Serve goroutine has yet to end, some goroutine
      can go on, whatever the others are waiting for. (Whether Up returns is the connection's matter.) */
  lemma NobodyIsStuck(r: Run, i: nat, t: Tid)
    requires Valid(r) && i < |r.states| && t in r.states[i].threads
    requires !AtRest(r.states[i].sh, r.states[i].threads[t])
    ensures Moves(r.states[i])
  {
    MoreAt(r, i);
    if r.states[i].sh.mu.Some? {
      SelectMoves(r.states[i]);
    } else if r.states[i].sh.syncMu.Some? {
      SyncMoves(r.states[i]);
    } else {
      OthersMove(r.states[i], t);
    }
  }
}
