/** What State of the VPN client shows, over every run: it is written under mu by gets, Downs and Closes, and
    without mu by the goroutines that wait for a process to exit. */
module VpnState {
  import opened ConnTypes
  import opened VpnMachine
  import opened VpnInvariant
  import opened VpnRuns
  import VpnGets
  import Runs

  // ---- who writes State ----

  /** What the next step from pc makes of State, if anything. */
  function Writes(sh: Shared, pc: PC): Option<ConnState> {
    match pc
    case InGet(CheckProc(_)) => if VpnGets.Alive(sh) then Some(ConnConnected) else None
    case InStart(_, Announce) => Some(ConnConnecting)
    case InStart(_, Adopting(_)) => Some(ConnConnected)
    case InStart(_, Failed) => Some(ConnDisconnected)
    case InDown(DownReset(_)) => Some(ConnUnknown)
    case InClose(CloseReset) => Some(ConnDisconnected)
    case InExit(_, Publish) => Some(ConnDisconnected)
    case _ => None
  }

  predicate WritesSo(sh: Shared, pc: PC, a: Action, sh': Shared) {
    sh'.state == if a.Go? && Writes(sh, pc).Some? then Writes(sh, pc).value else sh.state
  }

  lemma WritesGet(sh: Shared, t: Tid, th: Thread, g: GetPC, eff: Effect)
    requires th.pc == InGet(g) && GoGet(sh, t, th, g) == Some(eff)
    ensures WritesSo(sh, th.pc, Go, eff.sh)
  {
  }

  lemma WritesStart(sh: Shared, t: Tid, th: Thread, ctx: CtxId, d: StartPC, eff: Effect)
    requires th.pc == InStart(ctx, d) && GoStart(sh, t, th, ctx, d) == Some(eff)
    ensures WritesSo(sh, th.pc, Go, eff.sh)
  {
  }

  lemma WritesDown(sh: Shared, t: Tid, th: Thread, down: DownPC, eff: Effect)
    requires th.pc == InDown(down) && GoDown(sh, t, th, down) == Some(eff)
    ensures WritesSo(sh, th.pc, Go, eff.sh)
  {
  }

  lemma WritesDecided(sh: Shared, th: Thread, a: Action, eff: Effect)
    requires Decided(sh, th, a) == Some(eff)
    ensures WritesSo(sh, th.pc, a, eff.sh)
  {
  }

  lemma WritesLocal(sh: Shared, t: Tid, th: Thread, a: Action, eff: Effect)
    requires Local(sh, t, th, a) == Some(eff)
    ensures WritesSo(sh, th.pc, a, eff.sh)
  {
    if !a.Go? {
      WritesDecided(sh, th, a, eff);
    } else {
      match th.pc
      case InGet(g) => WritesGet(sh, t, th, g, eff);
      case InStart(ctx, d) => WritesStart(sh, t, th, ctx, d, eff);
      case InDown(down) => WritesDown(sh, t, th, down, eff);
      case InClose(close) => assert GoClose(sh, t, th, close) == Some(eff);
      case InExit(p, exit) => assert GoExit(sh, th, p, exit) == Some(eff);
      case _ => assert false;
    }
  }

  /** What event e makes of State, if anything. */
  function WrittenBy(s: State, e: Event): Option<ConnState> {
    if e.Act? && e.a.Go? && e.t in s.threads then Writes(s.sh, s.threads[e.t].pc) else None
  }

  lemma WritesStep(s: State, e: Event, s': State)
    requires Step(s, e) == Some(s')
    ensures s'.sh.state == if WrittenBy(s, e).Some? then WrittenBy(s, e).value else s.sh.state
  {
    if e.Act? {
      WritesLocal(s.sh, e.t, s.threads[e.t], e.a, Local(s.sh, e.t, s.threads[e.t], e.a).value);
    }
  }

  ghost function WrittenAt(r: Run, k: nat): Option<ConnState>
    requires Valid(r) && k < |r.events|
  {
    WrittenBy(r.states[k], r.events[k])
  }

  /** Event k is the last before i that writes State. */
  ghost predicate LastWrite(r: Run, k: nat, i: nat)
    requires Valid(r)
  {
    k < i && i <= |r.events| && WrittenAt(r, k).Some? && forall m :: k < m < i ==> WrittenAt(r, m) == None
  }

  /** State is what the last of these steps has written. */
  lemma {:induction false} StateIsLastWritten(r: Run, i: nat)
    requires Valid(r) && i < |r.states|
    ensures
      || (r.states[i].sh.state == ConnUnknown && forall m :: 0 <= m < i ==> WrittenAt(r, m) == None)
      || (exists k: nat :: LastWrite(r, k, i) && WrittenAt(r, k) == Some(r.states[i].sh.state))
  {
    if i > 0 {
      StateIsLastWritten(r, i - 1);
      assert Step(r.states[i - 1], r.events[i - 1]) == Some(r.states[i]);
      WritesStep(r.states[i - 1], r.events[i - 1], r.states[i]);
      if WrittenAt(r, i - 1).Some? {
        assert LastWrite(r, i - 1, i);
      } else if k: nat :| LastWrite(r, k, i - 1) && WrittenAt(r, k) == Some(r.states[i - 1].sh.state) {
        assert LastWrite(r, k, i);
      }
    }
  }

  /** Event k is a get that adopts the process it has started, or finds the client's process not done. */
  ghost predicate Finds(r: Run, k: nat) {
    || (exists t, ctx, p :: Takes(r, k, t, InStart(ctx, Adopting(p))))
    || (exists t, since :: Takes(r, k, t, InGet(CheckProc(since))) && VpnGets.Alive(r.states[k].sh))
  }

  /** State is Connected exactly if the last of these steps was a get that adopted or found a process. */
  lemma ConnectedIsFound(r: Run, i: nat)
    requires Valid(r) && i < |r.states|
    ensures r.states[i].sh.state == ConnConnected <==> exists k: nat :: LastWrite(r, k, i) && Finds(r, k)
  {
    StateIsLastWritten(r, i);
    forall k: nat | LastWrite(r, k, i) ensures Finds(r, k) <==> WrittenAt(r, k) == Some(ConnConnected) {
      FindsConnects(r, k);
    }
    forall k: nat, m: nat | LastWrite(r, k, i) && LastWrite(r, m, i) ensures k == m {
    }
  }

  lemma FindsConnects(r: Run, k: nat)
    requires Valid(r) && k < |r.events| && WrittenAt(r, k).Some?
    ensures Finds(r, k) <==> WrittenAt(r, k) == Some(ConnConnected)
  {
    var t := r.events[k].t;
    var pc := r.states[k].threads[t].pc;
    assert Takes(r, k, t, pc);
    if pc.InStart? && pc.d.Adopting? {
      assert Takes(r, k, t, InStart(pc.ctx, Adopting(pc.d.p)));
    }
    if pc.InGet? && pc.g.CheckProc? {
      assert Takes(r, k, t, InGet(CheckProc(pc.g.since)));
    }
  }

  // ---- what it says about the process ----

  /** The exit goroutine of p has yet to publish that p has exited. */
  predicate Unpublished(s: State, p: ProcId) {
    && Exit(p) in s.threads
    && (s.threads[Exit(p)].pc == InExit(p, AwaitExit) || s.threads[Exit(p)].pc == InExit(p, Publish))
  }

  /** Where the holder of mu is. */
  function Holding(s: State): PC {
    if s.sh.mu.Some? && s.sh.mu.value in s.threads then s.threads[s.sh.mu.value].pc else Done(Nothing)
  }

  /** The states that may show while the holder of mu is at pc. */
  function Showing(pc: PC): set<ConnState> {
    if !pc.InStart? then {ConnDisconnected, ConnUnknown, ConnConnected}
    else
      match pc.d
      case Preparing => {ConnConnecting}
      case Starting(_) => {ConnConnecting, ConnDisconnected}
      case Awaiting(_) => {ConnConnecting, ConnDisconnected}
      case Adopting(_) => {ConnConnecting, ConnDisconnected}
      case Failed => {ConnConnecting, ConnDisconnected}
      case Record => {ConnDisconnected}
      case _ => {ConnDisconnected, ConnUnknown, ConnConnected}
  }

  /** The process that determines State as long as its exit is not published, and how. */
  function Backing(sh: Shared, pc: PC): Option<(ProcId, ConnState)> {
    if pc.InStart? && (pc.d.Starting? || pc.d.Awaiting? || pc.d.Adopting?) then Some((pc.d.p, ConnConnecting))
    else if sh.proc.Some? then Some((sh.proc.value, ConnConnected))
    else None
  }

  ghost predicate StateOk(s: State) {
    && s.sh.state in Showing(Holding(s))
    && (Backing(s.sh, Holding(s)).Some? ==>
          var (p, state) := Backing(s.sh, Holding(s)).value;
          Unpublished(s, p) ==> s.sh.state == state)
  }

  /** StateOk for the holder of mu at pc; unpublished says of the process behind State whether its exit is. */
  predicate Shown(sh: Shared, pc: PC, unpublished: bool) {
    && sh.state in Showing(pc)
    && (Backing(sh, pc).Some? && unpublished ==> sh.state == Backing(sh, pc).value.1)
  }

  /** Where a step of the holder of mu leaves mu held. */
  function After(sh: Shared, t: Tid, pc: PC): PC { if sh.mu == Some(t) then pc else Done(Nothing) }

  /** A step of the holder of mu: the process behind State stays the same, is a new one, or is none. */
  predicate HolderSo(sh: Shared, t: Tid, th: Thread, eff: Effect, unpublished: bool) {
    var pc := After(eff.sh, t, eff.th.pc);
    && Shown(eff.sh, pc, unpublished || eff.spawn.Some?)
    && (Backing(eff.sh, pc).Some? ==>
          || eff.spawn == Some(Backing(eff.sh, pc).value.0)
          || (Backing(sh, th.pc).Some? && Backing(sh, th.pc).value.0 == Backing(eff.sh, pc).value.0))
    && (eff.spawn.Some? ==> Backing(eff.sh, pc).Some? && Backing(eff.sh, pc).value.0 == eff.spawn.value)
    && eff.sh.mu in {None, Some(t)} && !eff.th.pc.InExit?
  }

  lemma HolderGet(sh: Shared, t: Tid, th: Thread, g: GetPC, eff: Effect, unpublished: bool)
    requires sh.mu == Some(t) && GetOk(sh, t, g) && th.pc == InGet(g) && GoGet(sh, t, th, g) == Some(eff)
    requires Shown(sh, th.pc, unpublished)
    ensures HolderSo(sh, t, th, eff, unpublished)
  {
  }

  lemma HolderStart(sh: Shared, t: Tid, th: Thread, ctx: CtxId, d: StartPC, eff: Effect, unpublished: bool)
    requires sh.mu == Some(t) && StartOk(sh, t, ctx, d) && th.pc == InStart(ctx, d)
    requires GoStart(sh, t, th, ctx, d) == Some(eff) && Shown(sh, th.pc, unpublished)
    ensures HolderSo(sh, t, th, eff, unpublished)
  {
  }

  lemma HolderDecided(sh: Shared, t: Tid, th: Thread, a: Action, eff: Effect, unpublished: bool)
    requires sh.mu == Some(t) && PcOk(sh, t, th.pc) && Decided(sh, th, a) == Some(eff) && Shown(sh, th.pc, unpublished)
    ensures HolderSo(sh, t, th, eff, unpublished)
  {
  }

  lemma HolderRest(sh: Shared, t: Tid, th: Thread, eff: Effect, unpublished: bool)
    requires sh.mu == Some(t) && PcOk(sh, t, th.pc) && (th.pc.InDown? || th.pc.InClose?)
    requires GoStep(sh, t, th) == Some(eff) && Shown(sh, th.pc, unpublished)
    ensures HolderSo(sh, t, th, eff, unpublished)
  {
  }

  lemma HolderLocal(sh: Shared, t: Tid, th: Thread, a: Action, eff: Effect, unpublished: bool)
    requires sh.mu == Some(t) && PcOk(sh, t, th.pc) && Local(sh, t, th, a) == Some(eff) && Shown(sh, th.pc, unpublished)
    ensures HolderSo(sh, t, th, eff, unpublished)
  {
    if !a.Go? {
      HolderDecided(sh, t, th, a, eff, unpublished);
    } else if th.pc.InGet? {
      HolderGet(sh, t, th, th.pc.g, eff, unpublished);
    } else if th.pc.InStart? {
      HolderStart(sh, t, th, th.pc.ctx, th.pc.d, eff, unpublished);
    } else {
      HolderRest(sh, t, th, eff, unpublished);
    }
  }

  /** The process behind State, if its exit is unpublished. */
  predicate BackedAlive(s: State, pc: PC) { Backing(s.sh, pc).Some? && Unpublished(s, Backing(s.sh, pc).value.0) }

  lemma HolderAct(s: State, t: Tid, a: Action, s': State)
    requires Inv(s) && StateOk(s) && Step(s, Act(t, a)) == Some(s') && s.sh.mu == Some(t)
    ensures StateOk(s')
  {
    var th, eff := s.threads[t], Local(s.sh, t, s.threads[t], a).value;
    assert ThreadOk(s.sh, t, th);
    HolderLocal(s.sh, t, th, a, eff, BackedAlive(s, th.pc));
    if eff.spawn.Some? {
      SpawnFresh(s, t, a, eff);
    }
    HolderLift(s, t, eff);
  }

  lemma HolderLift(s: State, t: Tid, eff: Effect)
    requires t in s.threads && s.sh.mu == Some(t)
    requires HolderSo(s.sh, t, s.threads[t], eff, BackedAlive(s, s.threads[t].pc))
    requires eff.sh.mu == Some(t) || eff.sh.mu == None
    requires eff.spawn.Some? ==> Exit(eff.spawn.value) !in s.threads
    ensures StateOk(State(Tick(eff.sh), Put(s.threads, t, eff)))
  {
    var s' := State(Tick(eff.sh), Put(s.threads, t, eff));
    var pc := After(eff.sh, t, eff.th.pc);
    assert Holding(s') == pc;
    if Backing(eff.sh, pc).Some? && eff.spawn == None {
      var p := Backing(eff.sh, pc).value.0;
      assert Exit(p) != t ==> (Exit(p) in s'.threads <==> Exit(p) in s.threads);
      assert Unpublished(s', p) ==> Unpublished(s, p);
    }
  }

  /** Any other goroutine: it may take mu, or publish an exit. */
  lemma OtherAct(s: State, t: Tid, a: Action, s': State)
    requires Inv(s) && StateOk(s) && Step(s, Act(t, a)) == Some(s') && s.sh.mu != Some(t)
    ensures StateOk(s')
  {
    var eff := Local(s.sh, t, s.threads[t], a).value;
    assert ThreadOk(s.sh, t, s.threads[t]);
    OtherLocal(s.sh, t, s.threads[t], a, eff);
    if s.sh.mu.Some? {
      assert ThreadOk(s.sh, s.sh.mu.value, s.threads[s.sh.mu.value]);
    }
    OtherLift(s, t, a, eff);
  }

  lemma OtherLift(s: State, t: Tid, a: Action, eff: Effect)
    requires t in s.threads && s.sh.mu != Some(t) && StateOk(s) && OtherSo(s.sh, t, s.threads[t], a, eff)
    requires SharedOk(s.sh)
    requires s.sh.mu.Some? ==> s.sh.mu.value in s.threads && PcOk(s.sh, s.sh.mu.value, s.threads[s.sh.mu.value].pc)
    requires s.threads[t].pc.InExit? ==> t == Exit(s.threads[t].pc.p)
    ensures StateOk(State(Tick(eff.sh), Put(s.threads, t, eff)))
  {
  }

  /** What a step of a goroutine that does not hold mu may do. */
  predicate OtherSo(sh: Shared, t: Tid, th: Thread, a: Action, eff: Effect) {
    && eff.spawn == None && eff.sh.proc == sh.proc
    && (eff.sh.mu == sh.mu || (sh.mu == None && eff.sh.mu == Some(t) && !eff.th.pc.InStart?))
    && (if a.Go? && th.pc.InExit? && th.pc.exit.Publish? then
          eff.sh.state == ConnDisconnected && th.pc.p in sh.undone && eff.th.pc == InExit(th.pc.p, CloseDone)
        else eff.sh.state == sh.state)
    && (eff.th.pc.InExit? && eff.th.pc.exit.Publish? ==> th.pc == InExit(eff.th.pc.p, AwaitExit))
    && (eff.th.pc.InExit? && eff.th.pc.exit.AwaitExit? ==> th.pc == eff.th.pc)
  }

  lemma OtherGet(sh: Shared, t: Tid, th: Thread, g: GetPC, eff: Effect)
    requires GetOk(sh, t, g) && th.pc == InGet(g) && GoGet(sh, t, th, g) == Some(eff) && sh.mu != Some(t)
    ensures OtherSo(sh, t, th, Go, eff)
  {
  }

  lemma OtherExit(sh: Shared, t: Tid, th: Thread, p: ProcId, exit: ExitPC, eff: Effect)
    requires ExitOk(sh, t, p, exit) && th.pc == InExit(p, exit) && GoExit(sh, th, p, exit) == Some(eff)
    ensures OtherSo(sh, t, th, Go, eff)
  {
  }

  lemma OtherLocal(sh: Shared, t: Tid, th: Thread, a: Action, eff: Effect)
    requires PcOk(sh, t, th.pc) && Local(sh, t, th, a) == Some(eff) && sh.mu != Some(t)
    ensures OtherSo(sh, t, th, a, eff)
  {
    match th.pc
    case InGet(g) => OtherGet(sh, t, th, g, eff);
    case InStart(_, _) => assert false;
    case InDown(down) => assert GoDown(sh, t, th, down) == Some(eff);
    case InClose(close) => assert GoClose(sh, t, th, close) == Some(eff);
    case InExit(p, exit) => OtherExit(sh, t, th, p, exit, eff);
    case Done(_) => assert false;
  }

  lemma StateStep(s: State, e: Event, s': State)
    requires Inv(s) && StateOk(s) && Step(s, e) == Some(s')
    ensures StateOk(s')
  {
    match e
    case Act(t, a) => Acts(s, t, a, s');
    case Begin(t, op) => Arrives(s, t, op, s');
    case Env(w) => WorldMoves(s, w, s');
  }

  lemma Acts(s: State, t: Tid, a: Action, s': State)
    requires Inv(s) && StateOk(s) && Step(s, Act(t, a)) == Some(s')
    ensures StateOk(s')
  {
    if s.sh.mu == Some(t) {
      HolderAct(s, t, a, s');
    } else {
      OtherAct(s, t, a, s');
    }
  }

  lemma WorldMoves(s: State, w: World, s': State)
    requires StateOk(s) && Step(s, Env(w)) == Some(s')
    ensures StateOk(s')
  {
    assert Holding(s') == Holding(s) && s'.threads == s.threads && s'.sh.state == s.sh.state;
  }

  lemma Arrives(s: State, t: Tid, op: Op, s': State)
    requires StateOk(s) && Step(s, Begin(t, op)) == Some(s') && (s.sh.mu.Some? ==> s.sh.mu.value in s.threads)
    ensures StateOk(s')
  {
    assert Holding(s') == Holding(s);
  }

  lemma StateOkAtStart()
    ensures StateOk(INIT)
  {
  }

  lemma {:induction false} StateOkAt(r: Run, i: nat)
    requires Valid(r) && i < |r.states|
    ensures StateOk(r.states[i])
  {
    if i == 0 {
      StateOkAtStart();
    } else {
      StateOkAt(r, i - 1);
      InvAt(r, i - 1);
      StateStep(r.states[i - 1], r.events[i - 1], r.states[i]);
    }
  }

  /** At every state of every run: State reports an attempt only inside a start, and always while that start
      prepares its process or waits for one whose exit is not published; and whenever mu is free, it is Connected
      if the client has a process whose exit is not published. */
  lemma StateMirrorsProcess(r: Run, i: nat)
    requires Valid(r) && i < |r.states|
    ensures
      var s := r.states[i];
      && s.sh.state != ConnAwaitingApproval
      && (s.sh.state == ConnConnecting ==> Holding(s).InStart?)
      && (Holding(s).InStart? && Holding(s).d.Preparing? ==> s.sh.state == ConnConnecting)
      && (forall p :: Holding(s).InStart? && Holding(s).d in {Starting(p), Awaiting(p)} && Unpublished(s, p) ==>
            s.sh.state == ConnConnecting)
      && (forall p :: s.sh.mu == None && s.sh.proc == Some(p) && Unpublished(s, p) ==> s.sh.state == ConnConnected)
  {
    StateOkAt(r, i);
    InvAt(r, i);
  }

  // ---- a run in which State is stale ----

  const FIRST := Call(0)
  const SECOND := Call(1)

  ghost predicate EndsIn(r: Run, s: State) { Valid(r) && r.states[|r.events|] == s }

  lemma More(r: Run, s: State, e: Event) returns (r': Run, s': State)
    requires EndsIn(r, s) && Step(s, e).Some?
    ensures s' == Step(s, e).value && EndsIn(r', s')
  {
    r' := Runs.Extend(Step, r, e);
    s' := Step(s, e).value;
  }

  /** One step of t's own, that makes sh of the shared state and leads to pc. */
  lemma Go1(r: Run, s: State, t: Tid, sh: Shared, pc: PC) returns (r': Run, s': State)
    requires EndsIn(r, s) && t in s.threads
    requires GoStep(s.sh, t, s.threads[t]) == Some(Effect(sh, s.threads[t].(pc := pc), None))
    ensures EndsIn(r', s') && s' == State(Tick(sh), s.threads[t := s.threads[t].(pc := pc)])
  {
    r', s' := More(r, s, Act(t, Go));
  }

  /** The first get comes to its start. */
  lemma FirstStarts() returns (r: Run, s: State)
    ensures EndsIn(r, s) && s.threads == map[FIRST := Thread(OpGet, InStart(0, PubLock))]
    ensures s.sh == INIT.sh.(mu := Some(FIRST), nextCtx := 1, now := s.sh.now)
  {
    r, s := Runs.Run([], [INIT]), INIT;
    r, s := More(r, s, Begin(FIRST, OpGet));
    r, s := Go1(r, s, FIRST, s.sh, InGet(Wait(1)));
    r, s := Go1(r, s, FIRST, s.sh.(mu := Some(FIRST)), InGet(CheckClosed(1)));
    r, s := Go1(r, s, FIRST, s.sh, InGet(CheckProc(1)));
    r, s := Go1(r, s, FIRST, s.sh, InGet(CheckManual(1)));
    r, s := Go1(r, s, FIRST, s.sh, InGet(CheckShared(1)));
    r, s := Go1(r, s, FIRST, s.sh.(nextCtx := 1), InStart(0, PubLock));
    assert s.threads == map[FIRST := Thread(OpGet, InStart(0, PubLock))];
  }

  /** It starts a process. */
  lemma FirstSpawns() returns (r: Run, s: State)
    ensures EndsIn(r, s)
    ensures s.threads ==
      map[FIRST := Thread(OpGet, InStart(0, Starting(0))), Exit(0) := Thread(OpExit, InExit(0, AwaitExit))]
    ensures s.sh == INIT.sh.(mu := Some(FIRST), abort := Some(0), state := ConnConnecting, running := {0},
                             undone := {0}, nextProc := 1, nextCtx := 1, now := s.sh.now)
  {
    r, s := FirstStarts();
    r, s := Go1(r, s, FIRST, s.sh.(abortMu := Some(FIRST)), InStart(0, PubCheck));
    r, s := Go1(r, s, FIRST, s.sh, InStart(0, PubWrite));
    r, s := Go1(r, s, FIRST, s.sh.(abort := Some(0), abortMu := None), InStart(0, Announce));
    r, s := Go1(r, s, FIRST, s.sh.(state := ConnConnecting), InStart(0, Preparing));
    r, s := More(r, s, Act(FIRST, Spawn));
    assert {} + {0} == {0};
  }

  /** The process becomes ready, and the get returns. */
  lemma FirstReturns() returns (r: Run, s: State)
    ensures EndsIn(r, s)
    ensures s.threads ==
      map[FIRST := Thread(OpGet, Done(Addr(0))), Exit(0) := Thread(OpExit, InExit(0, AwaitExit))]
    ensures s.sh == INIT.sh.(proc := Some(0), state := ConnConnected, running := {0}, undone := {0}, cancelled := {0},
                             nextProc := 1, nextCtx := 1, now := s.sh.now)
  {
    r, s := FirstSpawns();
    r, s := More(r, s, Act(FIRST, Ready));
    r, s := Go1(r, s, FIRST, s.sh.(proc := Some(0), state := ConnConnected), InStart(0, ClearLock(Addr(0))));
    r, s := Go1(r, s, FIRST, s.sh.(abortMu := Some(FIRST)), InStart(0, ClearWrite(Addr(0))));
    assert s.sh.cancelled + {0} == {0};
    r, s := Go1(r, s, FIRST, s.sh.(abort := None, abortMu := None, cancelled := {0}), InGet(Unlock(Addr(0))));
    r, s := Go1(r, s, FIRST, s.sh.(mu := None), Done(Addr(0)));
  }

  /** The process exits, and its exit goroutine publishes that, but has yet to close its done channel. */
  lemma ProcessExits() returns (r: Run, s: State)
    ensures EndsIn(r, s)
    ensures s.threads ==
      map[FIRST := Thread(OpGet, Done(Addr(0))), Exit(0) := Thread(OpExit, InExit(0, CloseDone))]
    ensures s.sh == INIT.sh.(proc := Some(0), state := ConnDisconnected, undone := {0}, cancelled := {0}, nextProc := 1,
                             nextCtx := 1, now := s.sh.now)
  {
    r, s := FirstReturns();
    r, s := More(r, s, Env(ProcExits(0)));
    assert s.sh.running == {};
    r, s := Go1(r, s, Exit(0), s.sh, InExit(0, Publish));
    r, s := Go1(r, s, Exit(0), s.sh.(state := ConnDisconnected), InExit(0, CloseDone));
  }

  /** A second get that comes in between hands out the process that has exited, and sets State to Connected. It
      stays so though no process runs, with no goroutine left that would change it. */
  lemma ConnectedIsStale() returns (r: Run, s: State)
    ensures EndsIn(r, s) && s.sh.state == ConnConnected && s.sh.running == {} && s.sh.undone == {}
    ensures forall t :: t in s.threads ==> s.threads[t].pc.Done?
    ensures SECOND in s.threads && s.threads[SECOND].pc == Done(Addr(0))
  {
    r, s := ProcessExits();
    var since := s.sh.now + 1;
    r, s := More(r, s, Begin(SECOND, OpGet));
    r, s := Go1(r, s, SECOND, s.sh, InGet(Wait(since)));
    r, s := Go1(r, s, SECOND, s.sh.(mu := Some(SECOND)), InGet(CheckClosed(since)));
    r, s := Go1(r, s, SECOND, s.sh, InGet(CheckProc(since)));
    r, s := Go1(r, s, SECOND, s.sh.(state := ConnConnected), InGet(Unlock(Addr(0))));
    r, s := Go1(r, s, SECOND, s.sh.(mu := None), Done(Addr(0)));
    r, s := Go1(r, s, Exit(0), s.sh.(undone := s.sh.undone - {0}), Done(Nothing));
  }
}
