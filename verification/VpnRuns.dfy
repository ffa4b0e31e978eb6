/** The theorems about the VPN client: safety over every run, that is every interleaving of any number
    of callers, exit goroutines and events of the outside world. */
module VpnRuns {
  import opened ConnTypes
  import opened VpnMachine
  import opened VpnInvariant
  import Runs

  type Run = Runs.Run<State, Event>

  ghost predicate Valid(r: Run) { Runs.IsRun(Step, r) && r.states[0] == INIT }

  /** Event i is goroutine t's own next step, taken from program point pc. */
  ghost predicate Takes(r: Run, i: nat, t: Tid, pc: PC) {
    && i < |r.events| && i < |r.states|
    && r.events[i] == Act(t, Go)
    && t in r.states[i].threads
    && r.states[i].threads[t].pc == pc
  }

  /** Event i is an Up clearing held. */
  ghost predicate UpClears(r: Run, i: nat) {
    exists t :: Takes(r, i, t, InGet(UpClear))
  }

  /** Event i is a Down setting held. */
  ghost predicate Holds(r: Run, i: nat) {
    exists t :: Takes(r, i, t, InDown(Hold))
  }

  /** Event i is the critical section of a Close. */
  ghost predicate Closes(r: Run, i: nat) {
    exists t :: Takes(r, i, t, InClose(CloseReset))
  }

  /** Event i records the failure of the start with context ctx. */
  ghost predicate Records(r: Run, i: nat, ctx: CtxId) {
    (exists t :: Takes(r, i, t, InStart(ctx, StartPC.Record))) && ctx !in r.states[i].sh.cancelled
  }

  /** Event i supersedes any recorded failure: a start succeeds, or a Down completes. */
  ghost predicate Supersedes(r: Run, i: nat) {
    || (exists t, ctx, p :: Takes(r, i, t, InStart(ctx, Adopting(p))))
    || (exists t, at :: Takes(r, i, t, InDown(DownReset(at))))
  }

  lemma {:induction false} InvAt(r: Run, i: nat)
    requires Valid(r) && i < |r.states|
    ensures Inv(r.states[i]) && r.states[i].sh.now == i
  {
    if i == 0 {
    } else {
      InvAt(r, i - 1);
      InvStep(r.states[i - 1], r.events[i - 1], r.states[i]);
      StepTicks(r.states[i - 1], r.events[i - 1], r.states[i]);
    }
  }

  // ---- what a step does to the history the theorems speak of ----

  /** The arrival time of a get before it starts a process or answers. */
  function Since(pc: PC): Option<nat> {
    match pc
    case InGet(Wait(since)) => Some(since)
    case InGet(CheckClosed(since)) => Some(since)
    case InGet(CheckProc(since)) => Some(since)
    case InGet(CheckManual(since)) => Some(since)
    case InGet(CheckShared(since)) => Some(since)
    case _ => None
  }

  /** The time at which a Down under way set held. */
  function HeldSince(pc: PC): Option<nat> {
    match pc
    case InDown(AbortLock(at)) => Some(at)
    case InDown(AbortCall(at)) => Some(at)
    case InDown(DownWait(at)) => Some(at)
    case InDown(DownLocked(at)) => Some(at)
    case InDown(DownAwait(at, _)) => Some(at)
    case InDown(DownReset(at)) => Some(at)
    case _ => None
  }

  predicate Superseding(pc: PC) {
    (pc.InStart? && pc.d.Adopting?) || (pc.InDown? && pc.down.DownReset?)
  }

  /** What a step leaves of held. */
  function HeldAfter(held: bool, go: bool, pc: PC): bool {
    if go && pc == InDown(Hold) then true else if go && pc == InGet(UpClear) then false else held
  }

  /** held, clearedAt and lastErr change only as the named steps change them; arrival times are only stamped. */
  predicate History(sh: Shared, go: bool, pc: PC, sh': Shared, pc': PC) {
    && sh'.now == sh.now
    && sh'.held == HeldAfter(sh.held, go, pc)
    && (sh'.clearedAt == sh.clearedAt || (go && pc == InGet(UpClear) && sh'.clearedAt == Some(sh.now)))
    && (sh'.lastErr == sh.lastErr
        || (go && Superseding(pc) && sh'.lastErr == None)
        || (go && pc.InStart? && pc.d == StartPC.Record && pc.ctx !in sh.cancelled &&
          sh'.lastErr == Some(Failure(pc.ctx, sh.now))))
    && (Since(pc').Some? ==> Since(pc') == Since(pc) || (go && pc == InGet(Stamp) && Since(pc') == Some(sh.now)))
    && (HeldSince(pc').Some? ==>
          HeldSince(pc') == HeldSince(pc) || (go && pc == InDown(Hold) && HeldSince(pc') == Some(sh.now)))
  }

  lemma HistoryGet(sh: Shared, t: Tid, th: Thread, g: GetPC, eff: Effect)
    requires th.pc == InGet(g) && GoGet(sh, t, th, g) == Some(eff)
    ensures History(sh, true, th.pc, eff.sh, eff.th.pc)
  {
  }

  lemma HistoryStart(sh: Shared, t: Tid, th: Thread, ctx: CtxId, d: StartPC, eff: Effect)
    requires th.pc == InStart(ctx, d) && GoStart(sh, t, th, ctx, d) == Some(eff)
    ensures History(sh, true, th.pc, eff.sh, eff.th.pc)
  {
  }

  lemma HistoryDown(sh: Shared, t: Tid, th: Thread, down: DownPC, eff: Effect)
    requires th.pc == InDown(down) && GoDown(sh, t, th, down) == Some(eff)
    ensures History(sh, true, th.pc, eff.sh, eff.th.pc)
  {
  }

  lemma HistoryExit(sh: Shared, th: Thread, p: ProcId, exit: ExitPC, eff: Effect)
    requires th.pc == InExit(p, exit) && GoExit(sh, th, p, exit) == Some(eff)
    ensures History(sh, true, th.pc, eff.sh, eff.th.pc)
  {
  }

  lemma HistoryClose(sh: Shared, t: Tid, th: Thread, close: ClosePC, eff: Effect)
    requires th.pc == InClose(close) && GoClose(sh, t, th, close) == Some(eff)
    ensures History(sh, true, th.pc, eff.sh, eff.th.pc)
  {
  }

  lemma HistoryDecided(sh: Shared, th: Thread, a: Action, eff: Effect)
    requires Decided(sh, th, a) == Some(eff)
    ensures History(sh, false, th.pc, eff.sh, eff.th.pc)
  {
  }

  lemma HistoryLocal(sh: Shared, t: Tid, th: Thread, a: Action, eff: Effect)
    requires Local(sh, t, th, a) == Some(eff)
    ensures History(sh, a.Go?, th.pc, eff.sh, eff.th.pc)
  {
    if a.Go? {
      match th.pc
      case InGet(g) => HistoryGet(sh, t, th, g, eff);
      case InStart(ctx, d) => HistoryStart(sh, t, th, ctx, d, eff);
      case InDown(down) => HistoryDown(sh, t, th, down, eff);
      case InClose(close) => HistoryClose(sh, t, th, close, eff);
      case InExit(p, exit) => HistoryExit(sh, th, p, exit, eff);
      case _ => assert false;
    } else {
      HistoryDecided(sh, th, a, eff);
    }
  }

  lemma StepTicks(s: State, e: Event, s': State)
    requires Step(s, e) == Some(s')
    ensures s'.sh.now == s.sh.now + 1
    ensures !e.Act? ==>
      s'.sh.clearedAt == s.sh.clearedAt && s'.sh.lastErr == s.sh.lastErr && s'.sh.held == s.sh.held
  {
    if e.Act? {
      HistoryLocal(s.sh, e.t, s.threads[e.t], e.a, Local(s.sh, e.t, s.threads[e.t], e.a).value);
    }
  }

  /** The goroutine that event i moves, if any, and what that does to its program point. */
  lemma StepHistory(r: Run, i: nat)
    requires Valid(r) && i < |r.events|
    ensures r.states[i].sh.now == i && Inv(r.states[i])
    ensures
      var s, s', e := r.states[i], r.states[i + 1], r.events[i];
      && s'.sh.held == (Holds(r, i) || (s.sh.held && !UpClears(r, i)))
      && (s'.sh.clearedAt == s.sh.clearedAt || (UpClears(r, i) && s'.sh.clearedAt == Some(i)))
      && (s'.sh.lastErr == s.sh.lastErr
          || (Supersedes(r, i) && s'.sh.lastErr == None)
          || (s'.sh.lastErr.Some? && s'.sh.lastErr.value.at == i && Records(r, i, s'.sh.lastErr.value.ctx)))
  {
    InvAt(r, i);
    var s, s', e := r.states[i], r.states[i + 1], r.events[i];
    assert Step(s, e) == Some(s');
    StepTicks(s, e, s');
    if e.Act? {
      var pc := s.threads[e.t].pc;
      HistoryLocal(s.sh, e.t, s.threads[e.t], e.a, Local(s.sh, e.t, s.threads[e.t], e.a).value);
      if e.a.Go? {
        assert Takes(r, i, e.t, pc);
        if pc.InStart? {
          assert Takes(r, i, e.t, InStart(pc.ctx, pc.d));
        }
        if Superseding(pc) && pc.InStart? {
          assert Takes(r, i, e.t, InStart(pc.ctx, Adopting(pc.d.p)));
        }
        if Superseding(pc) && pc.InDown? {
          assert Takes(r, i, e.t, InDown(DownReset(pc.down.at)));
        }
      }
    }
  }

  /** A get's arrival time and a Down's hold time are only ever taken from the clock, at their first step. */
  lemma PcHistory(r: Run, i: nat, t: Tid)
    requires Valid(r) && i < |r.events| && t in r.states[i + 1].threads
    ensures
      var before := if t in r.states[i].threads then r.states[i].threads[t].pc else Done(Nothing);
      var after := r.states[i + 1].threads[t].pc;
      && (Since(after).Some? ==>
            Since(after) == Since(before) || (Takes(r, i, t, InGet(Stamp)) && Since(after) == Some(i)))
      && (HeldSince(after).Some? ==>
            HeldSince(after) == HeldSince(before) || (Takes(r, i, t, InDown(Hold)) && HeldSince(after) == Some(i)))
  {
    InvAt(r, i);
    var s, e, s' := r.states[i], r.events[i], r.states[i + 1];
    assert Step(s, e) == Some(s');
    if e.Act? && e.t == t {
      var eff := Local(s.sh, t, s.threads[t], e.a).value;
      HistoryLocal(s.sh, t, s.threads[t], e.a, eff);
      if eff.spawn.Some? {
        SpawnFresh(s, t, e.a, eff);
      }
    }
  }

  /** clearedAt is the time of the last Up. */
  lemma {:induction false} ClearedIsUp(r: Run, i: nat)
    requires Valid(r) && i < |r.states| && r.states[i].sh.clearedAt.Some?
    ensures r.states[i].sh.clearedAt.value < i && UpClears(r, r.states[i].sh.clearedAt.value)
  {
    if i > 0 {
      StepHistory(r, i - 1);
      if r.states[i - 1].sh.clearedAt == r.states[i].sh.clearedAt {
        ClearedIsUp(r, i - 1);
      }
    }
  }

  /** A Down that has finished its abort section and waits on mu, while another goroutine is inside start:
      that start is already cancelled, or some Up cleared held after this Down set it. */
  lemma DownAbortsStart(r: Run, i: nat, d: Tid, at: nat, h: Tid, ctx: CtxId, point: StartPC)
    requires Valid(r) && i < |r.states|
    requires d in r.states[i].threads && r.states[i].threads[d].pc == InDown(DownWait(at))
    requires h in r.states[i].threads && r.states[i].threads[h].pc == InStart(ctx, point) &&
      (point.Preparing? || point.Starting? || point.Awaiting?)
    ensures ctx in r.states[i].sh.cancelled || exists k :: at < k < i && UpClears(r, k)
  {
    InvAt(r, i);
    var s := r.states[i];
    assert ThreadOk(s.sh, d, s.threads[d]) && ThreadOk(s.sh, h, s.threads[h]);
    if ctx !in s.sh.cancelled {
      ClearedIsUp(r, i);
      assert at < s.sh.clearedAt.value < i;
    }
  }

  /** The time a Down carries is the time at which it set held. */
  lemma {:induction false} HeldIsDown(r: Run, i: nat, d: Tid)
    requires Valid(r) && i < |r.states| && d in r.states[i].threads && HeldSince(r.states[i].threads[d].pc).Some?
    ensures HeldSince(r.states[i].threads[d].pc).value < i
    ensures Takes(r, HeldSince(r.states[i].threads[d].pc).value, d, InDown(Hold))
  {
    assert i > 0;
    PcHistory(r, i - 1, d);
    if d in r.states[i - 1].threads &&
      HeldSince(r.states[i - 1].threads[d].pc) == HeldSince(r.states[i].threads[d].pc) {
      HeldIsDown(r, i - 1, d);
    }
  }

  /** abort is set exactly while the holder of mu is between its two setAbort calls, and is then its own. */
  lemma AbortWindow(r: Run, i: nat)
    requires Valid(r) && i < |r.states|
    ensures
      var s := r.states[i];
      s.sh.abort.Some? <==>
        && s.sh.mu.Some? && s.sh.mu.value in s.threads
        && var pc := s.threads[s.sh.mu.value].pc;
           pc.InStart? && !pc.d.PubLock? && !pc.d.PubCheck? && !pc.d.PubWrite?
    ensures var s := r.states[i]; s.sh.abort.Some? ==> s.sh.abort == Some(s.threads[s.sh.mu.value].pc.ctx)
  {
    InvAt(r, i);
    var s := r.states[i];
    if s.sh.mu.Some? {
      assert ThreadOk(s.sh, s.sh.mu.value, s.threads[s.sh.mu.value]);
    }
  }

  // ---- a Down is durable ----

  /** No get will start a process. */
  predicate Barred(sh: Shared) { sh.held || sh.closed }

  predicate DownSh(sh: Shared) {
    && Barred(sh) && sh.proc == None && sh.undone == {} && sh.running == {}
    && sh.state == ConnUnknown && sh.lastErr == None
  }

  /** How a get may end while the client is held down: a Close that has begun shows. */
  predicate Refused(sh: Shared, res: Result) {
    res == ErrDisconnected || (res == ErrClosed && sh.closed)
  }

  predicate DownPc(sh: Shared, pc: PC) {
    match pc
    case InStart(_, d) => sh.held && (d.PubLock? || d.PubCheck?)
    case InGet(CheckProc(_)) => sh.held
    case InGet(CheckManual(_)) => sh.held
    case InGet(CheckShared(_)) => sh.held
    case InGet(Unlock(res)) => Refused(sh, res)
    case InExit(_, _) => false
    case _ => true
  }

  /** No process exists, no exit goroutine has yet to publish, and no get can end but refused. */
  ghost predicate IsDown(s: State) {
    DownSh(s.sh) && forall t :: t in s.threads ==> DownPc(s.sh, s.threads[t].pc)
  }

  lemma DownStays(s: State, e: Event, s': State)
    requires IsDown(s) && Step(s, e) == Some(s')
    requires e.Act? && e.a.Go? ==> s.threads[e.t].pc != InGet(UpClear) && s.threads[e.t].pc != InClose(CloseReset)
    ensures IsDown(s')
  {
    if e.Act? {
      DownLocal(s.sh, e.t, s.threads[e.t], e.a, Local(s.sh, e.t, s.threads[e.t], e.a).value);
    }
  }

  lemma DownLocal(sh: Shared, t: Tid, th: Thread, a: Action, eff: Effect)
    requires DownSh(sh) && DownPc(sh, th.pc) && Local(sh, t, th, a) == Some(eff)
    requires a.Go? ==> th.pc != InGet(UpClear) && th.pc != InClose(CloseReset)
    ensures DownSh(eff.sh) && DownPc(eff.sh, eff.th.pc) && eff.spawn == None
    ensures (sh.closed ==> eff.sh.closed) && (sh.held ==> eff.sh.held)
  {
    if a.Go? {
      match th.pc
      case InGet(g) => assert GoGet(sh, t, th, g) == Some(eff);
      case InStart(ctx, d) => assert GoStart(sh, t, th, ctx, d) == Some(eff);
      case InDown(down) => assert GoDown(sh, t, th, down) == Some(eff);
      case InClose(close) => assert GoClose(sh, t, th, close) == Some(eff);
      case _ => assert false;
    }
  }

  /** Of the stores to held before event i, the last is a Down's. */
  ghost predicate HoldsLast(r: Run, i: nat) {
    exists j: nat :: j < i && Holds(r, j) && forall k :: j < k < i ==> !UpClears(r, k)
  }

  lemma HoldsGrows(r: Run, i: nat)
    ensures HoldsLast(r, i + 1) <==> Holds(r, i) || (HoldsLast(r, i) && !UpClears(r, i))
  {
    if HoldsLast(r, i) && !UpClears(r, i) {
      var j: nat :| j < i && Holds(r, j) && forall k :: j < k < i ==> !UpClears(r, k);
      assert forall k :: j < k < i + 1 ==> !UpClears(r, k);
    }
  }

  /** held is set exactly if the last store to it was a Down's. */
  lemma {:induction false} HeldIsLastStore(r: Run, i: nat)
    requires Valid(r) && i < |r.states|
    ensures r.states[i].sh.held <==> HoldsLast(r, i)
  {
    if i > 0 {
      HeldIsLastStore(r, i - 1);
      StepHistory(r, i - 1);
      HoldsGrows(r, i - 1);
    }
  }

  /** Whatever held is, a Down leaves nothing running, no exit goroutine about, no failure recorded, and no
      get past its checks. The client is down, from then on, if held is set, or the client closed. */
  lemma DownBegins(r: Run, d: Tid, at: nat, b: nat)
    requires Valid(r) && Takes(r, b, d, InDown(DownReset(at)))
    ensures IsDown(r.states[b + 1]) <==> Barred(r.states[b].sh)
    ensures
      var s := r.states[b + 1];
      && s.sh == r.states[b].sh.(mu := None, proc := None, lastErr := None, state := ConnUnknown, now := b + 1)
      && s.sh.running == {} && s.sh.undone == {}
      && forall t :: t in s.threads ==> DownPc(s.sh.(held := true), s.threads[t].pc) && !AtGate(s.threads[t].pc)
  {
    InvAt(r, b);
    var s := r.states[b];
    assert Step(s, r.events[b]) == Some(r.states[b + 1]);
    assert ThreadOk(s.sh, d, s.threads[d]);
    var s' := r.states[b + 1];
    forall t | t in s.threads ensures DownPc(s'.sh.(held := true), s'.threads[t].pc) && !AtGate(s'.threads[t].pc) {
      assert ThreadOk(s.sh, t, s.threads[t]);
    }
  }

  /** A get holds mu at pc, or a start. */
  predicate AtGate(pc: PC) {
    match pc
    case InStart(_, _) => true
    case InGet(UpClear) => false
    case InGet(Stamp) => false
    case InGet(Wait(_)) => false
    case InGet(_) => true
    case _ => false
  }

  /** Event b is the end of Down d's critical section, with held set or the client closed, and there is no Up
      and no Close from there to i. */
  ghost predicate HeldDown(r: Run, d: Tid, at: nat, b: nat, i: nat) {
    && b < i < |r.states|
    && Takes(r, b, d, InDown(DownReset(at)))
    && Barred(r.states[b].sh)
    && forall k :: b < k < i ==> !UpClears(r, k) && !Closes(r, k)
  }

  /** Until the next Up or Close, no process exists, State stays ConnUnknown although exit goroutines
      publish without mu, and no get gets past the check of held in setAbort. */
  lemma {:induction false} DownIsDurable(r: Run, d: Tid, at: nat, b: nat, i: nat)
    requires Valid(r) && HeldDown(r, d, at, b, i)
    ensures IsDown(r.states[i])
    ensures r.states[i].sh.running == {} && r.states[i].sh.undone == {} && r.states[i].sh.proc == None
    ensures r.states[i].sh.state == ConnUnknown
    decreases i
  {
    if i == b + 1 {
      DownBegins(r, d, at, b);
    } else {
      var s, e := r.states[i - 1], r.events[i - 1];
      DownIsDurable(r, d, at, b, i - 1);
      assert !UpClears(r, i - 1) && !Closes(r, i - 1);
      assert Step(s, e) == Some(r.states[i]);
      if e.Act? && e.a.Go? {
        assert Takes(r, i - 1, e.t, s.threads[e.t].pc);
      }
      DownStays(s, e, r.states[i]);
    }
  }

  /** Every get, of any goroutine, that ends while the client is held down returns ErrDisconnected, or
      the error of a Close that has begun. */
  lemma DownRefusesGets(r: Run, d: Tid, at: nat, b: nat, i: nat, t: Tid, res: Result)
    requires Valid(r) && HeldDown(r, d, at, b, i)
    requires Takes(r, i, t, InGet(Unlock(res)))
    ensures Refused(r.states[i].sh, res)
  {
    DownIsDurable(r, d, at, b, i);
  }

  // ---- one process ----

  /** The one process that may run: proc, or the one the holder of mu is starting. */
  ghost predicate Current(s: State, p: ProcId) {
    || s.sh.proc == Some(p)
    || (&& s.sh.mu.Some? && s.sh.mu.value in s.threads
        && var pc := s.threads[s.sh.mu.value].pc;
           pc.InStart? && (pc.d == Starting(p) || pc.d == Awaiting(p) || pc.d == Adopting(p)))
  }

  lemma OneProcess(r: Run, i: nat, x: ProcId, y: ProcId)
    requires Valid(r) && i < |r.states| && x in r.states[i].sh.running && y in r.states[i].sh.running
    ensures x == y && Current(r.states[i], x)
  {
    InvAt(r, i);
    var s := r.states[i];
    if s.sh.mu.Some? {
      assert ThreadOk(s.sh, s.sh.mu.value, s.threads[s.sh.mu.value]);
    }
  }

  /** A start that fails, and a Down or Close that leaves its critical section, leave no process behind
      and no exit goroutine that has yet to publish a state. */
  lemma NoProcessLeftBehind(r: Run, i: nat, t: Tid)
    requires Valid(r) && i < |r.states| && t in r.states[i].threads
    requires
      var pc := r.states[i].threads[t].pc;
      || (pc.InStart? && (pc.d.Failed? || pc.d.Record?))
      || (pc.InDown? && pc.down.DownReset?)
      || (pc.InClose? && pc.close.CloseReset?)
    ensures r.states[i].sh.running == {}
    ensures forall p, exit :: Exit(p) in r.states[i].threads ==> r.states[i].threads[Exit(p)].pc != InExit(p, exit)
  {
    InvAt(r, i);
    var s := r.states[i];
    assert ThreadOk(s.sh, t, s.threads[t]);
    forall p, exit | Exit(p) in s.threads ensures s.threads[Exit(p)].pc != InExit(p, exit) {
      assert ThreadOk(s.sh, Exit(p), s.threads[Exit(p)]);
    }
  }

  // ---- failed starts are shared, never stale ----

  /** The failure recorded by event j still stands before event k. */
  ghost predicate Stands(r: Run, j: nat, ctx: CtxId, k: nat) {
    j < k && Records(r, j, ctx) && forall m :: j < m < k ==> !Supersedes(r, m)
  }

  lemma StandsOn(r: Run, j: nat, ctx: CtxId, k: nat)
    requires Stands(r, j, ctx, k) && !Supersedes(r, k)
    ensures Stands(r, j, ctx, k + 1)
  {
  }

  lemma NotSuperseded(r: Run, i: nat)
    requires Valid(r) && i < |r.events| && r.states[i + 1].sh.lastErr.Some?
    ensures !Supersedes(r, i)
  {
    assert Step(r.states[i], r.events[i]) == Some(r.states[i + 1]);
  }

  lemma RecordsRecords(r: Run, i: nat, ctx: CtxId)
    requires Valid(r) && i < |r.events| && Records(r, i, ctx)
    ensures r.states[i + 1].sh.lastErr == Some(Failure(ctx, i))
  {
    InvAt(r, i);
    assert Step(r.states[i], r.events[i]) == Some(r.states[i + 1]);
  }

  /** lastErr is a failure that stands. */
  lemma {:induction false} LastErrStands(r: Run, k: nat)
    requires Valid(r) && k < |r.states| && r.states[k].sh.lastErr.Some?
    ensures var f := r.states[k].sh.lastErr.value; Stands(r, f.at, f.ctx, k)
  {
    if k > 0 {
      var f := r.states[k].sh.lastErr.value;
      StepHistory(r, k - 1);
      NotSuperseded(r, k - 1);
      if r.states[k - 1].sh.lastErr == r.states[k].sh.lastErr {
        LastErrStands(r, k - 1);
        StandsOn(r, f.at, f.ctx, k - 1);
      } else {
        assert f.at == k - 1 && Records(r, k - 1, f.ctx);
      }
    }
  }

  /** A failure that stands is in lastErr, unless a later one took its place. */
  lemma {:induction false} StandingIsLastErr(r: Run, j: nat, ctx: CtxId, k: nat)
    requires Valid(r) && k < |r.states| && Stands(r, j, ctx, k)
    ensures r.states[k].sh.lastErr.Some? && r.states[k].sh.lastErr.value.at >= j
    decreases k
  {
    if k == j + 1 {
      RecordsRecords(r, j, ctx);
    } else {
      StandingIsLastErr(r, j, ctx, k - 1);
      StepHistory(r, k - 1);
    }
  }

  /** The arrival time a get carries is the time at which it arrived. */
  lemma {:induction false} SinceIsArrival(r: Run, i: nat, t: Tid)
    requires Valid(r) && i < |r.states| && t in r.states[i].threads && Since(r.states[i].threads[t].pc).Some?
    ensures Since(r.states[i].threads[t].pc).value < i
    ensures Takes(r, Since(r.states[i].threads[t].pc).value, t, InGet(Stamp))
  {
    assert i > 0;
    PcHistory(r, i - 1, t);
    if t in r.states[i - 1].threads && Since(r.states[i - 1].threads[t].pc) == Since(r.states[i].threads[t].pc) {
      SinceIsArrival(r, i - 1, t);
    }
  }

  /** A get that arrived at since goes on to start a process exactly if no uncancelled failure recorded after its
      arrival still stands; otherwise it returns the error of such a failure. */
  lemma FailuresAreShared(r: Run, k: nat, t: Tid, since: nat)
    requires Valid(r) && Takes(r, k, t, InGet(CheckShared(since)))
    ensures Takes(r, since, t, InGet(Stamp))
    ensures t in r.states[k + 1].threads
    ensures
      var pc := r.states[k + 1].threads[t].pc;
      if exists j, ctx :: since < j && Stands(r, j, ctx, k) then
        exists j, ctx :: since < j && Stands(r, j, ctx, k) && pc == InGet(Unlock(StartError(ctx)))
      else pc.InStart? && pc.d.PubLock?
  {
    SinceIsArrival(r, k, t);
    var s := r.states[k];
    assert Step(s, r.events[k]) == Some(r.states[k + 1]);
    if j, ctx :| since < j && Stands(r, j, ctx, k) {
      StandingIsLastErr(r, j, ctx, k);
    }
    if Answers(s.sh.lastErr, since) {
      LastErrStands(r, k);
      assert Stands(r, s.sh.lastErr.value.at, s.sh.lastErr.value.ctx, k);
    }
  }
}
