/** What the methods of the VPN client do is what the protocol's steps do, those of the process and its exit
    goroutine included, when no other goroutine comes in between. */
module VpnSteps {
  import opened ConnTypes
  import opened VpnMachine
  import opened VpnClient
  import Runs

  ghost predicate Reaches(s: State, s': State) { Runs.Reaches(Step, s, s') }

  lemma Start(s: State)
    ensures Reaches(s, s)
  {
    Runs.Stays<State, Event>(Step, s);
  }

  /** One more event. */
  lemma On(from: State, s: State, e: Event) returns (s': State)
    requires Reaches(from, s) && Step(s, e).Some?
    ensures s' == Step(s, e).value && Reaches(from, s')
  {
    s' := Runs.Next(Step, from, s, e);
  }

  /** One more step of t's own, that makes sh of the shared state and leads to pc. */
  lemma Go1(from: State, s: State, t: Tid, sh: Shared, pc: PC) returns (s': State)
    requires Reaches(from, s) && t in s.threads
    requires GoStep(s.sh, t, s.threads[t]) == Some(Effect(sh, s.threads[t].(pc := pc), None))
    ensures s' == State(Tick(sh), s.threads[t := s.threads[t].(pc := pc)]) && Reaches(from, s')
  {
    s' := On(from, s, Act(t, Go));
  }

  /** Goroutine t runs operation op and is at pc. */
  predicate At(s: State, t: Tid, op: Op, pc: PC) { t in s.threads && s.threads[t] == Thread(op, pc) }

  /** sh, ticks later. */
  function Later(sh: Shared, ticks: nat): Shared { sh.(now := sh.now + ticks) }

  ghost predicate IsLater(sh': Shared, sh: Shared) { exists ticks: nat :: sh' == Later(sh, ticks) }

  /** sh' is sh but for the clock, and the time of a failure recorded meanwhile. */
  predicate IsButClock(sh': Shared, sh: Shared) {
    && sh' == sh.(now := sh'.now, lastErr := sh'.lastErr)
    && sh.now <= sh'.now
    && (sh'.lastErr == sh.lastErr
        || (&& sh'.lastErr.Some? && sh.lastErr == Some(Failure(sh'.lastErr.value.ctx, sh.now))
            && sh.now <= sh'.lastErr.value.at <= sh'.now))
  }

  // ---- the end of a process ----

  /** If p's done channel is open, its exit goroutine is at exit. */
  predicate ExitsFrom(s: State, p: ProcId, exit: ExitPC) {
    p in s.sh.undone ==> At(s, Exit(p), OpExit, InExit(p, exit))
  }

  /** If p's done channel is open, its exit goroutine will close it. */
  ghost predicate Attended(s: State, p: ProcId) { exists exit :: ExitsFrom(s, p, exit) }

  /** The exit goroutine of a process that has exited. The state it leaves is another goroutine's only if it
      has published its own already. */
  lemma ExitSteps(from: State, s: State, p: ProcId, exit: ExitPC) returns (s': State)
    requires Reaches(from, s) && p !in s.sh.running && At(s, Exit(p), OpExit, InExit(p, exit))
    ensures Reaches(from, s') && s'.threads == s.threads[Exit(p) := Thread(OpExit, Done(Nothing))]
    ensures
      var done := ExitEffect(s.sh, p);
      IsLater(s'.sh, if exit.CloseDone? then done.(state := s.sh.state) else done)
  {
    var t := Exit(p);
    s' := s;
    if exit.AwaitExit? {
      s' := Go1(from, s', t, s'.sh, InExit(p, Publish));
    }
    if !exit.CloseDone? {
      s' := Go1(from, s', t, s'.sh.(state := ConnDisconnected), InExit(p, CloseDone));
    }
    s' := Go1(from, s', t, s'.sh.(undone := s'.sh.undone - {p}), Done(Nothing));
    var done := ExitEffect(s.sh, p);
    assert s'.sh == Later(if exit.CloseDone? then done.(state := s.sh.state) else done, s'.sh.now - s.sh.now);
  }

  /** p exits, and its exit goroutine runs through. No other goroutine moves. */
  lemma ProcessEnds(from: State, s: State, p: ProcId, exit: ExitPC) returns (s': State)
    requires Reaches(from, s) && ExitsFrom(s, p, exit)
    ensures Reaches(from, s') && p !in s'.sh.undone
    ensures IsLater(s'.sh, StopEffect(s.sh, p).(state := s'.sh.state))
    ensures !exit.CloseDone? ==> IsLater(s'.sh, StopEffect(s.sh, p))
    ensures forall t :: t in s.threads && t != Exit(p) ==> t in s'.threads && s'.threads[t] == s.threads[t]
  {
    s' := On(from, s, Env(ProcExits(p)));
    if p in s.sh.undone {
      s' := ExitSteps(from, s', p, exit);
    }
    var ticks := s'.sh.now - s.sh.now;
    assert s'.sh == Later(StopEffect(s.sh, p).(state := s'.sh.state), ticks);
    assert !exit.CloseDone? ==> s'.sh == Later(StopEffect(s.sh, p), ticks);
  }

  // ---- Down ----

  lemma HoldSteps(from: State, s: State, t: Tid) returns (s': State)
    requires Reaches(from, s) && s.sh.mu == None && s.sh.abortMu == None && At(s, t, OpDown, InDown(Hold))
    ensures Reaches(from, s') && s'.sh == Later(HeldAndAborted(s.sh), 4).(mu := Some(t))
    ensures s'.threads == s.threads[t := Thread(OpDown, InDown(DownLocked(s.sh.now)))]
  {
    var at := s.sh.now;
    var s1 := Go1(from, s, t, s.sh.(held := true), InDown(AbortLock(at)));
    var s2 := Go1(from, s1, t, s1.sh.(abortMu := Some(t)), InDown(AbortCall(at)));
    var aborted := HeldAndAborted(s.sh).cancelled;
    var s3 := Go1(from, s2, t, s2.sh.(cancelled := aborted, abortMu := None), InDown(DownWait(at)));
    s' := Go1(from, s3, t, s3.sh.(mu := Some(t)), InDown(DownLocked(at)));
  }

  /** The wait of a Down or Close for its process. */
  lemma StopSteps(from: State, s: State, t: Tid, op: Op, await: PC, reset: PC, exit: ExitPC) returns (s': State)
    requires Reaches(from, s) && s.sh.proc.Some? && ExitsFrom(s, s.sh.proc.value, exit)
    requires t.Call? && At(s, t, op, await)
    requires
      || (op.OpDown? && exists at :: await == InDown(DownAwait(at, s.sh.proc.value)) && reset == InDown(DownReset(at)))
      || (op.OpClose? && await == InClose(CloseAwait(s.sh.proc.value)) && reset == InClose(CloseReset))
    ensures Reaches(from, s') && At(s', t, op, reset)
    ensures IsLater(s'.sh, StopEffect(s.sh, s.sh.proc.value).(state := s'.sh.state))
  {
    var p := s.sh.proc.value;
    var s1 := ProcessEnds(from, s, p, exit);
    s' := Go1(from, s1, t, s1.sh, reset);
    assert s'.sh == Later(StopEffect(s.sh, p).(state := s'.sh.state), s'.sh.now - s.sh.now);
  }

  /** The method Down does what a Down of the protocol and the exit goroutine it waits for do together,
      uninterrupted by others. */
  lemma DownIsItsSteps(s: State, t: Tid) returns (s': State)
    requires s.sh.mu == None && s.sh.abortMu == None && (s.sh.proc.Some? ==> Attended(s, s.sh.proc.value))
    requires t.Call? && At(s, t, OpDown, InDown(Hold))
    ensures Reaches(s, s') && At(s', t, OpDown, Done(Nothing)) && IsButClock(s'.sh, DownAlone(s.sh))
  {
    Start(s);
    var at := s.sh.now;
    var s1 := HoldSteps(s, s, t);
    var s2: State;
    if s.sh.proc.Some? {
      var p := s.sh.proc.value;
      var exit :| ExitsFrom(s, p, exit);
      s2 := Go1(s, s1, t, s1.sh, InDown(DownAwait(at, p)));
      s2 := StopSteps(s, s2, t, OpDown, InDown(DownAwait(at, p)), InDown(DownReset(at)), exit);
    } else {
      s2 := Go1(s, s1, t, s1.sh, InDown(DownReset(at)));
    }
    s' := Go1(s, s2, t, s2.sh.(proc := None, lastErr := None, state := ConnUnknown, mu := None), Done(Nothing));
  }

  // ---- Close ----

  /** The same for Close. */
  lemma CloseIsItsSteps(s: State, t: Tid) returns (s': State)
    requires s.sh.mu == None && (s.sh.proc.Some? ==> Attended(s, s.sh.proc.value))
    requires t.Call? && At(s, t, OpClose, InClose(Cancel))
    ensures Reaches(s, s') && At(s', t, OpClose, Done(Nothing)) && IsButClock(s'.sh, CloseAlone(s.sh))
  {
    Start(s);
    var s1 := Go1(s, s, t, s.sh.(closed := true), InClose(CloseWait));
    var s2 := Go1(s, s1, t, s1.sh.(mu := Some(t)), InClose(CloseLocked));
    if s.sh.proc.Some? {
      var p := s.sh.proc.value;
      var exit :| ExitsFrom(s, p, exit);
      s2 := Go1(s, s2, t, s2.sh, InClose(CloseAwait(p)));
      s2 := StopSteps(s, s2, t, OpClose, InClose(CloseAwait(p)), InClose(CloseReset), exit);
    } else {
      s2 := Go1(s, s2, t, s2.sh, InClose(CloseReset));
    }
    s' := Go1(s, s2, t, s2.sh.(proc := None, state := ConnDisconnected, mu := None), Done(Nothing));
  }

  // ---- get, to its own start ----

  lemma UnlockSteps(from: State, s: State, t: Tid, op: Op, r: Result) returns (s': State)
    requires Reaches(from, s) && At(s, t, op, InGet(Unlock(r)))
    ensures Reaches(from, s') && s' == State(Later(s.sh.(mu := None), 1), s.threads[t := Thread(op, Done(r))])
  {
    s' := Go1(from, s, t, s.sh.(mu := None), Done(r));
  }

  /** get up to the check of its process. */
  lemma LockSteps(from: State, s: State, t: Tid, op: Op, since: nat) returns (s': State)
    requires Reaches(from, s) && s.sh.mu == None && At(s, t, op, InGet(Wait(since)))
    ensures Reaches(from, s') && s'.sh == Later(s.sh, 2).(mu := Some(t))
    ensures s'.threads
      == s.threads[t := Thread(op, InGet(if s.sh.closed then Unlock(ErrClosed) else CheckProc(since)))]
  {
    var s1 := Go1(from, s, t, s.sh.(mu := Some(t)), InGet(CheckClosed(since)));
    s' := Go1(from, s1, t, s1.sh, InGet(if s.sh.closed then Unlock(ErrClosed) else CheckProc(since)));
  }

  /** get that ends at the check of the client, or reuses the process. */
  lemma EarlySteps(s: State, t: Tid, op: Op, since: nat, explicit: bool, plan: Plan) returns (s': State)
    requires PlanOk(plan) && s.sh.mu == None && At(s, t, op, InGet(Wait(since)))
    requires s.sh.closed || (s.sh.proc.Some? && s.sh.proc.value in s.sh.undone)
    ensures
      var (after, r) := GetAlone(s.sh, explicit, since, plan);
      Reaches(s, s') && At(s', t, op, Done(r)) && IsButClock(s'.sh, after)
  {
    Start(s);
    s' := LockSteps(s, s, t, op, since);
    if s.sh.closed {
      s' := UnlockSteps(s, s', t, op, ErrClosed);
    } else {
      var r := Addr(s.sh.proc.value);
      s' := Go1(s, s', t, s'.sh.(state := ConnConnected), InGet(Unlock(r)));
      s' := UnlockSteps(s, s', t, op, r);
    }
  }

  /** get up to the check of autoconnect. */
  lemma ProcSteps(from: State, s: State, t: Tid, op: Op, since: nat) returns (s': State)
    requires Reaches(from, s) && s.sh.mu == None && At(s, t, op, InGet(Wait(since)))
    requires !s.sh.closed && !(s.sh.proc.Some? && s.sh.proc.value in s.sh.undone)
    ensures Reaches(from, s') && s'.sh == Later(s.sh, 3).(mu := Some(t), proc := None)
    ensures s'.threads == s.threads[t := Thread(op, InGet(CheckManual(since)))]
  {
    s' := LockSteps(from, s, t, op, since);
    s' := Go1(from, s', t, s'.sh.(proc := None), InGet(CheckManual(since)));
  }

  /** get that autoconnect keeps from a start, or that a failed one has answered. */
  lemma AnsweredSteps(s: State, t: Tid, op: Op, since: nat, explicit: bool, plan: Plan) returns (s': State)
    requires PlanOk(plan) && s.sh.mu == None && At(s, t, op, InGet(Wait(since)))
    requires !s.sh.closed && !(s.sh.proc.Some? && s.sh.proc.value in s.sh.undone)
    requires (op.OpUp? <==> explicit) && ((!explicit && s.sh.manualOnly) || Answers(s.sh.lastErr, since))
    ensures
      var (after, r) := GetAlone(s.sh, explicit, since, plan);
      Reaches(s, s') && At(s', t, op, Done(r)) && IsButClock(s'.sh, after)
  {
    Start(s);
    s' := ProcSteps(s, s, t, op, since);
    if !explicit && s.sh.manualOnly {
      s' := Go1(s, s', t, s'.sh, InGet(Unlock(ErrDisconnected)));
      s' := UnlockSteps(s, s', t, op, ErrDisconnected);
    } else {
      var r := StartError(s.sh.lastErr.value.ctx);
      s' := Go1(s, s', t, s'.sh, InGet(CheckShared(since)));
      s' := Go1(s, s', t, s'.sh, InGet(Unlock(r)));
      s' := UnlockSteps(s, s', t, op, r);
    }
  }

  /** get up to its own start. */
  lemma GateSteps(from: State, s: State, t: Tid, op: Op, since: nat) returns (s': State)
    requires Reaches(from, s) && s.sh.mu == None && At(s, t, op, InGet(Wait(since)))
    requires !s.sh.closed && !(s.sh.proc.Some? && s.sh.proc.value in s.sh.undone)
    requires (op.OpUp? || !s.sh.manualOnly) && !Answers(s.sh.lastErr, since)
    ensures Reaches(from, s')
    ensures s'.sh == Later(s.sh, 5).(mu := Some(t), proc := None, nextCtx := s.sh.nextCtx + 1)
    ensures s'.threads == s.threads[t := Thread(op, InStart(s.sh.nextCtx, PubLock))]
  {
    s' := ProcSteps(from, s, t, op, since);
    s' := Go1(from, s', t, s'.sh, InGet(CheckShared(since)));
    s' := Go1(from, s', t, s'.sh.(nextCtx := s.sh.nextCtx + 1), InStart(s.sh.nextCtx, PubLock));
  }

  // ---- setAbort ----

  lemma RefusedSteps(from: State, s: State, t: Tid, op: Op, ctx: CtxId) returns (s': State)
    requires Reaches(from, s) && s.sh.mu == Some(t) && s.sh.abortMu == None && s.sh.held
    requires At(s, t, op, InStart(ctx, PubLock))
    ensures Reaches(from, s') && At(s', t, op, Done(ErrDisconnected))
    ensures s'.sh == Later(s.sh.(mu := None, cancelled := s.sh.cancelled + {ctx}), 3)
  {
    s' := Go1(from, s, t, s.sh.(abortMu := Some(t)), InStart(ctx, PubCheck));
    var refused := s'.sh.(abortMu := None, cancelled := s.sh.cancelled + {ctx});
    s' := Go1(from, s', t, refused, InGet(Unlock(ErrDisconnected)));
    s' := UnlockSteps(from, s', t, op, ErrDisconnected);
  }

  lemma PublishSteps(from: State, s: State, t: Tid, op: Op, ctx: CtxId) returns (s': State)
    requires Reaches(from, s) && s.sh.mu == Some(t) && s.sh.abortMu == None && !s.sh.held
    requires At(s, t, op, InStart(ctx, PubLock))
    ensures Reaches(from, s') && s'.sh == Later(s.sh.(abort := Some(ctx), state := ConnConnecting), 4)
    ensures s'.threads == s.threads[t := Thread(op, InStart(ctx, Preparing))]
  {
    s' := Go1(from, s, t, s.sh.(abortMu := Some(t)), InStart(ctx, PubCheck));
    s' := Go1(from, s', t, s'.sh, InStart(ctx, PubWrite));
    s' := Go1(from, s', t, s'.sh.(abort := Some(ctx), abortMu := None), InStart(ctx, Announce));
    s' := Go1(from, s', t, s'.sh.(state := ConnConnecting), InStart(ctx, Preparing));
  }

  /** The two deferred calls, and the return. */
  lemma ReturnSteps(from: State, s: State, t: Tid, op: Op, ctx: CtxId, r: Result) returns (s': State)
    requires Reaches(from, s) && s.sh.mu == Some(t) && s.sh.abortMu == None && At(s, t, op, InStart(ctx, ClearLock(r)))
    ensures Reaches(from, s') && At(s', t, op, Done(r))
    ensures s'.sh == Later(s.sh.(mu := None, abort := None, cancelled := s.sh.cancelled + {ctx}), 3)
  {
    s' := Go1(from, s, t, s.sh.(abortMu := Some(t)), InStart(ctx, ClearWrite(r)));
    var cleared := s'.sh.(abort := None, abortMu := None, cancelled := s.sh.cancelled + {ctx});
    s' := Go1(from, s', t, cleared, InGet(Unlock(r)));
    s' := UnlockSteps(from, s', t, op, r);
  }

  lemma SuccessSteps(from: State, s: State, t: Tid, op: Op, ctx: CtxId, p: ProcId) returns (s': State)
    requires Reaches(from, s) && s.sh.mu == Some(t) && s.sh.abortMu == None && At(s, t, op, InStart(ctx, Adopting(p)))
    ensures Reaches(from, s') && At(s', t, op, Done(Addr(p)))
    ensures IsButClock(s'.sh, Concluded(s.sh, ctx, Some(p)).0.(mu := None))
  {
    var adopted := s.sh.(proc := Some(p), lastErr := None, state := ConnConnected);
    s' := Go1(from, s, t, adopted, InStart(ctx, ClearLock(Addr(p))));
    s' := ReturnSteps(from, s', t, op, ctx, Addr(p));
  }

  lemma FailureSteps(from: State, s: State, t: Tid, op: Op, ctx: CtxId) returns (s': State)
    requires Reaches(from, s) && s.sh.mu == Some(t) && s.sh.abortMu == None && At(s, t, op, InStart(ctx, Failed))
    ensures Reaches(from, s') && At(s', t, op, Done(StartError(ctx)))
    ensures IsButClock(s'.sh, Concluded(s.sh, ctx, None).0.(mu := None))
  {
    var r := StartError(ctx);
    s' := Go1(from, s, t, s.sh.(state := ConnDisconnected), InStart(ctx, Record));
    var recorded := if ctx in s.sh.cancelled then s'.sh else s'.sh.(lastErr := Some(Failure(ctx, s'.sh.now)));
    s' := Go1(from, s', t, recorded, InStart(ctx, ClearLock(r)));
    s' := ReturnSteps(from, s', t, op, ctx, r);
  }

  // ---- start ----

  lemma NoProcessSteps(from: State, s: State, t: Tid, op: Op, ctx: CtxId, cancelled: bool) returns (s': State)
    requires Reaches(from, s) && At(s, t, op, InStart(ctx, Preparing))
    ensures Reaches(from, s') && At(s', t, op, InStart(ctx, Failed)) && IsLater(s'.sh, Ended(s.sh, ctx, cancelled))
  {
    s' := s;
    if cancelled {
      s' := On(from, s, Act(t, CallerCancel));
    }
    s' := On(from, s', Act(t, Fail));
    assert s'.sh == Later(Ended(s.sh, ctx, cancelled), if cancelled then 2 else 1);
  }

  /** start stops waiting for the tunnel, for whatever reason: its process has exited, or it gives up. */
  lemma GiveUpSteps(from: State, s: State, t: Tid, op: Op, ctx: CtxId, p: ProcId, end: Poll) returns (s': State)
    requires Reaches(from, s) && t.Call? && At(s, t, op, InStart(ctx, Starting(p)))
    ensures Reaches(from, s') && IsLater(s'.sh, Ended(s.sh, ctx, end.Cancelled?))
    ensures At(s', t, op, InStart(ctx, if end.Exited? then Starting(p) else Awaiting(p)))
    ensures forall u :: u in s.threads && u != t ==> u in s'.threads && s'.threads[u] == s.threads[u]
  {
    s' := s;
    if end.Cancelled? {
      s' := On(from, s, Act(t, CallerCancel));
    }
    if !end.Exited? {
      s' := On(from, s', Act(t, GiveUp));
    }
    assert s'.sh == Later(Ended(s.sh, ctx, end.Cancelled?), s'.sh.now - s.sh.now);
  }

  /** A start with a process that fails waits for its exit goroutine. */
  lemma FailedPollSteps(from: State, s: State, t: Tid, op: Op, ctx: CtxId, p: ProcId, end: Poll) returns (s': State)
    requires Reaches(from, s) && t.Call? && p in s.sh.undone && ExitsFrom(s, p, AwaitExit)
    requires At(s, t, op, InStart(ctx, Starting(p)))
    ensures Reaches(from, s') && At(s', t, op, InStart(ctx, Failed))
    ensures IsLater(s'.sh, StopEffect(Ended(s.sh, ctx, end.Cancelled?), p))
  {
    var s1 := GiveUpSteps(from, s, t, op, ctx, p, end);
    var s2 := ProcessEnds(from, s1, p, AwaitExit);
    s' := Go1(from, s2, t, s2.sh, InStart(ctx, Failed));
    var ended := Ended(s.sh, ctx, end.Cancelled?);
    var before: nat :| s1.sh == Later(ended, before);
    var ticks: nat :| s2.sh == Later(StopEffect(s1.sh, p), ticks);
    assert s'.sh == Later(StopEffect(ended, p), before + ticks + 1);
  }

  /** start, from its first step to where get takes over again. */
  lemma StartSteps(from: State, s: State, t: Tid, op: Op, ctx: CtxId, plan: Plan) returns (s': State)
    requires PlanOk(plan) && Reaches(from, s) && t.Call? && Exit(s.sh.nextProc) !in s.threads
    requires At(s, t, op, InStart(ctx, Preparing))
    ensures Reaches(from, s') && IsLater(s'.sh, StartEffect(s.sh, ctx, plan))
    ensures At(s', t, op, InStart(ctx, if Starts(plan) then Adopting(s.sh.nextProc) else Failed))
  {
    match plan
    case NoProcess(cancelled) =>
      s' := NoProcessSteps(from, s, t, op, ctx, cancelled);
    case Polls(poll, last) =>
      var p, end := s.sh.nextProc, FirstEnd(poll, last, 0);
      var s1 := On(from, s, Act(t, Spawn));
      assert s1.sh == Later(Spawned(s.sh), 1);
      if end.Ticked? {
        s' := On(from, s1, Act(t, Ready));
        assert s'.sh == Later(Spawned(s.sh), 2);
      } else {
        s' := FailedPollSteps(from, s1, t, op, ctx, p, end);
        var ticks: nat :| s'.sh == Later(StopEffect(Ended(s1.sh, ctx, end.Cancelled?), p), ticks);
        assert s'.sh == Later(StopEffect(Ended(Spawned(s.sh), ctx, end.Cancelled?), p), ticks + 1);
      }
  }

  // ---- get, as a whole ----

  /** late is sh at a later time, and under another holder of mu. */
  predicate Like(late: Shared, sh: Shared) { late == sh.(now := late.now, mu := late.mu) && sh.now <= late.now }

  /** What start does depends on neither. */
  lemma StartLike(late: Shared, sh: Shared, ctx: CtxId, plan: Plan)
    requires PlanOk(plan) && Like(late, sh)
    ensures Like(StartEffect(late, ctx, plan), StartEffect(sh, ctx, plan))
    ensures StartEffect(sh, ctx, plan).lastErr == sh.lastErr && StartEffect(sh, ctx, plan).now == sh.now
  {
    if plan.Polls? {
      var end := FirstEnd(plan.poll, plan.last, 0);
      var spawned, lateSpawned := Spawned(sh), Spawned(late);
      assert Like(lateSpawned, spawned);
      StopLike(Ended(lateSpawned, ctx, end.Cancelled?), Ended(spawned, ctx, end.Cancelled?), sh.nextProc);
    }
  }

  lemma StopLike(late: Shared, sh: Shared, p: ProcId)
    requires Like(late, sh)
    ensures Like(StopEffect(late, p), StopEffect(sh, p))
  {
  }

  /** The last failure is past, as in every run. */
  predicate FailurePast(sh: Shared) { sh.lastErr.Some? ==> sh.lastErr.value.at < sh.now }

  lemma ConcludedLike(late: Shared, sh: Shared, ctx: CtxId, p: Option<ProcId>, end: Shared)
    requires Like(late, sh) && FailurePast(sh) && IsButClock(end, Concluded(late, ctx, p).0.(mu := None))
    ensures IsButClock(end, Concluded(sh, ctx, p).0.(mu := None))
  {
  }

  /** get from where start returns. */
  lemma ConcludeSteps(from: State, s: State, t: Tid, op: Op, ctx: CtxId, p: Option<ProcId>) returns (s': State)
    requires Reaches(from, s) && s.sh.mu == Some(t) && s.sh.abortMu == None
    requires At(s, t, op, InStart(ctx, if p.Some? then Adopting(p.value) else Failed))
    ensures
      var (after, r) := Concluded(s.sh, ctx, p);
      Reaches(from, s') && At(s', t, op, Done(r)) && IsButClock(s'.sh, after.(mu := None))
  {
    if p.Some? {
      s' := SuccessSteps(from, s, t, op, ctx, p.value);
    } else {
      s' := FailureSteps(from, s, t, op, ctx);
    }
  }

  /** get from where it publishes its cancel function; base is the shared state when it arrived there, but
      for the clock and the holder of mu. */
  lemma LaunchSteps(from: State, s: State, base: Shared, t: Tid, op: Op, ctx: CtxId, plan: Plan) returns (s': State)
    requires PlanOk(plan) && Reaches(from, s) && t.Call? && Exit(s.sh.nextProc) !in s.threads
    requires s.sh.mu == Some(t) && s.sh.abortMu == None && !s.sh.held && At(s, t, op, InStart(ctx, PubLock))
    requires Like(s.sh, base) && FailurePast(base)
    ensures
      var (after, r) := Launched(base, ctx, plan);
      Reaches(from, s') && At(s', t, op, Done(r)) && IsButClock(s'.sh, after.(mu := None))
  {
    var begun := base.(abort := Some(ctx), state := ConnConnecting);
    var s1 := PublishSteps(from, s, t, op, ctx);
    var s2 := StartSteps(from, s1, t, op, ctx, plan);
    assert Like(s1.sh, begun);
    StartLike(s1.sh, begun, ctx, plan);
    assert Like(s2.sh, StartEffect(begun, ctx, plan));
    var p := if Starts(plan) then Some(base.nextProc) else None;
    s' := ConcludeSteps(from, s2, t, op, ctx, p);
    ConcludedLike(s2.sh, StartEffect(begun, ctx, plan), ctx, p, s'.sh);
  }

  /** The method Get does what a get of the protocol does, from where it waits for mu, together with the
      process it starts and the exit goroutine it waits for, uninterrupted by others. */
  lemma GetIsItsSteps(s: State, t: Tid, explicit: bool, queued: nat, plan: Plan) returns (s': State)
    requires PlanOk(plan) && t.Call? && Exit(s.sh.nextProc) !in s.threads && FailurePast(s.sh)
    requires s.sh.mu == None && s.sh.abortMu == None
    requires At(s, t, if explicit then OpUp else OpGet, InGet(Wait(queued)))
    ensures
      var (after, r) := GetAlone(s.sh, explicit, queued, plan);
      && Reaches(s, s') && At(s', t, if explicit then OpUp else OpGet, Done(r)) && IsButClock(s'.sh, after)
  {
    var op := if explicit then OpUp else OpGet;
    if s.sh.closed || (s.sh.proc.Some? && s.sh.proc.value in s.sh.undone) {
      s' := EarlySteps(s, t, op, queued, explicit, plan);
    } else if (!explicit && s.sh.manualOnly) || Answers(s.sh.lastErr, queued) {
      s' := AnsweredSteps(s, t, op, queued, explicit, plan);
    } else {
      var next := s.sh.(proc := None, nextCtx := s.sh.nextCtx + 1);
      LaunchIsLaunched(s.sh, explicit, queued, plan, next);
      s' := ConnectSteps(s, next, t, op, queued, plan);
    }
  }

  /** get that goes on to a start of its own; next is the shared state from which it does. */
  lemma ConnectSteps(s: State, next: Shared, t: Tid, op: Op, since: nat, plan: Plan) returns (s': State)
    requires PlanOk(plan) && t.Call? && Exit(s.sh.nextProc) !in s.threads && FailurePast(s.sh)
    requires s.sh.mu == None && s.sh.abortMu == None && At(s, t, op, InGet(Wait(since)))
    requires !s.sh.closed && !(s.sh.proc.Some? && s.sh.proc.value in s.sh.undone)
    requires (op.OpUp? || !s.sh.manualOnly) && !Answers(s.sh.lastErr, since)
    requires next == s.sh.(proc := None, nextCtx := s.sh.nextCtx + 1)
    ensures
      var (after, r) := Launched(next, s.sh.nextCtx, plan);
      Reaches(s, s') && At(s', t, op, Done(r)) && IsButClock(s'.sh, after.(mu := None))
  {
    Start(s);
    var s1 := GateSteps(s, s, t, op, since);
    assert Like(s1.sh, next) && FailurePast(next);
    s' := PublishOrRefuse(s, s1, next, t, op, s.sh.nextCtx, plan);
  }

  lemma LaunchIsLaunched(sh: Shared, explicit: bool, queued: nat, plan: Plan, next: Shared)
    requires PlanOk(plan) && sh.mu == None && !sh.closed && !(sh.proc.Some? && sh.proc.value in sh.undone)
    requires (explicit || !sh.manualOnly) && !Answers(sh.lastErr, queued)
    requires next == sh.(proc := None, nextCtx := sh.nextCtx + 1)
    ensures GetAlone(sh, explicit, queued, plan) == Launched(next, sh.nextCtx, plan)
    ensures Launched(next, sh.nextCtx, plan).0.mu == None
  {
  }

  lemma PublishOrRefuse(from: State, s: State, base: Shared, t: Tid, op: Op, ctx: CtxId, plan: Plan) returns (s': State)
    requires PlanOk(plan) && Reaches(from, s) && t.Call? && Exit(s.sh.nextProc) !in s.threads
    requires s.sh.mu == Some(t) && s.sh.abortMu == None && At(s, t, op, InStart(ctx, PubLock))
    requires Like(s.sh, base) && FailurePast(base)
    ensures
      var (after, r) := Launched(base, ctx, plan);
      Reaches(from, s') && At(s', t, op, Done(r)) && IsButClock(s'.sh, after.(mu := None))
  {
    if base.held {
      s' := RefusedSteps(from, s, t, op, ctx);
      assert IsButClock(s'.sh, base.(mu := None, cancelled := base.cancelled + {ctx}));
    } else {
      s' := LaunchSteps(from, s, base, t, op, ctx, plan);
    }
  }

  // ---- Up ----

  /** The same state reached later, with the time of a failure recorded meanwhile. */
  predicate LaterAfter(late: Shared, sh: Shared, from: nat) {
    && late == sh.(now := late.now, lastErr := late.lastErr) && sh.now <= late.now
    && (late.lastErr == sh.lastErr
        || (&& late.lastErr.Some? && late.lastErr.value.at == late.now
            && sh.lastErr == Some(Failure(late.lastErr.value.ctx, sh.now))))
    && (late.lastErr == sh.lastErr && sh.lastErr.Some? ==> sh.lastErr.value.at < from)
  }

  lemma ConcludedLater(late: Shared, sh: Shared, ctx: CtxId, p: Option<ProcId>)
    requires Like(late, sh) && late.mu == sh.mu && FailurePast(sh)
    ensures Concluded(late, ctx, p).1 == Concluded(sh, ctx, p).1
    ensures sh.now < late.now ==> LaterAfter(Concluded(late, ctx, p).0, Concluded(sh, ctx, p).0, sh.now)
  {
  }

  /** A start from sh, published. */
  function Begun(sh: Shared): Shared {
    sh.(nextCtx := sh.nextCtx + 1, abort := Some(sh.nextCtx), state := ConnConnecting)
  }

  lemma LaunchIsConcluded(sh: Shared, plan: Plan)
    requires PlanOk(plan)
    ensures LaunchAlone(sh, plan) ==
      if sh.held then (sh.(nextCtx := sh.nextCtx + 1, cancelled := sh.cancelled + {sh.nextCtx}), ErrDisconnected)
      else
        Concluded(StartEffect(Begun(sh), sh.nextCtx, plan), sh.nextCtx,
                  if Starts(plan) then Some(sh.nextProc) else None)
  {
  }

  lemma BegunLater(late: Shared, sh: Shared, plan: Plan) returns (lateStarted: Shared, started: Shared)
    requires PlanOk(plan) && Like(late, sh) && late.mu == sh.mu && sh.now < late.now && FailurePast(sh)
    ensures started == StartEffect(Begun(sh), sh.nextCtx, plan)
    ensures lateStarted == StartEffect(Begun(late), late.nextCtx, plan)
    ensures Like(lateStarted, started) && lateStarted.mu == started.mu && FailurePast(started)
    ensures started.now == sh.now && lateStarted.now == late.now
  {
    lateStarted, started := StartEffect(Begun(late), late.nextCtx, plan), StartEffect(Begun(sh), sh.nextCtx, plan);
    StartLike(Begun(late), Begun(sh), sh.nextCtx, plan);
    StartKeepsMu(Begun(sh), sh.nextCtx, plan);
    StartKeepsMu(Begun(late), sh.nextCtx, plan);
  }

  lemma LaunchLater(late: Shared, sh: Shared, plan: Plan)
    requires PlanOk(plan) && Like(late, sh) && late.mu == sh.mu && sh.now < late.now && FailurePast(sh)
    ensures LaunchAlone(late, plan).1 == LaunchAlone(sh, plan).1
    ensures LaterAfter(LaunchAlone(late, plan).0, LaunchAlone(sh, plan).0, sh.now)
  {
    LaunchIsConcluded(late, plan);
    LaunchIsConcluded(sh, plan);
    if !sh.held {
      var lateStarted, started := BegunLater(late, sh, plan);
      ConcludedLater(lateStarted, started, sh.nextCtx, if Starts(plan) then Some(sh.nextProc) else None);
    }
  }

  lemma StartKeepsMu(sh: Shared, ctx: CtxId, plan: Plan)
    requires PlanOk(plan)
    ensures StartEffect(sh, ctx, plan).mu == sh.mu && StartEffect(sh, ctx, plan).now == sh.now
    ensures StartEffect(sh, ctx, plan).lastErr == sh.lastErr
  {
  }

  /** A get that arrives when every recorded failure is past does later what it does now. */
  lemma GetLater(late: Shared, sh: Shared, queued: nat, plan: Plan)
    requires PlanOk(plan) && Like(late, sh) && late.mu == sh.mu && sh.now < late.now && FailurePast(sh)
    requires sh.now <= queued
    ensures GetAlone(late, true, queued, plan).1 == GetAlone(sh, true, sh.now, plan).1
    ensures LaterAfter(GetAlone(late, true, queued, plan).0, GetAlone(sh, true, sh.now, plan).0, sh.now)
  {
    assert !Answers(sh.lastErr, queued) && !Answers(sh.lastErr, sh.now);
    LaunchLater(late.(proc := None), sh.(proc := None), plan);
  }

  lemma ButClockEarlier(end: Shared, late: Shared, sh: Shared)
    requires IsButClock(end, late) && LaterAfter(late, sh, sh.now)
    ensures IsButClock(end, sh)
  {
  }

  /** The method Up does what an Up of the protocol does, together with the process it starts and the exit
      goroutine it waits for, uninterrupted by others. */
  lemma UpIsItsSteps(s: State, t: Tid, plan: Plan) returns (s': State)
    requires PlanOk(plan) && t.Call? && Exit(s.sh.nextProc) !in s.threads && FailurePast(s.sh)
    requires s.sh.mu == None && s.sh.abortMu == None && At(s, t, OpUp, Entry(OpUp))
    ensures
      var (after, r) := UpAlone(s.sh, plan);
      Reaches(s, s') && At(s', t, OpUp, Done(r)) && IsButClock(s'.sh, after)
  {
    Start(s);
    var cleared := s.sh.(held := false, clearedAt := Some(s.sh.now));
    var s1 := Go1(s, s, t, cleared, InGet(Stamp));
    var s2 := Go1(s, s1, t, s1.sh, InGet(Wait(s1.sh.now)));
    s' := GetIsItsSteps(s2, t, true, s1.sh.now, plan);
    Runs.GoesOn(Step, s, s2, s');
    GetLater(s2.sh, cleared, s1.sh.now, plan);
    GetKeepsNow(cleared, plan);
    ButClockEarlier(s'.sh, GetAlone(s2.sh, true, s1.sh.now, plan).0, GetAlone(cleared, true, cleared.now, plan).0);
  }

  lemma GetKeepsNow(sh: Shared, plan: Plan)
    requires PlanOk(plan)
    ensures GetAlone(sh, true, sh.now, plan).0.now == sh.now
  {
    StartKeepsMu(sh.(proc := None, nextCtx := sh.nextCtx + 1, abort := Some(sh.nextCtx), state := ConnConnecting),
      sh.nextCtx, plan);
  }
}
