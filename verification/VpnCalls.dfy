/** The VPN client's protocol as its callers see it: no call is ever stuck, and where a method that runs alone
    stands for its steps. */
module VpnCalls {
  import opened ConnTypes
  import opened VpnMachine
  import opened VpnInvariant
  import opened VpnRuns
  import Steps = VpnSteps

  // ---- who closes a done channel ----

  /** Each done channel that is open will be closed by its process's exit goroutine. */
  ghost predicate AllAttended(s: State) { forall p :: p in s.sh.undone ==> Steps.Attended(s, p) }

  predicate UndoneKept(sh: Shared, th: Thread, eff: Effect) {
    && (forall p :: p in eff.sh.undone ==> p in sh.undone || eff.spawn == Some(p))
    && eff.th.op == th.op
    && (th.pc.InExit? ==>
          (eff.th.pc.InExit? && eff.th.pc.p == th.pc.p) || (eff.th.pc.Done? && th.pc.p !in eff.sh.undone))
  }

  lemma UndoneGet(sh: Shared, t: Tid, th: Thread, g: GetPC, eff: Effect)
    requires th.pc == InGet(g) && GoGet(sh, t, th, g) == Some(eff)
    ensures UndoneKept(sh, th, eff)
  {
  }

  lemma UndoneStart(sh: Shared, t: Tid, th: Thread, ctx: CtxId, d: StartPC, eff: Effect)
    requires th.pc == InStart(ctx, d) && GoStart(sh, t, th, ctx, d) == Some(eff)
    ensures UndoneKept(sh, th, eff)
  {
  }

  /** A done channel is opened for a process whose exit goroutine starts with it, and closed by that goroutine's
      last step. */
  lemma UndoneLocal(sh: Shared, t: Tid, th: Thread, a: Action, eff: Effect)
    requires Local(sh, t, th, a) == Some(eff)
    ensures UndoneKept(sh, th, eff)
  {
    if a.Go? && th.pc.InGet? {
      UndoneGet(sh, t, th, th.pc.g, eff);
    } else if a.Go? && th.pc.InStart? {
      UndoneStart(sh, t, th, th.pc.ctx, th.pc.d, eff);
    }
  }

  lemma AttendedStep(s: State, e: Event, s': State)
    requires Inv(s) && AllAttended(s) && Step(s, e) == Some(s')
    ensures AllAttended(s')
  {
    if e.Act? {
      var eff := Local(s.sh, e.t, s.threads[e.t], e.a).value;
      UndoneLocal(s.sh, e.t, s.threads[e.t], e.a, eff);
      if eff.spawn.Some? {
        SpawnFresh(s, e.t, e.a, eff);
      }
      forall p | p in s'.sh.undone ensures Steps.Attended(s', p) {
        StillAttended(s, e.t, eff, p);
      }
    } else {
      forall p | p in s'.sh.undone ensures Steps.Attended(s', p) {
        var exit :| Steps.ExitsFrom(s, p, exit);
        assert Steps.ExitsFrom(s', p, exit);
      }
    }
  }

  lemma StillAttended(s: State, t: Tid, eff: Effect, p: ProcId)
    requires AllAttended(s) && t in s.threads && p in eff.sh.undone
    requires eff.spawn.Some? ==> Exit(eff.spawn.value) !in s.threads
    requires UndoneKept(s.sh, s.threads[t], eff)
    ensures Steps.Attended(State(Tick(eff.sh), Put(s.threads, t, eff)), p)
  {
    var s' := State(Tick(eff.sh), Put(s.threads, t, eff));
    if eff.spawn == Some(p) {
      assert Steps.ExitsFrom(s', p, AwaitExit);
    } else {
      var exit :| Steps.ExitsFrom(s, p, exit);
      assert Steps.ExitsFrom(s', p, if t == Exit(p) then eff.th.pc.exit else exit);
    }
  }

  lemma {:induction false} AttendedAt(r: Run, i: nat)
    requires Valid(r) && i < |r.states|
    ensures Inv(r.states[i]) && AllAttended(r.states[i])
  {
    InvAt(r, i);
    if i > 0 {
      AttendedAt(r, i - 1);
      assert Step(r.states[i - 1], r.events[i - 1]) == Some(r.states[i]);
      AttendedStep(r.states[i - 1], r.events[i - 1], r.states[i]);
    }
  }

  // ---- progress ----

  /** Some goroutine can go on: with its own next step, or by starting its process. That some start gives up, or
      finds its tunnel ready, is not called for. */
  ghost predicate Moves(s: State) {
    exists t, a: Action :: t in s.threads && (a.Go? || a.Spawn?) && Step(s, Act(t, a)).Some?
  }

  /** A process runs, and its exit goroutine waits for it to exit. */
  ghost predicate ProcessRuns(s: State) {
    exists p :: p in s.sh.running && Steps.At(s, Exit(p), OpExit, InExit(p, AwaitExit))
  }

  lemma MovesBy(s: State, t: Tid, a: Action)
    requires t in s.threads && (a.Go? || a.Spawn?) && Local(s.sh, t, s.threads[t], a).Some?
    ensures Moves(s)
  {
    assert Step(s, Act(t, a)).Some?;
  }

  /** Who waits for a done channel waits for the process, or for its exit goroutine's own steps. */
  lemma ExitMoves(s: State, p: ProcId)
    requires AllAttended(s) && p in s.sh.undone
    ensures Moves(s) || ProcessRuns(s)
  {
    var exit :| Steps.ExitsFrom(s, p, exit);
    if exit != AwaitExit || p !in s.sh.running {
      MovesBy(s, Exit(p), Go);
    } else {
      assert Steps.At(s, Exit(p), OpExit, InExit(p, AwaitExit));
    }
  }

  /** The process whose done channel the goroutine at pc waits for. */
  function Awaited(pc: PC): Option<ProcId> {
    match pc
    case InStart(_, Starting(p)) => Some(p)
    case InStart(_, Awaiting(p)) => Some(p)
    case InDown(DownAwait(_, p)) => Some(p)
    case InClose(CloseAwait(p)) => Some(p)
    case _ => None
  }

  lemma AbortHolderMoves(s: State)
    requires Inv(s) && s.sh.abortMu.Some?
    ensures Moves(s)
  {
    var t := s.sh.abortMu.value;
    assert ThreadOk(s.sh, t, s.threads[t]);
    MovesBy(s, t, Go);
  }

  lemma HolderMoves(s: State)
    requires Inv(s) && AllAttended(s) && s.sh.abortMu == None && s.sh.mu.Some?
    ensures Moves(s) || ProcessRuns(s)
  {
    var t := s.sh.mu.value;
    var pc := s.threads[t].pc;
    assert ThreadOk(s.sh, t, s.threads[t]);
    if Awaited(pc).Some? && Awaited(pc).value in s.sh.undone {
      ExitMoves(s, Awaited(pc).value);
    } else {
      MovesBy(s, t, if pc.InStart? && pc.d.Preparing? then Spawn else Go);
    }
  }

  lemma OthersMove(s: State, t: Tid)
    requires Inv(s) && AllAttended(s) && s.sh.abortMu == None && s.sh.mu == None
    requires t in s.threads && !s.threads[t].pc.Done?
    ensures Moves(s) || ProcessRuns(s)
  {
    var pc := s.threads[t].pc;
    assert ThreadOk(s.sh, t, s.threads[t]);
    if pc.InExit? {
      ExitMoves(s, pc.p);
    } else {
      MovesBy(s, t, Go);
    }
  }

  /** Progress: in every run, while some call or exit goroutine has not ended, some goroutine can go on, or a
      process runs whose exit goroutine waits for it. In particular a Down or Close that holds mu while it
      waits for its process blocks nobody the process's end needs. */
  lemma NobodyIsStuck(r: Run, i: nat, t: Tid)
    requires Valid(r) && i < |r.states| && t in r.states[i].threads && !r.states[i].threads[t].pc.Done?
    ensures Moves(r.states[i]) || ProcessRuns(r.states[i])
  {
    AttendedAt(r, i);
    if r.states[i].sh.abortMu.Some? {
      AbortHolderMoves(r.states[i]);
    } else if r.states[i].sh.mu.Some? {
      HolderMoves(r.states[i]);
    } else {
      OthersMove(r.states[i], t);
    }
  }

  // ---- what each call does, and how it ends ----

  /** The points a call of this kind may be at, and the results it may end with. */
  predicate Does(op: Op, pc: PC) {
    match op
    case OpGet => pc.InGet? || pc.InStart? || (pc.Done? && !pc.r.Nothing?)
    case OpUp => pc.InGet? || pc.InStart? || (pc.Done? && !pc.r.Nothing?)
    case OpDown => pc.InDown? || pc == Done(Nothing)
    case OpClose => pc.InClose? || pc == Done(Nothing)
    case OpExit => pc.InExit? || pc == Done(Nothing)
  }

  lemma DoesLocal(sh: Shared, t: Tid, th: Thread, a: Action, eff: Effect)
    requires PcOk(sh, t, th.pc) && Local(sh, t, th, a) == Some(eff) && Does(th.op, th.pc)
    ensures eff.th.op == th.op && Does(eff.th.op, eff.th.pc)
  {
    if a.Go? {
      match th.pc
      case InGet(g) => assert GoGet(sh, t, th, g) == Some(eff);
      case InStart(ctx, d) => assert GoStart(sh, t, th, ctx, d) == Some(eff);
      case InDown(down) => assert GoDown(sh, t, th, down) == Some(eff);
      case InClose(close) => assert GoClose(sh, t, th, close) == Some(eff);
      case InExit(p, exit) => assert GoExit(sh, th, p, exit) == Some(eff);
      case _ => assert false;
    }
  }

  ghost predicate AllDo(s: State) { forall t :: t in s.threads ==> Does(s.threads[t].op, s.threads[t].pc) }

  lemma DoesStep(s: State, e: Event, s': State)
    requires Inv(s) && AllDo(s) && Step(s, e) == Some(s')
    ensures AllDo(s')
  {
    if e.Act? {
      assert ThreadOk(s.sh, e.t, s.threads[e.t]);
      DoesLocal(s.sh, e.t, s.threads[e.t], e.a, Local(s.sh, e.t, s.threads[e.t], e.a).value);
    }
  }

  /** In every run each call is where its kind belongs, and ends with a result of its kind. */
  lemma {:induction false} CallsDoWell(r: Run, i: nat)
    requires Valid(r) && i < |r.states|
    ensures AllDo(r.states[i])
  {
    if i > 0 {
      CallsDoWell(r, i - 1);
      InvAt(r, i - 1);
      assert Step(r.states[i - 1], r.events[i - 1]) == Some(r.states[i]);
      DoesStep(r.states[i - 1], r.events[i - 1], r.states[i]);
    }
  }

  // ---- methods that run alone ----

  /** What the step lemmas of Down, Close and Get ask of a state holds at every state of a run: the exit
      goroutine of the client's process will close its done channel, the one of the next process has yet to
      be started, and the recorded failure is past. */
  lemma StepsApply(r: Run, i: nat)
    requires Valid(r) && i < |r.states|
    ensures
      var s := r.states[i];
      && (s.sh.proc.Some? ==> Steps.Attended(s, s.sh.proc.value))
      && Exit(s.sh.nextProc) !in s.threads
      && Steps.FailurePast(s.sh)
  {
    AttendedAt(r, i);
    var s := r.states[i];
    if s.sh.proc.Some? && s.sh.proc.value !in s.sh.undone {
      assert Steps.ExitsFrom(s, s.sh.proc.value, AwaitExit);
    }
    forall t | t in s.threads && t.Exit? ensures t.p < s.sh.nextProc {
      assert ThreadOk(s.sh, t, s.threads[t]);
    }
  }
}
