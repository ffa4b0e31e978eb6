/** What every step of the VPN lifecycle protocol keeps, for any number of goroutines: an assertion at
    every program point, proved stable under the steps of every other goroutine and of the world. */
module VpnInvariant {
  import opened ConnTypes
  import opened VpnMachine

  /** No process but p may still run or have its done channel open. */
  predicate Only(sh: Shared, p: Option<ProcId>) {
    forall q :: q in sh.undone ==> p == Some(q)
  }

  /** An Up has cleared held after the given time. */
  predicate Cleared(sh: Shared, at: nat) { sh.clearedAt.Some? && sh.clearedAt.value > at }

  /** What a Down that set held at the given time can rely on. */
  predicate Held(sh: Shared, at: nat) { at < sh.now && (sh.held || Cleared(sh, at)) }

  /** The published start is cancelled, unless an Up came after the Down that set held at the given time. */
  predicate Aborted(sh: Shared, at: nat) {
    sh.abort.Some? ==> sh.abort.value in sh.cancelled || Cleared(sh, at)
  }

  predicate Locks(sh: Shared, t: Tid, mu: bool, abortMu: bool) {
    && (sh.mu == Some(t) <==> mu)
    && (sh.abortMu == Some(t) <==> abortMu)
  }

  /** Between lock and unlock of mu, with nothing or the context pub published. */
  predicate Inside(sh: Shared, t: Tid, pub: Option<CtxId>) { Locks(sh, t, true, false) && sh.abort == pub }
  predicate InsideBoth(sh: Shared, t: Tid, pub: Option<CtxId>) { Locks(sh, t, true, true) && sh.abort == pub }
  predicate Outside(sh: Shared, t: Tid) { Locks(sh, t, false, false) }

  /** An address is that of the client's process. */
  predicate ResultOk(sh: Shared, r: Result) {
    match r
    case Addr(p) => sh.proc == Some(p)
    case Nothing => false
    case _ => true
  }

  predicate GetOk(sh: Shared, t: Tid, g: GetPC) {
    match g
    case UpClear => Outside(sh, t)
    case Stamp => Outside(sh, t)
    case Wait(since) => Outside(sh, t) && since < sh.now
    case CheckClosed(since) => Inside(sh, t, None) && Only(sh, sh.proc) && since < sh.now
    case CheckProc(since) => Inside(sh, t, None) && Only(sh, sh.proc) && since < sh.now
    case CheckManual(since) => Inside(sh, t, None) && Only(sh, None) && since < sh.now && sh.proc == None
    case CheckShared(since) => Inside(sh, t, None) && Only(sh, None) && since < sh.now && sh.proc == None
    case Unlock(r) => Inside(sh, t, None) && Only(sh, sh.proc) && ResultOk(sh, r)
  }

  predicate StartOk(sh: Shared, t: Tid, ctx: CtxId, d: StartPC) {
    match d
    case PubLock => Inside(sh, t, None) && Only(sh, None) && sh.proc == None
    case PubCheck => InsideBoth(sh, t, None) && Only(sh, None) && sh.proc == None
    case PubWrite => InsideBoth(sh, t, None) && Only(sh, None) && sh.proc == None
    case Announce => Inside(sh, t, Some(ctx)) && Only(sh, None) && sh.proc == None
    case Preparing => Inside(sh, t, Some(ctx)) && Only(sh, None) && sh.proc == None
    case Starting(p) => Inside(sh, t, Some(ctx)) && Only(sh, Some(p)) && sh.proc == None && p < sh.nextProc
    case Awaiting(p) => Inside(sh, t, Some(ctx)) && Only(sh, Some(p)) && sh.proc == None && p < sh.nextProc
    case Adopting(p) => Inside(sh, t, Some(ctx)) && Only(sh, Some(p)) && sh.proc == None && p < sh.nextProc
    case Failed => Inside(sh, t, Some(ctx)) && Only(sh, None) && sh.proc == None
    case Record => Inside(sh, t, Some(ctx)) && Only(sh, None) && sh.proc == None
    case ClearLock(r) => Inside(sh, t, Some(ctx)) && Only(sh, sh.proc) && ResultOk(sh, r)
    case ClearWrite(r) => InsideBoth(sh, t, Some(ctx)) && Only(sh, sh.proc) && ResultOk(sh, r)
  }

  predicate DownOk(sh: Shared, t: Tid, down: DownPC) {
    match down
    case Hold => Outside(sh, t)
    case AbortLock(at) => Outside(sh, t) && Held(sh, at)
    case AbortCall(at) => Locks(sh, t, false, true) && Held(sh, at)
    case DownWait(at) => Outside(sh, t) && Held(sh, at)
    case DownLocked(at) => Inside(sh, t, None) && Only(sh, sh.proc) && Held(sh, at)
    case DownAwait(at, p) => Inside(sh, t, None) && Only(sh, Some(p)) && Held(sh, at) && sh.proc == Some(p)
    case DownReset(at) => Inside(sh, t, None) && Only(sh, None) && Held(sh, at)
  }

  predicate CloseOk(sh: Shared, t: Tid, close: ClosePC) {
    match close
    case Cancel => Outside(sh, t)
    case CloseWait => Outside(sh, t) && sh.closed
    case CloseLocked => Inside(sh, t, None) && Only(sh, sh.proc) && sh.closed
    case CloseAwait(p) => Inside(sh, t, None) && Only(sh, Some(p)) && sh.proc == Some(p) && sh.closed
    case CloseReset => Inside(sh, t, None) && Only(sh, None) && sh.closed
  }

  /** The exit goroutine of p: p's done channel is open until its last step. */
  predicate ExitOk(sh: Shared, t: Tid, p: ProcId, exit: ExitPC) {
    && t == Exit(p) && Outside(sh, t) && p in sh.undone
    && (!exit.AwaitExit? ==> p !in sh.running)
  }

  /** The assertion at goroutine t's program point. */
  predicate PcOk(sh: Shared, t: Tid, pc: PC) {
    match pc
    case InGet(g) => GetOk(sh, t, g)
    case InStart(ctx, d) => StartOk(sh, t, ctx, d)
    case InDown(down) => DownOk(sh, t, down)
    case InClose(close) => CloseOk(sh, t, close)
    case InExit(p, exit) => ExitOk(sh, t, p, exit)
    case Done(_) => Outside(sh, t)
  }

  predicate SharedOk(sh: Shared) {
    && (sh.mu == None ==> sh.abort == None && Only(sh, sh.proc))
    && (forall p :: p in sh.undone ==> p < sh.nextProc)
    && (forall p :: p in sh.running ==> p in sh.undone)
    && (sh.lastErr.Some? ==> sh.lastErr.value.at < sh.now)
    && (sh.clearedAt.Some? ==> sh.clearedAt.value < sh.now)
  }

  /** What goroutine t may rely on when another goroutine, or the world, takes sh to sh'. */
  predicate Rely(t: Tid, sh: Shared, sh': Shared) {
    && (sh'.mu == Some(t) <==> sh.mu == Some(t))
    && (sh'.abortMu == Some(t) <==> sh.abortMu == Some(t))
    && (sh.mu == Some(t) ==>
          sh'.proc == sh.proc && sh'.abort == sh.abort && sh'.nextProc == sh.nextProc && sh'.lastErr == sh.lastErr &&
          sh'.undone <= sh.undone)
    && (t.Exit? && t.p in sh.undone ==> t.p in sh'.undone && (t.p !in sh.running ==> t.p !in sh'.running))
    && sh.nextProc <= sh'.nextProc
    && sh.now < sh'.now
    && (sh.closed ==> sh'.closed)
    && (sh.held ==> sh'.held || sh'.clearedAt == Some(sh.now))
    && (sh.clearedAt.Some? ==> sh'.clearedAt.Some? && sh'.clearedAt.value >= sh.clearedAt.value)
  }

  predicate Publishing(pc: PC) { pc.InStart? && pc.d.PubWrite? }

  predicate Waiting(pc: PC) { pc.InDown? && pc.down.DownWait? }

  /** How a step bears on the hand-over between Down and setAbort. */
  predicate Tracks(sh: Shared, pc: PC, sh': Shared, pc': PC) {
    && sh.cancelled <= sh'.cancelled
    && (sh'.abort == sh.abort || sh'.abort == None || Publishing(pc))
    && (Publishing(pc') ==> !sh.held || pc == pc')
    && (Waiting(pc') ==>
          && pc == InDown(AbortCall(pc'.down.at))
          && (sh'.abort.Some? ==> sh'.abort.value in sh'.cancelled))
  }

  /** What every other goroutine may rely on, and how the step bears on the hand-over. */
  ghost predicate Guaranteed(sh: Shared, t: Tid, pc: PC, sh': Shared, pc': PC) {
    (forall u: Tid :: u != t ==> Rely(u, sh, sh')) && Tracks(sh, pc, sh', pc')
  }

  // ---- preservation ----

  /** A get that drops a process whose done channel is closed leaves none behind. */
  lemma CheckProcSelf(sh: Shared, t: Tid, th: Thread, since: nat, eff: Effect)
    requires SharedOk(sh) && GetOk(sh, t, CheckProc(since)) && GoGet(sh, t, th, CheckProc(since)) == Some(eff)
    ensures SharedOk(Tick(eff.sh)) && PcOk(Tick(eff.sh), t, eff.th.pc)
  {
    if !(sh.proc.Some? && sh.proc.value in sh.undone) {
      assert Only(Tick(eff.sh), None);
    }
  }

  lemma GateStep(sh: Shared, t: Tid, th: Thread, g: GetPC, eff: Effect)
    requires SharedOk(sh) && PcOk(sh, t, th.pc) && th.pc == InGet(g) && GoGet(sh, t, th, g) == Some(eff)
    requires g.UpClear? || g.Stamp? || g.Wait? || g.Unlock?
    ensures SharedOk(Tick(eff.sh)) && PcOk(Tick(eff.sh), t, eff.th.pc)
    ensures Guaranteed(sh, t, th.pc, Tick(eff.sh), eff.th.pc)
  {
  }

  lemma ReuseStep(sh: Shared, t: Tid, th: Thread, g: GetPC, eff: Effect)
    requires SharedOk(sh) && PcOk(sh, t, th.pc) && th.pc == InGet(g) && GoGet(sh, t, th, g) == Some(eff)
    requires g.CheckClosed? || g.CheckProc?
    ensures SharedOk(Tick(eff.sh)) && PcOk(Tick(eff.sh), t, eff.th.pc)
    ensures Guaranteed(sh, t, th.pc, Tick(eff.sh), eff.th.pc)
  {
    if g.CheckProc? {
      CheckProcSelf(sh, t, th, g.since, eff);
    }
  }

  lemma AnswerStep(sh: Shared, t: Tid, th: Thread, g: GetPC, eff: Effect)
    requires SharedOk(sh) && PcOk(sh, t, th.pc) && th.pc == InGet(g) && GoGet(sh, t, th, g) == Some(eff)
    requires g.CheckManual? || g.CheckShared?
    ensures SharedOk(Tick(eff.sh)) && PcOk(Tick(eff.sh), t, eff.th.pc)
    ensures Guaranteed(sh, t, th.pc, Tick(eff.sh), eff.th.pc)
  {
  }

  lemma PublishStep(sh: Shared, t: Tid, th: Thread, ctx: CtxId, d: StartPC, eff: Effect)
    requires SharedOk(sh) && PcOk(sh, t, th.pc) && th.pc == InStart(ctx, d) && GoStart(sh, t, th, ctx, d) == Some(eff)
    requires d.PubLock? || d.PubCheck? || d.PubWrite? || d.Announce?
    ensures SharedOk(Tick(eff.sh)) && PcOk(Tick(eff.sh), t, eff.th.pc)
    ensures Guaranteed(sh, t, th.pc, Tick(eff.sh), eff.th.pc)
  {
  }

  lemma StartedStep(sh: Shared, t: Tid, th: Thread, ctx: CtxId, d: StartPC, eff: Effect)
    requires SharedOk(sh) && PcOk(sh, t, th.pc) && th.pc == InStart(ctx, d) && GoStart(sh, t, th, ctx, d) == Some(eff)
    requires d.Preparing? || d.Starting? || d.Awaiting? || d.Adopting?
    ensures SharedOk(Tick(eff.sh)) && PcOk(Tick(eff.sh), t, eff.th.pc)
    ensures Guaranteed(sh, t, th.pc, Tick(eff.sh), eff.th.pc)
  {
  }

  lemma FailedStep(sh: Shared, t: Tid, th: Thread, ctx: CtxId, d: StartPC, eff: Effect)
    requires SharedOk(sh) && PcOk(sh, t, th.pc) && th.pc == InStart(ctx, d) && GoStart(sh, t, th, ctx, d) == Some(eff)
    requires d.Failed? || d.Record?
    ensures SharedOk(Tick(eff.sh)) && PcOk(Tick(eff.sh), t, eff.th.pc)
    ensures Guaranteed(sh, t, th.pc, Tick(eff.sh), eff.th.pc)
  {
  }

  lemma UnpublishStep(sh: Shared, t: Tid, th: Thread, ctx: CtxId, d: StartPC, eff: Effect)
    requires SharedOk(sh) && PcOk(sh, t, th.pc) && th.pc == InStart(ctx, d) && GoStart(sh, t, th, ctx, d) == Some(eff)
    requires d.ClearLock? || d.ClearWrite?
    ensures SharedOk(Tick(eff.sh)) && PcOk(Tick(eff.sh), t, eff.th.pc)
    ensures Guaranteed(sh, t, th.pc, Tick(eff.sh), eff.th.pc)
  {
  }

  lemma AbortStep(sh: Shared, t: Tid, th: Thread, down: DownPC, eff: Effect)
    requires SharedOk(sh) && PcOk(sh, t, th.pc) && th.pc == InDown(down) && GoDown(sh, t, th, down) == Some(eff)
    requires down.Hold? || down.AbortLock? || down.AbortCall?
    ensures SharedOk(Tick(eff.sh)) && PcOk(Tick(eff.sh), t, eff.th.pc)
    ensures Guaranteed(sh, t, th.pc, Tick(eff.sh), eff.th.pc)
  {
  }

  lemma LockedStep(sh: Shared, t: Tid, th: Thread, down: DownPC, eff: Effect)
    requires SharedOk(sh) && PcOk(sh, t, th.pc) && th.pc == InDown(down) && GoDown(sh, t, th, down) == Some(eff)
    requires down.DownWait? || down.DownLocked? || down.DownAwait? || down.DownReset?
    ensures SharedOk(Tick(eff.sh)) && PcOk(Tick(eff.sh), t, eff.th.pc)
    ensures Guaranteed(sh, t, th.pc, Tick(eff.sh), eff.th.pc)
  {
  }

  lemma CancelledStep(sh: Shared, t: Tid, th: Thread, close: ClosePC, eff: Effect)
    requires close.Cancel? || close.CloseWait?
    requires SharedOk(sh) && PcOk(sh, t, th.pc) && th.pc == InClose(close) && GoClose(sh, t, th, close) == Some(eff)
    ensures SharedOk(Tick(eff.sh)) && PcOk(Tick(eff.sh), t, eff.th.pc)
    ensures Guaranteed(sh, t, th.pc, Tick(eff.sh), eff.th.pc)
  {
  }

  lemma ClosedStep(sh: Shared, t: Tid, th: Thread, close: ClosePC, eff: Effect)
    requires close.CloseLocked? || close.CloseAwait? || close.CloseReset?
    requires SharedOk(sh) && PcOk(sh, t, th.pc) && th.pc == InClose(close) && GoClose(sh, t, th, close) == Some(eff)
    ensures SharedOk(Tick(eff.sh)) && PcOk(Tick(eff.sh), t, eff.th.pc)
    ensures Guaranteed(sh, t, th.pc, Tick(eff.sh), eff.th.pc)
  {
  }

  lemma ExitStep(sh: Shared, t: Tid, th: Thread, p: ProcId, exit: ExitPC, eff: Effect)
    requires SharedOk(sh) && PcOk(sh, t, th.pc) && th.pc == InExit(p, exit) && GoExit(sh, th, p, exit) == Some(eff)
    ensures SharedOk(Tick(eff.sh)) && PcOk(Tick(eff.sh), t, eff.th.pc)
    ensures Guaranteed(sh, t, th.pc, Tick(eff.sh), eff.th.pc)
  {
  }

  lemma SpawnStep(sh: Shared, t: Tid, th: Thread, eff: Effect)
    requires SharedOk(sh) && PcOk(sh, t, th.pc) && Decided(sh, th, Spawn) == Some(eff)
    ensures SharedOk(Tick(eff.sh)) && PcOk(Tick(eff.sh), t, eff.th.pc)
    ensures Guaranteed(sh, t, th.pc, Tick(eff.sh), eff.th.pc)
  {
  }

  lemma CancelStep(sh: Shared, t: Tid, th: Thread, eff: Effect)
    requires SharedOk(sh) && PcOk(sh, t, th.pc) && Decided(sh, th, CallerCancel) == Some(eff)
    ensures SharedOk(Tick(eff.sh)) && PcOk(Tick(eff.sh), t, eff.th.pc)
    ensures Guaranteed(sh, t, th.pc, Tick(eff.sh), eff.th.pc)
  {
  }

  lemma OutsideStep(sh: Shared, t: Tid, th: Thread, a: Action, eff: Effect)
    requires SharedOk(sh) && PcOk(sh, t, th.pc) && (a.Fail? || a.GiveUp? || a.Ready?) && Decided(sh, th, a) == Some(eff)
    ensures SharedOk(Tick(eff.sh)) && PcOk(Tick(eff.sh), t, eff.th.pc)
    ensures Guaranteed(sh, t, th.pc, Tick(eff.sh), eff.th.pc)
  {
  }

  lemma GoesStep(sh: Shared, t: Tid, th: Thread, eff: Effect)
    requires SharedOk(sh) && PcOk(sh, t, th.pc) && GoStep(sh, t, th) == Some(eff)
    ensures SharedOk(Tick(eff.sh)) && PcOk(Tick(eff.sh), t, eff.th.pc)
    ensures Guaranteed(sh, t, th.pc, Tick(eff.sh), eff.th.pc)
  {
    match th.pc
    case InGet(g) =>
      if g.UpClear? || g.Stamp? || g.Wait? || g.Unlock? {
        GateStep(sh, t, th, g, eff);
      } else if g.CheckClosed? || g.CheckProc? {
        ReuseStep(sh, t, th, g, eff);
      } else {
        AnswerStep(sh, t, th, g, eff);
      }
    case InStart(ctx, d) =>
      if d.PubLock? || d.PubCheck? || d.PubWrite? || d.Announce? {
        PublishStep(sh, t, th, ctx, d, eff);
      } else if d.ClearLock? || d.ClearWrite? {
        UnpublishStep(sh, t, th, ctx, d, eff);
      } else if d.Failed? || d.Record? {
        FailedStep(sh, t, th, ctx, d, eff);
      } else {
        StartedStep(sh, t, th, ctx, d, eff);
      }
    case InDown(down) =>
      if down.Hold? || down.AbortLock? || down.AbortCall? {
        AbortStep(sh, t, th, down, eff);
      } else {
        LockedStep(sh, t, th, down, eff);
      }
    case InClose(close) =>
      if close.Cancel? || close.CloseWait? {
        CancelledStep(sh, t, th, close, eff);
      } else {
        ClosedStep(sh, t, th, close, eff);
      }
    case InExit(p, exit) => ExitStep(sh, t, th, p, exit, eff);
    case Done(_) => assert false;
  }

  lemma LocalStep(sh: Shared, t: Tid, th: Thread, a: Action, eff: Effect)
    requires SharedOk(sh) && PcOk(sh, t, th.pc) && Local(sh, t, th, a) == Some(eff)
    ensures SharedOk(Tick(eff.sh)) && PcOk(Tick(eff.sh), t, eff.th.pc)
    ensures Guaranteed(sh, t, th.pc, Tick(eff.sh), eff.th.pc)
  {
    match a
    case Go => GoesStep(sh, t, th, eff);
    case Spawn => SpawnStep(sh, t, th, eff);
    case CallerCancel => CancelStep(sh, t, th, eff);
    case _ => OutsideStep(sh, t, th, a, eff);
  }

  lemma WorldGuarantee(sh: Shared, w: World, u: Tid)
    requires WorldStep(sh, w).Some?
    ensures Rely(u, sh, Tick(WorldStep(sh, w).value))
  {
  }

  lemma Stable(sh: Shared, sh': Shared, u: Tid, pc: PC)
    requires SharedOk(sh) && PcOk(sh, u, pc) && Rely(u, sh, sh')
    ensures PcOk(sh', u, pc)
  {
  }

  // ---- Down against a start about to be published ----

  /** A Down past its abort section and a get about to publish its start: an Up came in between. */
  predicate PairOk(sh: Shared, pub: PC, down: PC) {
    Publishing(pub) && Waiting(down) ==> Cleared(sh, down.down.at)
  }

  predicate AbortedOk(sh: Shared, pc: PC) {
    Waiting(pc) ==> Aborted(sh, pc.down.at)
  }

  lemma AbortedOther(sh: Shared, t: Tid, pc: PC, sh': Shared, pc': PC, u: Tid, other: PC)
    requires Rely(u, sh, sh') && Tracks(sh, pc, sh', pc')
    requires u != t && AbortedOk(sh, other) && PairOk(sh, pc, other)
    ensures AbortedOk(sh', other)
  {
  }

  lemma PairOther(sh: Shared, t: Tid, pc: PC, sh': Shared, pc': PC, u: Tid, other: PC)
    requires PcOk(sh, t, pc) && Rely(u, sh, sh') && Tracks(sh, pc, sh', pc')
    requires u != t && PcOk(sh, u, other) && PairOk(sh, pc, other) && PairOk(sh, other, pc)
    ensures PairOk(sh', pc', other) && PairOk(sh', other, pc')
  {
  }

  // ---- the whole system ----

  predicate ThreadOk(sh: Shared, t: Tid, th: Thread) {
    && PcOk(sh, t, th.pc)
    && AbortedOk(sh, th.pc)
    && (t.Exit? ==> t.p < sh.nextProc)
  }

  ghost predicate Pairs(sh: Shared, threads: map<Tid, Thread>) {
    forall t, u :: t in threads && u in threads && t != u ==> PairOk(sh, threads[t].pc, threads[u].pc)
  }

  ghost predicate Inv(s: State) {
    && SharedOk(s.sh)
    && (s.sh.mu.Some? ==> s.sh.mu.value in s.threads)
    && (s.sh.abortMu.Some? ==> s.sh.abortMu.value in s.threads)
    && (forall t :: t in s.threads ==> ThreadOk(s.sh, t, s.threads[t]))
    && Pairs(s.sh, s.threads)
  }

  lemma Bystander(s: State, sh': Shared, u: Tid)
    requires Inv(s) && u in s.threads && Rely(u, s.sh, sh')
    requires AbortedOk(sh', s.threads[u].pc)
    ensures ThreadOk(sh', u, s.threads[u])
  {
    Stable(s.sh, sh', u, s.threads[u].pc);
  }

  lemma InvEnv(s: State, w: World, s': State)
    requires Inv(s) && Step(s, Env(w)) == Some(s')
    ensures Inv(s')
  {
    forall u | u in s.threads ensures Rely(u, s.sh, s'.sh) && ThreadOk(s'.sh, u, s.threads[u]) {
      WorldGuarantee(s.sh, w, u);
      Bystander(s, s'.sh, u);
    }
  }

  lemma InvBegin(s: State, t: Tid, op: Op, s': State)
    requires Inv(s) && Step(s, Begin(t, op)) == Some(s')
    ensures Inv(s')
  {
    forall u | u in s.threads ensures ThreadOk(s'.sh, u, s.threads[u]) {
      Bystander(s, s'.sh, u);
    }
    assert ThreadOk(s'.sh, t, Thread(op, Entry(op)));
  }

  /** What the step lemmas establish about a step of goroutine t, without naming the step. */
  ghost predicate Sound(s: State, t: Tid, eff: Effect)
    requires t in s.threads
  {
    var sh' := Tick(eff.sh);
    && SharedOk(sh')
    && PcOk(sh', t, eff.th.pc)
    && (forall u :: u != t ==> Rely(u, s.sh, sh'))
    && Tracks(s.sh, s.threads[t].pc, sh', eff.th.pc)
    && s.sh.nextProc <= sh'.nextProc
    && (s.sh.clearedAt.Some? ==> sh'.clearedAt.Some? && sh'.clearedAt.value >= s.sh.clearedAt.value)
    && (eff.spawn.Some? ==>
          Exit(eff.spawn.value) !in s.threads && eff.spawn.value < sh'.nextProc && eff.spawn.value in sh'.undone)
  }

  lemma SpawnFresh(s: State, t: Tid, a: Action, eff: Effect)
    requires Inv(s) && t in s.threads && Local(s.sh, t, s.threads[t], a) == Some(eff) && eff.spawn.Some?
    ensures Exit(eff.spawn.value) !in s.threads && eff.spawn.value < eff.sh.nextProc && eff.spawn.value in eff.sh.undone
  {
    var th := s.threads[t];
    assert PcOk(s.sh, t, th.pc);
    assert !a.Go? && th.pc.InStart?;
    assert eff.spawn.value == s.sh.nextProc;
  }

  lemma LocalSound(s: State, t: Tid, a: Action, eff: Effect)
    requires Inv(s) && t in s.threads && Local(s.sh, t, s.threads[t], a) == Some(eff)
    ensures Sound(s, t, eff)
  {
    var th := s.threads[t];
    LocalStep(s.sh, t, th, a, eff);
    if eff.spawn.Some? {
      SpawnFresh(s, t, a, eff);
    }
    HistoryGrows(s.sh, t, th.pc, Tick(eff.sh), eff.th.pc);
  }

  lemma HistoryGrows(sh: Shared, t: Tid, pc: PC, sh': Shared, pc': PC)
    requires Guaranteed(sh, t, pc, sh', pc')
    ensures sh.nextProc <= sh'.nextProc
    ensures sh.clearedAt.Some? ==> sh'.clearedAt.Some? && sh'.clearedAt.value >= sh.clearedAt.value
  {
    var someone := if t == Call(0) then Call(1) else Call(0);
    assert Rely(someone, sh, sh');
  }

  lemma LiftPairs(s: State, t: Tid, eff: Effect)
    requires Inv(s) && t in s.threads && Sound(s, t, eff)
    ensures Pairs(Tick(eff.sh), Put(s.threads, t, eff))
  {
    var sh' := Tick(eff.sh);
    forall u | u in s.threads && u != t
      ensures PairOk(sh', eff.th.pc, s.threads[u].pc) && PairOk(sh', s.threads[u].pc, eff.th.pc)
    {
      PairOther(s.sh, t, s.threads[t].pc, sh', eff.th.pc, u, s.threads[u].pc);
    }
  }

  lemma LiftThreads(s: State, t: Tid, eff: Effect, u: Tid)
    requires Inv(s) && t in s.threads && Sound(s, t, eff) && u in Put(s.threads, t, eff)
    ensures ThreadOk(Tick(eff.sh), u, Put(s.threads, t, eff)[u])
  {
    var sh' := Tick(eff.sh);
    if u == t {
      assert AbortedOk(sh', eff.th.pc);
    } else if u in s.threads {
      AbortedOther(s.sh, t, s.threads[t].pc, sh', eff.th.pc, u, s.threads[u].pc);
      Bystander(s, sh', u);
    } else {
      assert Rely(u, s.sh, sh');
    }
  }

  lemma InvAct(s: State, t: Tid, a: Action, s': State)
    requires Inv(s) && Step(s, Act(t, a)) == Some(s')
    ensures Inv(s')
  {
    var eff := Local(s.sh, t, s.threads[t], a).value;
    LocalSound(s, t, a, eff);
    LiftPairs(s, t, eff);
    forall u | u in s'.threads ensures ThreadOk(s'.sh, u, s'.threads[u]) {
      LiftThreads(s, t, eff, u);
    }
    Holder(s, t, eff);
  }

  lemma Holder(s: State, t: Tid, eff: Effect)
    requires Inv(s) && t in s.threads && Sound(s, t, eff)
    ensures eff.sh.mu.Some? ==> eff.sh.mu.value in s.threads
    ensures eff.sh.abortMu.Some? ==> eff.sh.abortMu.value in s.threads
  {
    var sh' := Tick(eff.sh);
    if sh'.mu.Some? && sh'.mu.value != t {
      assert Rely(sh'.mu.value, s.sh, sh');
    }
    if sh'.abortMu.Some? && sh'.abortMu.value != t {
      assert Rely(sh'.abortMu.value, s.sh, sh');
    }
  }

  /** Every step keeps the invariant. */
  lemma InvStep(s: State, e: Event, s': State)
    requires Inv(s) && Step(s, e) == Some(s')
    ensures Inv(s')
  {
    match e
    case Begin(t, op) => InvBegin(s, t, op, s');
    case Act(t, a) => InvAct(s, t, a, s');
    case Env(w) => InvEnv(s, w, s');
  }
}
