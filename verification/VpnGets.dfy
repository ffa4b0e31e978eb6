/** What stands behind a get of the VPN client, over every run: which checks a start has passed, what each result
    means, and that a closed client stays closed. */
module VpnGets {
  import opened ConnTypes
  import opened VpnMachine
  import opened VpnInvariant
  import opened VpnRuns
  import Runs

  // ---- closed, autoconnect ----

  /** Event k is a Close cancelling the client's context. */
  ghost predicate Cancels(r: Run, k: nat) { exists t :: Takes(r, k, t, InClose(Cancel)) }

  /** A Close has begun before event i. */
  ghost predicate CloseBegun(r: Run, i: nat) { exists k: nat :: k < i && Cancels(r, k) }

  /** Before event i, autoconnect was last switched off. */
  ghost predicate AutoconnectOff(r: Run, i: nat) {
    exists k: nat :: k < i && k < |r.events| && r.events[k] == Env(SetAutoconnect(false)) && NotOnAgain(r, k, i)
  }

  ghost predicate NotOnAgain(r: Run, k: nat, i: nat) {
    forall m :: k < m < i && m < |r.events| ==> r.events[m] != Env(SetAutoconnect(true))
  }

  lemma OffGrows(r: Run, i: nat)
    requires i < |r.events|
    ensures AutoconnectOff(r, i + 1) <==>
      r.events[i] == Env(SetAutoconnect(false)) ||
      (AutoconnectOff(r, i) && r.events[i] != Env(SetAutoconnect(true)))
  {
    if AutoconnectOff(r, i) && r.events[i] != Env(SetAutoconnect(true)) {
      var k: nat :| k < i && r.events[k] == Env(SetAutoconnect(false)) && NotOnAgain(r, k, i);
      assert NotOnAgain(r, k, i + 1);
    }
    if r.events[i] == Env(SetAutoconnect(false)) {
      assert NotOnAgain(r, i, i + 1);
    }
    if AutoconnectOff(r, i + 1) && r.events[i] != Env(SetAutoconnect(false)) {
      var k: nat :| k < i + 1 && r.events[k] == Env(SetAutoconnect(false)) && NotOnAgain(r, k, i + 1);
      assert k < i && NotOnAgain(r, k, i);
    }
  }

  // ---- how a goroutine gets to a program point ----

  /** How a step of the goroutine at th leads to the points of a get, unless it stays where it is. */
  predicate Leads(sh: Shared, th: Thread, a: Action, eff: Effect) {
    && eff.th.op == th.op && eff.sh.manualOnly == sh.manualOnly
    && eff.sh.closed == (sh.closed || (a.Go? && th.pc == InClose(Cancel)))
    && (eff.th == th || LeadsTo(sh, th, a, eff.th.pc))
  }

  predicate LeadsTo(sh: Shared, th: Thread, a: Action, pc: PC) {
    match pc
    case InGet(CheckClosed(since)) => a.Go? && th.pc == InGet(Wait(since))
    case InGet(CheckProc(since)) => a.Go? && th.pc == InGet(CheckClosed(since)) && !sh.closed
    case InGet(CheckManual(since)) => a.Go? && th.pc == InGet(CheckProc(since)) && !Alive(sh)
    case InGet(CheckShared(since)) => a.Go? && th.pc == InGet(CheckManual(since)) && (th.op.OpUp? || !sh.manualOnly)
    case InGet(Unlock(res)) => a.Go? && LeadsOut(sh, th, res)
    case InStart(ctx, d) =>
      if d.PubLock? then a.Go? && th.pc.InGet? && th.pc.g.CheckShared?
      else
        && th.pc.InStart? && th.pc.ctx == ctx
        && (d.PubWrite? ==> a.Go? && th.pc.d.PubCheck? && !sh.held)
        && (d.Adopting? ==> a.Ready? && th.pc.d == Starting(d.p))
        && (d.ClearLock? ==> d.r.Addr? || (a.Go? && th.pc.d == StartPC.Record && d.r == StartError(ctx)))
        && (d.ClearWrite? ==> a.Go? && th.pc.d == ClearLock(d.r))
    case _ => true
  }

  /** The client has a process whose done channel is open. */
  predicate Alive(sh: Shared) { sh.proc.Some? && sh.proc.value in sh.undone }

  /** How a get comes to return res. */
  predicate LeadsOut(sh: Shared, th: Thread, res: Result) {
    || (th.pc.InGet? && th.pc.g.CheckClosed? && sh.closed && res == ErrClosed)
    || (th.pc.InGet? && th.pc.g.CheckProc? && Alive(sh) && res == Addr(sh.proc.value))
    || (th.pc.InGet? && th.pc.g.CheckManual? && !th.op.OpUp? && sh.manualOnly && res == ErrDisconnected)
    || (th.pc.InGet? && th.pc.g.CheckShared? && res.StartError?)
    || (th.pc.InStart? && th.pc.d.PubCheck? && sh.held && res == ErrDisconnected)
    || (th.pc.InStart? && th.pc.d == ClearWrite(res))
  }

  lemma LeadsGet(sh: Shared, t: Tid, th: Thread, g: GetPC, eff: Effect)
    requires th.pc == InGet(g) && GoGet(sh, t, th, g) == Some(eff)
    ensures Leads(sh, th, Go, eff)
  {
  }

  lemma LeadsStart(sh: Shared, t: Tid, th: Thread, ctx: CtxId, d: StartPC, eff: Effect)
    requires th.pc == InStart(ctx, d) && GoStart(sh, t, th, ctx, d) == Some(eff)
    ensures Leads(sh, th, Go, eff)
  {
  }

  lemma LeadsDown(sh: Shared, t: Tid, th: Thread, down: DownPC, eff: Effect)
    requires th.pc == InDown(down) && GoDown(sh, t, th, down) == Some(eff)
    ensures Leads(sh, th, Go, eff)
  {
  }

  lemma LeadsDecided(sh: Shared, th: Thread, a: Action, eff: Effect)
    requires Decided(sh, th, a) == Some(eff)
    ensures Leads(sh, th, a, eff)
  {
  }

  lemma LeadsRest(sh: Shared, t: Tid, th: Thread, eff: Effect)
    requires GoStep(sh, t, th) == Some(eff) && (th.pc.InClose? || th.pc.InExit?)
    ensures Leads(sh, th, Go, eff)
  {
  }

  lemma LeadsLocal(sh: Shared, t: Tid, th: Thread, a: Action, eff: Effect)
    requires Local(sh, t, th, a) == Some(eff)
    ensures Leads(sh, th, a, eff)
  {
    if !a.Go? {
      LeadsDecided(sh, th, a, eff);
    } else if th.pc.InGet? {
      LeadsGet(sh, t, th, th.pc.g, eff);
    } else if th.pc.InStart? {
      LeadsStart(sh, t, th, th.pc.ctx, th.pc.d, eff);
    } else if th.pc.InDown? {
      LeadsDown(sh, t, th, th.pc.down, eff);
    } else {
      LeadsRest(sh, t, th, eff);
    }
  }

  /** Event k is the step with which goroutine t has got to where it is at i. */
  ghost predicate Came(r: Run, k: nat, i: nat, t: Tid) {
    && k < i < |r.states| && k < |r.events| && t in r.states[i].threads
    && t in r.states[k].threads && r.events[k].Act? && r.events[k].t == t
    && LeadsTo(r.states[k].sh, r.states[k].threads[t], r.events[k].a, r.states[i].threads[t].pc)
    && r.states[k].threads[t].op == r.states[i].threads[t].op
    && t in r.states[k + 1].threads && r.states[k + 1].threads[t] == r.states[i].threads[t]
  }

  predicate Inner(pc: PC) { pc.InStart? || (pc.InGet? && !pc.g.UpClear? && !pc.g.Stamp? && !pc.g.Wait?) }

  lemma {:induction false} HowItCame(r: Run, i: nat, t: Tid) returns (k: nat)
    requires Valid(r) && i < |r.states| && t in r.states[i].threads && Inner(r.states[i].threads[t].pc)
    ensures Came(r, k, i, t)
  {
    assert i > 0;
    InvAt(r, i - 1);
    assert Step(r.states[i - 1], r.events[i - 1]) == Some(r.states[i]);
    LastMove(r.states[i - 1], r.events[i - 1], r.states[i], t);
    if t in r.states[i - 1].threads && r.states[i - 1].threads[t] == r.states[i].threads[t] {
      k := HowItCame(r, i - 1, t);
    } else {
      k := i - 1;
    }
  }

  lemma LastMove(s: State, e: Event, s': State, t: Tid)
    requires Inv(s) && Step(s, e) == Some(s') && t in s'.threads && Inner(s'.threads[t].pc)
    ensures
      || (t in s.threads && s.threads[t] == s'.threads[t])
      || (&& e.Act? && e.t == t && t in s.threads && LeadsTo(s.sh, s.threads[t], e.a, s'.threads[t].pc)
          && s'.threads[t].op == s.threads[t].op)
  {
    if e.Act? {
      var eff := Local(s.sh, e.t, s.threads[e.t], e.a).value;
      LeadsLocal(s.sh, e.t, s.threads[e.t], e.a, eff);
      if eff.spawn.Some? {
        SpawnFresh(s, e.t, e.a, eff);
      }
    }
  }

  // ---- what a start has passed ----

  lemma {:induction false} ManualIsLastSet(r: Run, i: nat)
    requires Valid(r) && i < |r.states|
    ensures r.states[i].sh.manualOnly <==> AutoconnectOff(r, i)
  {
    if i > 0 {
      ManualIsLastSet(r, i - 1);
      OffGrows(r, i - 1);
      var s, e := r.states[i - 1], r.events[i - 1];
      assert Step(s, e) == Some(r.states[i]);
      if e.Act? {
        LeadsLocal(s.sh, e.t, s.threads[e.t], e.a, Local(s.sh, e.t, s.threads[e.t], e.a).value);
      }
    }
  }

  lemma {:induction false} ClosedIsClose(r: Run, i: nat)
    requires Valid(r) && i < |r.states|
    ensures r.states[i].sh.closed <==> CloseBegun(r, i)
  {
    if i > 0 {
      ClosedIsClose(r, i - 1);
      ClosedAt(r, i - 1);
      assert CloseBegun(r, i) <==> CloseBegun(r, i - 1) || Cancels(r, i - 1);
    }
  }

  lemma ClosedAt(r: Run, i: nat)
    requires Valid(r) && i < |r.events|
    ensures r.states[i + 1].sh.closed <==> r.states[i].sh.closed || Cancels(r, i)
  {
    var s, e := r.states[i], r.events[i];
    assert Step(s, e) == Some(r.states[i + 1]);
    if e.Act? {
      LeadsLocal(s.sh, e.t, s.threads[e.t], e.a, Local(s.sh, e.t, s.threads[e.t], e.a).value);
      if e.a == Go && s.threads[e.t].pc == InClose(Cancel) {
        assert Takes(r, i, e.t, InClose(Cancel));
      }
    }
  }

  /** The start of t's get, at i, came from its check of the recorded failure, at k. */
  lemma {:induction false} StartBegan(r: Run, i: nat, t: Tid) returns (k: nat, since: nat)
    requires Valid(r) && i < |r.states| && t in r.states[i].threads && r.states[i].threads[t].pc.InStart?
    ensures k < i && Takes(r, k, t, InGet(CheckShared(since)))
    ensures t in r.states[k + 1].threads && r.states[k + 1].threads[t].pc.InStart?
    ensures r.states[k].threads[t].op == r.states[i].threads[t].op
  {
    k := HowItCame(r, i, t);
    if r.states[k].threads[t].pc.InStart? {
      k, since := StartBegan(r, k, t);
    } else {
      since := r.states[k].threads[t].pc.g.since;
    }
  }

  /** Whoever starts a process has, since its arrival, found in this order: no Close begun, no process that is
      not done, autoconnect on unless it is an Up, and no failure newer than its arrival. */
  lemma StartPassedTheChecks(r: Run, i: nat, t: Tid)
    returns (since: nat, c: nat, p: nat, m: nat, k: nat)
    requires Valid(r) && i < |r.states| && t in r.states[i].threads && r.states[i].threads[t].pc.InStart?
    ensures since < c < p < m < k < i && Takes(r, since, t, InGet(Stamp))
    ensures Takes(r, c, t, InGet(CheckClosed(since))) && !CloseBegun(r, c)
    ensures Takes(r, p, t, InGet(CheckProc(since))) && !Alive(r.states[p].sh)
    ensures Takes(r, m, t, InGet(CheckManual(since)))
    ensures r.states[i].threads[t].op.OpUp? || !AutoconnectOff(r, m)
    ensures Takes(r, k, t, InGet(CheckShared(since))) && forall j, ctx :: since < j ==> !Stands(r, j, ctx, k)
  {
    k, since := StartBegan(r, i, t);
    m := HowItCame(r, k, t);
    p := HowItCame(r, m, t);
    c := HowItCame(r, p, t);
    ManualIsLastSet(r, m);
    ClosedIsClose(r, c);
    SinceIsArrival(r, c, t);
    FailuresAreShared(r, k, t, since);
  }

  /** And a start is published only by a get that has found held clear. */
  lemma PublishedUnheld(r: Run, i: nat, t: Tid, ctx: CtxId) returns (k: nat)
    requires Valid(r) && i < |r.states| && t in r.states[i].threads
    requires r.states[i].threads[t].pc == InStart(ctx, PubWrite)
    ensures k < i && Takes(r, k, t, InStart(ctx, PubCheck)) && !HoldsLast(r, k)
  {
    k := HowItCame(r, i, t);
    HeldIsLastStore(r, k);
  }

  // ---- what a get returns ----

  /** What an answer is founded on: the address is that of the client's process; a Close had begun; the client
      was held down, or a request found autoconnect off; the error is that of a newer failure that stood, or of
      the get's own start. */
  ghost predicate Founded(r: Run, i: nat, t: Tid, res: Result)
    requires i < |r.states|
  {
    match res
    case Addr(p) => r.states[i].sh.proc == Some(p)
    case ErrClosed => CloseBegun(r, i)
    case ErrDisconnected => exists k: nat :: k < i && RefusedAt(r, k, t)
    case StartError(ctx) =>
      || (exists k: nat, j, since :: k < i && since < j && AnsweredAt(r, k, t, since) && Stands(r, j, ctx, k))
      || (exists k: nat :: k < i && Takes(r, k, t, InStart(ctx, StartPC.Record)))
    case Nothing => false
  }

  ghost predicate AnsweredAt(r: Run, k: nat, t: Tid, since: nat) { Takes(r, k, t, InGet(CheckShared(since))) }

  /** At event k, t finds the client held down, or autoconnect off for a call that is no Up. */
  ghost predicate RefusedAt(r: Run, k: nat, t: Tid) {
    && k < |r.events| && k < |r.states| && r.events[k] == Act(t, Go) && t in r.states[k].threads
    && var th := r.states[k].threads[t];
       || (HoldsLast(r, k) && th.pc.InStart? && th.pc.d.PubCheck?)
       || (AutoconnectOff(r, k) && th.pc.InGet? && th.pc.g.CheckManual? && !th.op.OpUp?)
  }

  /** Every get that returns has a reason for its answer. */
  lemma GetAnswers(r: Run, i: nat, t: Tid, res: Result)
    requires Valid(r) && Takes(r, i, t, InGet(Unlock(res)))
    ensures Founded(r, i, t, res)
  {
    ResultIsOk(r, i, t, res);
    var k := HowItCame(r, i, t);
    HeldIsLastStore(r, k);
    ManualIsLastSet(r, k);
    ClosedIsClose(r, k);
    var pc := r.states[k].threads[t].pc;
    if pc.InStart? && pc.d.ClearWrite? {
      OwnStartEnds(r, k, t, pc.ctx, res);
    } else if res.StartError? {
      NewerStands(r, k, t, pc.g.since, res.ctx);
    } else if res.ErrDisconnected? {
      assert RefusedAt(r, k, t);
    }
  }

  lemma ResultIsOk(r: Run, i: nat, t: Tid, res: Result)
    requires Valid(r) && Takes(r, i, t, InGet(Unlock(res)))
    ensures ResultOk(r.states[i].sh, res)
  {
    InvAt(r, i);
    assert ThreadOk(r.states[i].sh, t, r.states[i].threads[t]);
  }

  lemma OwnStartEnds(r: Run, k: nat, t: Tid, ctx: CtxId, res: Result)
    requires Valid(r) && Takes(r, k, t, InStart(ctx, ClearWrite(res)))
    ensures
      res.Addr? || (res == StartError(ctx) && exists w: nat :: w < k && Takes(r, w, t, InStart(ctx, StartPC.Record)))
  {
    var l := HowItCame(r, k, t);
    var w := HowItCame(r, l, t);
    assert res.StartError? ==> Takes(r, w, t, InStart(ctx, StartPC.Record));
  }

  lemma NewerStands(r: Run, k: nat, t: Tid, since: nat, ctx: CtxId)
    requires Valid(r) && Takes(r, k, t, InGet(CheckShared(since)))
    requires t in r.states[k + 1].threads && r.states[k + 1].threads[t].pc == InGet(Unlock(StartError(ctx)))
    ensures AnsweredAt(r, k, t, since) && exists j :: since < j && Stands(r, j, ctx, k)
  {
    FailuresAreShared(r, k, t, since);
  }

  // ---- who cancels a start ----

  /** A step from pc cancels the start with context ctx: its caller gives up, a Down finds it published, or it
      ends, or is refused by setAbort. */
  predicate CancelsStart(sh: Shared, pc: PC, a: Action, ctx: CtxId) {
    || (a.CallerCancel? && pc.InStart? && pc.ctx == ctx)
    || (a.Go? && pc.InDown? && pc.down.AbortCall? && sh.abort == Some(ctx))
    || (a.Go? && pc.InStart? && pc.ctx == ctx && (pc.d.ClearWrite? || (pc.d.PubCheck? && sh.held)))
  }

  ghost predicate CancelKept(sh: Shared, pc: PC, a: Action, sh': Shared) {
    forall c :: c in sh'.cancelled <==> c in sh.cancelled || CancelsStart(sh, pc, a, c)
  }

  lemma CancelGet(sh: Shared, t: Tid, th: Thread, g: GetPC, eff: Effect)
    requires th.pc == InGet(g) && GoGet(sh, t, th, g) == Some(eff)
    ensures CancelKept(sh, th.pc, Go, eff.sh)
  {
  }

  lemma CancelStart(sh: Shared, t: Tid, th: Thread, ctx: CtxId, d: StartPC, eff: Effect)
    requires th.pc == InStart(ctx, d) && GoStart(sh, t, th, ctx, d) == Some(eff)
    ensures CancelKept(sh, th.pc, Go, eff.sh)
  {
  }

  lemma CancelDecided(sh: Shared, th: Thread, a: Action, eff: Effect)
    requires Decided(sh, th, a) == Some(eff)
    ensures CancelKept(sh, th.pc, a, eff.sh)
  {
  }

  lemma CancelLocal(sh: Shared, t: Tid, th: Thread, a: Action, eff: Effect)
    requires Local(sh, t, th, a) == Some(eff)
    ensures CancelKept(sh, th.pc, a, eff.sh)
  {
    if !a.Go? {
      CancelDecided(sh, th, a, eff);
    } else {
      match th.pc
      case InGet(g) => CancelGet(sh, t, th, g, eff);
      case InStart(ctx, d) => CancelStart(sh, t, th, ctx, d, eff);
      case InDown(down) => assert GoDown(sh, t, th, down) == Some(eff);
      case InClose(close) => assert GoClose(sh, t, th, close) == Some(eff);
      case InExit(p, exit) => assert GoExit(sh, th, p, exit) == Some(eff);
      case _ => assert false;
    }
  }

  /** Event k cancels the start with context ctx. */
  ghost predicate CancelsAt(r: Run, k: nat, ctx: CtxId) {
    k < |r.events| && k < |r.states| && CancelsEvent(r.states[k], r.events[k], ctx)
  }

  predicate CancelsEvent(s: State, e: Event, ctx: CtxId) {
    e.Act? && e.t in s.threads && CancelsStart(s.sh, s.threads[e.t].pc, e.a, ctx)
  }

  lemma CancelEvent(s: State, e: Event, s': State, ctx: CtxId)
    requires Step(s, e) == Some(s')
    ensures ctx in s'.sh.cancelled <==> ctx in s.sh.cancelled || CancelsEvent(s, e, ctx)
  {
    if e.Act? {
      CancelLocal(s.sh, e.t, s.threads[e.t], e.a, Local(s.sh, e.t, s.threads[e.t], e.a).value);
    }
  }

  /** A start is cancelled exactly if its caller has given up, a Down has found it published, or its get is
      through with it. */
  lemma {:induction false} CancelledIsHistory(r: Run, i: nat, ctx: CtxId)
    requires Valid(r) && i < |r.states|
    ensures ctx in r.states[i].sh.cancelled <==> exists k: nat :: k < i && CancelsAt(r, k, ctx)
  {
    if i > 0 {
      CancelledIsHistory(r, i - 1, ctx);
      assert Step(r.states[i - 1], r.events[i - 1]) == Some(r.states[i]);
      CancelEvent(r.states[i - 1], r.events[i - 1], r.states[i], ctx);
      assert (exists k: nat :: k < i && CancelsAt(r, k, ctx)) <==>
        (exists k: nat :: k < i - 1 && CancelsAt(r, k, ctx)) || CancelsAt(r, i - 1, ctx);
    }
  }

  // ---- no context outlives its get ----

  ghost predicate InUse(s: State, c: CtxId) {
    exists t :: t in s.threads && s.threads[t].pc.InStart? && s.threads[t].pc.ctx == c
  }

  /** Every context made is cancelled, or that of a get past its checks. */
  ghost predicate AllUsed(s: State) { forall c: CtxId :: c < s.sh.nextCtx ==> c in s.sh.cancelled || InUse(s, c) }

  /** A step makes at most the next context, for a start of its own, and cancels its own when it is through. */
  predicate CtxKept(sh: Shared, pc: PC, eff: Effect) {
    && (eff.sh.nextCtx == sh.nextCtx
        || (eff.sh.nextCtx == sh.nextCtx + 1 && eff.th.pc.InStart? && eff.th.pc.ctx == sh.nextCtx && !pc.InStart?))
    && (pc.InStart? ==> (eff.th.pc.InStart? && eff.th.pc.ctx == pc.ctx) || pc.ctx in eff.sh.cancelled)
  }

  lemma CtxGet(sh: Shared, t: Tid, th: Thread, g: GetPC, eff: Effect)
    requires th.pc == InGet(g) && GoGet(sh, t, th, g) == Some(eff)
    ensures CtxKept(sh, th.pc, eff)
  {
  }

  lemma CtxStart(sh: Shared, t: Tid, th: Thread, ctx: CtxId, d: StartPC, eff: Effect)
    requires th.pc == InStart(ctx, d) && GoStart(sh, t, th, ctx, d) == Some(eff)
    ensures CtxKept(sh, th.pc, eff)
  {
  }

  lemma CtxDecided(sh: Shared, th: Thread, a: Action, eff: Effect)
    requires Decided(sh, th, a) == Some(eff)
    ensures CtxKept(sh, th.pc, eff)
  {
  }

  lemma CtxLocal(sh: Shared, t: Tid, th: Thread, a: Action, eff: Effect)
    requires Local(sh, t, th, a) == Some(eff)
    ensures CtxKept(sh, th.pc, eff)
  {
    if !a.Go? {
      CtxDecided(sh, th, a, eff);
    } else {
      match th.pc
      case InGet(g) => CtxGet(sh, t, th, g, eff);
      case InStart(ctx, d) => CtxStart(sh, t, th, ctx, d, eff);
      case InDown(down) => assert GoDown(sh, t, th, down) == Some(eff);
      case InClose(close) => assert GoClose(sh, t, th, close) == Some(eff);
      case InExit(p, exit) => assert GoExit(sh, th, p, exit) == Some(eff);
      case _ => assert false;
    }
  }

  lemma UsedStep(s: State, e: Event, s': State)
    requires Inv(s) && AllUsed(s) && Step(s, e) == Some(s')
    ensures AllUsed(s')
  {
    if e.Act? {
      UsedAct(s, e.t, e.a, s');
    } else {
      forall c | InUse(s, c) ensures InUse(s', c) {
        var u :| u in s.threads && s.threads[u].pc.InStart? && s.threads[u].pc.ctx == c;
        assert s'.threads[u] == s.threads[u];
      }
    }
  }

  lemma UsedAct(s: State, t: Tid, a: Action, s': State)
    requires Inv(s) && AllUsed(s) && Step(s, Act(t, a)) == Some(s')
    ensures AllUsed(s')
  {
    var eff := Local(s.sh, t, s.threads[t], a).value;
    CtxLocal(s.sh, t, s.threads[t], a, eff);
    CancelLocal(s.sh, t, s.threads[t], a, eff);
    if eff.spawn.Some? {
      SpawnFresh(s, t, a, eff);
    }
    forall c: CtxId | c < s'.sh.nextCtx ensures c in s'.sh.cancelled || InUse(s', c) {
      StillUsed(s, t, eff, c);
    }
  }

  lemma StillUsed(s: State, t: Tid, eff: Effect, c: CtxId)
    requires t in s.threads && CtxKept(s.sh, s.threads[t].pc, eff) && s.sh.cancelled <= eff.sh.cancelled
    requires eff.spawn.Some? ==> Exit(eff.spawn.value) !in s.threads
    requires c < s.sh.nextCtx ==> c in s.sh.cancelled || InUse(s, c)
    requires c < eff.sh.nextCtx
    ensures c in eff.sh.cancelled || InUse(State(Tick(eff.sh), Put(s.threads, t, eff)), c)
  {
    var s' := State(Tick(eff.sh), Put(s.threads, t, eff));
    if eff.spawn.Some? {
      assert Exit(eff.spawn.value) != t;
    }
    assert s'.threads[t] == eff.th;
    if c < s.sh.nextCtx && c !in s.sh.cancelled {
      var u :| u in s.threads && s.threads[u].pc.InStart? && s.threads[u].pc.ctx == c;
      assert u != t ==> s'.threads[u] == s.threads[u];
    }
  }

  lemma {:induction false} UsedAt(r: Run, i: nat)
    requires Valid(r) && i < |r.states|
    ensures Inv(r.states[i]) && AllUsed(r.states[i])
  {
    InvAt(r, i);
    if i > 0 {
      UsedAt(r, i - 1);
      assert Step(r.states[i - 1], r.events[i - 1]) == Some(r.states[i]);
      UsedStep(r.states[i - 1], r.events[i - 1], r.states[i]);
    }
  }

  /** While mu is free, every context that a get has made is cancelled. */
  lemma NoContextIsLeft(r: Run, i: nat, c: CtxId)
    requires Valid(r) && i < |r.states| && c < r.states[i].sh.nextCtx && r.states[i].sh.mu == None
    ensures c in r.states[i].sh.cancelled
  {
    UsedAt(r, i);
    forall u | u in r.states[i].threads ensures !r.states[i].threads[u].pc.InStart? {
      assert ThreadOk(r.states[i].sh, u, r.states[i].threads[u]);
    }
  }

  // ---- a closed client ----

  predicate ClosedSh(sh: Shared) {
    sh.closed && sh.proc == None && sh.running == {} && sh.undone == {} && sh.state in {ConnDisconnected, ConnUnknown}
  }

  predicate ClosedPc(pc: PC) {
    match pc
    case InGet(CheckProc(_)) => false
    case InGet(CheckManual(_)) => false
    case InGet(CheckShared(_)) => false
    case InGet(Unlock(res)) => res == ErrClosed
    case InStart(_, _) => false
    case InExit(_, _) => false
    case _ => true
  }

  /** Nothing runs, and no get can end but in ErrClosed. */
  ghost predicate IsClosed(s: State) { ClosedSh(s.sh) && forall t :: t in s.threads ==> ClosedPc(s.threads[t].pc) }

  lemma ClosedLocal(sh: Shared, t: Tid, th: Thread, a: Action, eff: Effect)
    requires ClosedSh(sh) && ClosedPc(th.pc) && Local(sh, t, th, a) == Some(eff)
    ensures ClosedSh(eff.sh) && ClosedPc(eff.th.pc) && eff.spawn == None
  {
    if a.Go? {
      match th.pc
      case InGet(g) => assert GoGet(sh, t, th, g) == Some(eff);
      case InDown(down) => assert GoDown(sh, t, th, down) == Some(eff);
      case InClose(close) => assert GoClose(sh, t, th, close) == Some(eff);
      case _ => assert false;
    }
  }

  lemma ClosedStays(s: State, e: Event, s': State)
    requires IsClosed(s) && Step(s, e) == Some(s')
    ensures IsClosed(s')
  {
    if e.Act? {
      ClosedLocal(s.sh, e.t, s.threads[e.t], e.a, Local(s.sh, e.t, s.threads[e.t], e.a).value);
    }
  }

  /** A Close leaves its critical section with the client closed, its process gone and no get past its checks. */
  lemma CloseEnds(r: Run, t: Tid, b: nat)
    requires Valid(r) && Takes(r, b, t, InClose(CloseReset))
    ensures IsClosed(r.states[b + 1])
    ensures
      r.states[b + 1].sh == r.states[b].sh.(mu := None, proc := None, state := ConnDisconnected, now := b + 1)
  {
    InvAt(r, b);
    var s := r.states[b];
    assert Step(s, r.events[b]) == Some(r.states[b + 1]);
    assert ThreadOk(s.sh, t, s.threads[t]);
    forall u | u in s.threads ensures ClosedPc(r.states[b + 1].threads[u].pc) {
      assert ThreadOk(s.sh, u, s.threads[u]);
    }
  }

  /** From the end of a Close on, for ever, whatever Ups come, no process runs, and State reports neither a
      connection nor an attempt. */
  lemma {:induction false} ClosedForGood(r: Run, t: Tid, b: nat, i: nat)
    requires Valid(r) && Takes(r, b, t, InClose(CloseReset)) && b < i < |r.states|
    ensures IsClosed(r.states[i])
    decreases i
  {
    if i == b + 1 {
      CloseEnds(r, t, b);
    } else {
      ClosedForGood(r, t, b, i - 1);
      assert Step(r.states[i - 1], r.events[i - 1]) == Some(r.states[i]);
      ClosedStays(r.states[i - 1], r.events[i - 1], r.states[i]);
    }
  }

  /** Every get that ends after it returns ErrClosed. */
  lemma CloseRefusesGets(r: Run, t: Tid, b: nat, i: nat, u: Tid, res: Result)
    requires Valid(r) && Takes(r, b, t, InClose(CloseReset)) && b < i
    requires Takes(r, i, u, InGet(Unlock(res)))
    ensures res == ErrClosed
  {
    ClosedForGood(r, t, b, i);
  }

  /** So does, already from the beginning of a Close on, every get that comes to its check of the client. */
  lemma ClosingRefusesGets(r: Run, i: nat, t: Tid, since: nat)
    requires Valid(r) && Takes(r, i, t, InGet(CheckClosed(since)))
    ensures t in r.states[i + 1].threads
    ensures r.states[i + 1].threads[t].pc == InGet(if CloseBegun(r, i) then Unlock(ErrClosed) else CheckProc(since))
  {
    ClosedIsClose(r, i);
    assert Step(r.states[i], r.events[i]) == Some(r.states[i + 1]);
  }
}
