/** What stands behind a get of the SSH client, over every run: which checks a dial has passed, what each result
    means, what becomes of a dial that is aborted, and what State shows meanwhile. */
module SshGets {
  import opened ConnTypes
  import opened SshMachine
  import opened SshInvariant
  import opened SshRuns
  import Runs

  // ---- autoconnect ----

  /** Before event i, autoconnect was last switched off. */
  ghost predicate AutoconnectOff(r: Run, i: nat) {
    exists k: nat :: k < i && k < |r.events| && r.events[k] == Env(SetAutoconnect(false)) && NotOnAgain(r, k, i)
  }

  ghost predicate NotOnAgain(r: Run, k: nat, i: nat) {
    forall m :: k < m < i && m < |r.events| ==> r.events[m] != Env(SetAutoconnect(true))
  }

  lemma OffGrows(r: Run, i: nat)
    requires i < |r.events|
    ensures AutoconnectOff(r, i + 1) <==>
      r.events[i] == Env(SetAutoconnect(false)) ||
      (AutoconnectOff(r, i) && r.events[i] != Env(SetAutoconnect(true)))
  {
    if AutoconnectOff(r, i) && r.events[i] != Env(SetAutoconnect(true)) {
      var k: nat :| k < i && r.events[k] == Env(SetAutoconnect(false)) && NotOnAgain(r, k, i);
      assert NotOnAgain(r, k, i + 1);
    }
    if r.events[i] == Env(SetAutoconnect(false)) {
      assert NotOnAgain(r, i, i + 1);
    }
    if AutoconnectOff(r, i + 1) && r.events[i] != Env(SetAutoconnect(false)) {
      var k: nat :| k < i + 1 && r.events[k] == Env(SetAutoconnect(false)) && NotOnAgain(r, k, i + 1);
      assert k < i && NotOnAgain(r, k, i);
    }
  }

  // ---- how a goroutine gets to a program point ----

  /** How a step of the goroutine at th leads to the points of a get, unless it stays where it is. */
  predicate Leads(sh: Shared, th: Thread, a: Action, eff: Effect) {
    && eff.th.op == th.op && eff.sh.manualOnly == sh.manualOnly && eff.sh.aborting == sh.aborting
    && (eff.th == th || LeadsTo(sh, th, a, eff.th.pc))
  }

  predicate LeadsTo(sh: Shared, th: Thread, a: Action, pc: PC) {
    match pc
    case InGet(CheckHeld(since)) => a.Go? && th.pc == InGet(Wait(since))
    case InGet(CheckCli(since)) => a.Go? && th.pc == InGet(CheckHeld(since)) && !sh.held
    case InGet(CheckManual(since)) => a.Go? && th.pc == InGet(CheckCli(since)) && sh.cli == None
    case InGet(CheckShared(since)) => a.Go? && th.pc == InGet(CheckManual(since)) && (th.op.OpUp? || !sh.manualOnly)
    case InGet(Unlock(res)) => a.Go? && LeadsOut(sh, th, res)
    case InDial(ctx, d) =>
      if d.PubLock? then a.Go? && th.pc.InGet? && th.pc.g.CheckShared?
      else
        && th.pc.InDial? && th.pc.ctx == ctx
        && (d.Adopting? ==> a.Go? && th.pc.d == Dialing(Some(d.id)) && ctx !in sh.aborting)
        && (d.ClearLock? ==> d.r.Conn? || (a.Go? && th.pc.d == DialPC.Record && d.r == DialError(ctx)))
        && (d.ClearWrite? ==> a.Go? && th.pc.d == ClearLock(d.r))
    case _ => true
  }

  /** How a get comes to return res. */
  predicate LeadsOut(sh: Shared, th: Thread, res: Result) {
    || (th.pc.InGet? && th.pc.g.CheckHeld? && sh.held && res == ErrDisconnected)
    || (th.pc.InGet? && th.pc.g.CheckCli? && sh.cli.Some? && res == Conn(sh.cli.value))
    || (th.pc.InGet? && th.pc.g.CheckManual? && !th.op.OpUp? && sh.manualOnly && res == ErrDisconnected)
    || (th.pc.InGet? && th.pc.g.CheckShared? && res.DialError?)
    || (th.pc.InDial? && th.pc.d.PubCheck? && sh.held && res == ErrDisconnected)
    || (th.pc.InDial? && th.pc.d == ClearWrite(res))
  }

  lemma LeadsGet(sh: Shared, t: Tid, th: Thread, g: GetPC, eff: Effect)
    requires th.pc == InGet(g) && GoGet(sh, t, th, g) == Some(eff)
    ensures Leads(sh, th, Go, eff)
  {
  }

  lemma LeadsDial(sh: Shared, t: Tid, th: Thread, ctx: CtxId, d: DialPC, eff: Effect)
    requires th.pc == InDial(ctx, d) && GoDial(sh, t, th, ctx, d) == Some(eff)
    ensures Leads(sh, th, Go, eff)
  {
  }

  lemma LeadsDown(sh: Shared, t: Tid, th: Thread, down: DownPC, eff: Effect)
    requires th.pc == InDown(down) && GoDown(sh, t, th, down) == Some(eff)
    ensures Leads(sh, th, Go, eff)
  {
  }

  lemma LeadsRest(sh: Shared, t: Tid, th: Thread, a: Action, eff: Effect)
    requires Local(sh, t, th, a) == Some(eff)
    requires a.Go? ==> !th.pc.InGet? && !th.pc.InDial? && !th.pc.InDown?
    ensures Leads(sh, th, a, eff)
  {
  }

  lemma LeadsLocal(sh: Shared, t: Tid, th: Thread, a: Action, eff: Effect)
    requires Local(sh, t, th, a) == Some(eff)
    ensures Leads(sh, th, a, eff)
  {
    if a.Go? && th.pc.InGet? {
      LeadsGet(sh, t, th, th.pc.g, eff);
    } else if a.Go? && th.pc.InDial? {
      LeadsDial(sh, t, th, th.pc.ctx, th.pc.d, eff);
    } else if a.Go? && th.pc.InDown? {
      LeadsDown(sh, t, th, th.pc.down, eff);
    } else {
      LeadsRest(sh, t, th, a, eff);
    }
  }

  /** Event k is the step with which goroutine t has got to where it is at i. */
  ghost predicate Came(r: Run, k: nat, i: nat, t: Tid) {
    && k < i < |r.states| && k < |r.events| && t in r.states[i].threads
    && t in r.states[k].threads && r.events[k].Act? && r.events[k].t == t
    && LeadsTo(r.states[k].sh, r.states[k].threads[t], r.events[k].a, r.states[i].threads[t].pc)
    && r.states[k].threads[t].op == r.states[i].threads[t].op
    && t in r.states[k + 1].threads && r.states[k + 1].threads[t] == r.states[i].threads[t]
  }

  predicate Inner(pc: PC) { pc.InDial? || (pc.InGet? && !pc.g.UpClear? && !pc.g.Stamp? && !pc.g.Wait?) }

  lemma {:induction false} HowItCame(r: Run, i: nat, t: Tid) returns (k: nat)
    requires Valid(r) && i < |r.states| && t in r.states[i].threads && Inner(r.states[i].threads[t].pc)
    ensures Came(r, k, i, t)
  {
    assert i > 0;
    InvAt(r, i - 1);
    assert Step(r.states[i - 1], r.events[i - 1]) == Some(r.states[i]);
    LastMove(r.states[i - 1], r.events[i - 1], r.states[i], t);
    if t in r.states[i - 1].threads && r.states[i - 1].threads[t] == r.states[i].threads[t] {
      k := HowItCame(r, i - 1, t);
    } else {
      k := i - 1;
    }
  }

  lemma LastMove(s: State, e: Event, s': State, t: Tid)
    requires Inv(s) && Step(s, e) == Some(s') && t in s'.threads && Inner(s'.threads[t].pc)
    ensures
      || (t in s.threads && s.threads[t] == s'.threads[t])
      || (&& e.Act? && e.t == t && t in s.threads && LeadsTo(s.sh, s.threads[t], e.a, s'.threads[t].pc)
          && s'.threads[t].op == s.threads[t].op)
  {
    if e.Act? {
      var eff := Local(s.sh, e.t, s.threads[e.t], e.a).value;
      LeadsLocal(s.sh, e.t, s.threads[e.t], e.a, eff);
      if eff.spawn.Some? {
        SpawnFresh(s, e.t, e.a, eff);
      }
    }
  }

  // ---- what a dial has passed ----

  lemma {:induction false} ManualIsLastSet(r: Run, i: nat)
    requires Valid(r) && i < |r.states|
    ensures r.states[i].sh.manualOnly <==> AutoconnectOff(r, i)
  {
    if i > 0 {
      ManualIsLastSet(r, i - 1);
      OffGrows(r, i - 1);
      var s, e := r.states[i - 1], r.events[i - 1];
      assert Step(s, e) == Some(r.states[i]);
      if e.Act? {
        LeadsLocal(s.sh, e.t, s.threads[e.t], e.a, Local(s.sh, e.t, s.threads[e.t], e.a).value);
      }
    }
  }

  /** The dial of t's get, at i, came from its check of the recorded failure, at k. */
  lemma {:induction false} DialBegan(r: Run, i: nat, t: Tid) returns (k: nat, since: nat)
    requires Valid(r) && i < |r.states| && t in r.states[i].threads && r.states[i].threads[t].pc.InDial?
    ensures k < i && Takes(r, k, t, InGet(CheckShared(since)))
    ensures t in r.states[k + 1].threads && r.states[k + 1].threads[t].pc.InDial?
    ensures r.states[k].threads[t].op == r.states[i].threads[t].op
  {
    k := HowItCame(r, i, t);
    if r.states[k].threads[t].pc.InDial? {
      k, since := DialBegan(r, k, t);
    } else {
      since := r.states[k].threads[t].pc.g.since;
    }
  }

  /** Whoever dials has, since its arrival, found in this order: held clear, no connection, autoconnect on
      unless it is an Up, and no failure newer than its arrival. */
  lemma DialPassedTheChecks(r: Run, i: nat, t: Tid)
    returns (since: nat, h: nat, c: nat, m: nat, k: nat)
    requires Valid(r) && i < |r.states| && t in r.states[i].threads && r.states[i].threads[t].pc.InDial?
    ensures since < h < c < m < k < i && Takes(r, since, t, InGet(Stamp))
    ensures Takes(r, h, t, InGet(CheckHeld(since))) && !HoldsLast(r, h)
    ensures Takes(r, c, t, InGet(CheckCli(since))) && r.states[c].sh.cli == None
    ensures Takes(r, m, t, InGet(CheckManual(since)))
    ensures r.states[i].threads[t].op.OpUp? || !AutoconnectOff(r, m)
    ensures Takes(r, k, t, InGet(CheckShared(since))) && forall j, ctx :: since < j ==> !Stands(r, j, ctx, k)
  {
    k, since := DialBegan(r, i, t);
    m := HowItCame(r, k, t);
    c := HowItCame(r, m, t);
    h := HowItCame(r, c, t);
    ManualIsLastSet(r, m);
    HeldIsLastStore(r, h);
    SinceIsArrival(r, h, t);
    FailuresAreShared(r, k, t, since);
  }

  // ---- what a get returns ----

  /** What an answer is founded on: the connection is the current one; the client was held down, or a request
      found autoconnect off; the error is that of a newer failure that stood, or of the get's own dial. */
  ghost predicate Founded(r: Run, i: nat, t: Tid, res: Result)
    requires i < |r.states|
  {
    match res
    case Conn(id) => r.states[i].sh.cli == Some(id)
    case ErrDisconnected =>
      exists k: nat :: k < i && RefusedAt(r, k, t)
    case DialError(ctx) =>
      || (exists k: nat, j, since :: k < i && since < j && AnsweredAt(r, k, t, since) && Stands(r, j, ctx, k))
      || (exists k: nat :: k < i && Takes(r, k, t, InDial(ctx, DialPC.Record)))
    case _ => false
  }

  ghost predicate AnsweredAt(r: Run, k: nat, t: Tid, since: nat) { Takes(r, k, t, InGet(CheckShared(since))) }

  /** At event k, t finds the client held down, or autoconnect off for a call that is no Up. */
  ghost predicate RefusedAt(r: Run, k: nat, t: Tid) {
    && k < |r.events| && k < |r.states| && r.events[k] == Act(t, Go) && t in r.states[k].threads
    && var th := r.states[k].threads[t];
       || (HoldsLast(r, k) && ((th.pc.InGet? && th.pc.g.CheckHeld?) || (th.pc.InDial? && th.pc.d.PubCheck?)))
       || (AutoconnectOff(r, k) && th.pc.InGet? && th.pc.g.CheckManual? && !th.op.OpUp?)
  }

  /** Every get that returns has a reason for its answer. */
  lemma GetAnswers(r: Run, i: nat, t: Tid, res: Result)
    requires Valid(r) && Takes(r, i, t, InGet(Unlock(res)))
    ensures Founded(r, i, t, res)
  {
    CurrentIsHandedOut(r, i, t, res);
    var k := HowItCame(r, i, t);
    HeldIsLastStore(r, k);
    ManualIsLastSet(r, k);
    var pc := r.states[k].threads[t].pc;
    if pc.InDial? && pc.d.ClearWrite? {
      OwnDialEnds(r, k, t, pc.ctx, res);
    } else if res.DialError? {
      NewerStands(r, k, t, pc.g.since, res.ctx);
    } else if res.ErrDisconnected? {
      assert RefusedAt(r, k, t);
    }
  }

  lemma CurrentIsHandedOut(r: Run, i: nat, t: Tid, res: Result)
    requires Valid(r) && Takes(r, i, t, InGet(Unlock(res)))
    ensures res.Conn? ==> r.states[i].sh.cli == Some(res.id)
  {
    InvAt(r, i);
    assert ThreadOk(r.states[i].sh, t, r.states[i].threads[t]);
  }

  lemma OwnDialEnds(r: Run, k: nat, t: Tid, ctx: CtxId, res: Result)
    requires Valid(r) && Takes(r, k, t, InDial(ctx, ClearWrite(res)))
    ensures res.Conn? || (res == DialError(ctx) && exists w: nat :: w < k && Takes(r, w, t, InDial(ctx, DialPC.Record)))
  {
    var l := HowItCame(r, k, t);
    var w := HowItCame(r, l, t);
    assert res.DialError? ==> Takes(r, w, t, InDial(ctx, DialPC.Record));
  }

  lemma NewerStands(r: Run, k: nat, t: Tid, since: nat, ctx: CtxId)
    requires Valid(r) && Takes(r, k, t, InGet(CheckShared(since)))
    requires t in r.states[k + 1].threads && r.states[k + 1].threads[t].pc == InGet(Unlock(DialError(ctx)))
    ensures AnsweredAt(r, k, t, since) && exists j :: since < j && Stands(r, j, ctx, k)
  {
    FailuresAreShared(r, k, t, since);
  }

  // ---- a dial that is aborted ----

  /** Before event i, the abort of the dial with context ctx has started. */
  ghost predicate AbortStarted(r: Run, i: nat, ctx: CtxId) {
    exists k: nat :: k < i && k < |r.events| && r.events[k] == Env(AbortStart(ctx))
  }

  lemma {:induction false} AbortingIsStarted(r: Run, i: nat, ctx: CtxId)
    requires Valid(r) && i < |r.states|
    ensures ctx in r.states[i].sh.aborting <==> AbortStarted(r, i, ctx)
  {
    if i > 0 {
      AbortingIsStarted(r, i - 1, ctx);
      var s, e := r.states[i - 1], r.events[i - 1];
      assert Step(s, e) == Some(r.states[i]);
      if e.Act? {
        LeadsLocal(s.sh, e.t, s.threads[e.t], e.a, Local(s.sh, e.t, s.threads[e.t], e.a).value);
      }
      assert AbortStarted(r, i, ctx) <==> AbortStarted(r, i - 1, ctx) || e == Env(AbortStart(ctx));
    }
  }

  /** A finished handshake is discarded exactly if the abort of its dial has started: its connection is then
      closed and the dial fails, otherwise it is adopted. And a connection is adopted in no other way. */
  lemma AbortedDialIsDiscarded(r: Run, i: nat, t: Tid, ctx: CtxId, id: ConnId)
    requires Valid(r) && Takes(r, i, t, InDial(ctx, Dialing(Some(id))))
    ensures t in r.states[i + 1].threads
    ensures
      r.states[i + 1].threads[t].pc == InDial(ctx, if AbortStarted(r, i, ctx) then Failed else Adopting(id))
    ensures AbortStarted(r, i, ctx) ==> id !in r.states[i + 1].sh.open
  {
    AbortingIsStarted(r, i, ctx);
    assert Step(r.states[i], r.events[i]) == Some(r.states[i + 1]);
  }

  lemma AdoptedWasFinished(r: Run, i: nat, t: Tid, ctx: CtxId, id: ConnId) returns (k: nat)
    requires Valid(r) && Takes(r, i, t, InDial(ctx, Adopting(id)))
    ensures k < i && Takes(r, k, t, InDial(ctx, Dialing(Some(id)))) && !AbortStarted(r, k, ctx)
    ensures r.states[i + 1].sh.cli == Some(id) && r.states[i + 1].sh.state == ConnConnected
  {
    k := HowItCame(r, i, t);
    AbortingIsStarted(r, k, ctx);
    assert Step(r.states[i], r.events[i]) == Some(r.states[i + 1]);
  }

  // ---- who cancels a dial ----

  /** A step from pc cancels the dial with context ctx: its caller gives up, a Down finds it published, or it
      ends, or is refused by setAbort. */
  predicate CancelsDial(sh: Shared, pc: PC, a: Action, ctx: CtxId) {
    || (a.CallerCancel? && pc.InDial? && pc.ctx == ctx)
    || (a.Go? && pc.InDown? && pc.down.AbortCall? && sh.abort == Some(ctx))
    || (a.Go? && pc.InDial? && pc.ctx == ctx && (pc.d.ClearWrite? || (pc.d.PubCheck? && sh.held)))
  }

  ghost predicate CancelKept(sh: Shared, pc: PC, a: Action, sh': Shared) {
    forall c :: c in sh'.cancelled <==> c in sh.cancelled || CancelsDial(sh, pc, a, c)
  }

  lemma CancelGet(sh: Shared, t: Tid, th: Thread, g: GetPC, eff: Effect)
    requires th.pc == InGet(g) && GoGet(sh, t, th, g) == Some(eff)
    ensures CancelKept(sh, th.pc, Go, eff.sh)
  {
  }

  lemma CancelDial(sh: Shared, t: Tid, th: Thread, ctx: CtxId, d: DialPC, eff: Effect)
    requires th.pc == InDial(ctx, d) && GoDial(sh, t, th, ctx, d) == Some(eff)
    ensures CancelKept(sh, th.pc, Go, eff.sh)
  {
  }

  lemma CancelDecided(sh: Shared, th: Thread, a: Action, eff: Effect)
    requires Decided(sh, th, a) == Some(eff)
    ensures CancelKept(sh, th.pc, a, eff.sh)
  {
  }

  lemma CancelLocal(sh: Shared, t: Tid, th: Thread, a: Action, eff: Effect)
    requires Local(sh, t, th, a) == Some(eff)
    ensures CancelKept(sh, th.pc, a, eff.sh)
  {
    if !a.Go? {
      CancelDecided(sh, th, a, eff);
    } else {
      match th.pc
      case InGet(g) => CancelGet(sh, t, th, g, eff);
      case InDial(ctx, d) => CancelDial(sh, t, th, ctx, d, eff);
      case InDown(down) => assert GoDown(sh, t, th, down) == Some(eff);
      case InClose(close) => assert GoClose(sh, t, th, close) == Some(eff);
      case InDrop(id, drop) => assert GoDrop(sh, t, th, id, drop) == Some(eff);
      case _ => assert false;
    }
  }

  /** Event k cancels the dial with context ctx. */
  ghost predicate CancelsAt(r: Run, k: nat, ctx: CtxId) {
    k < |r.events| && k < |r.states| && CancelsEvent(r.states[k], r.events[k], ctx)
  }

  predicate CancelsEvent(s: State, e: Event, ctx: CtxId) {
    e.Act? && e.t in s.threads && CancelsDial(s.sh, s.threads[e.t].pc, e.a, ctx)
  }

  lemma CancelEvent(s: State, e: Event, s': State, ctx: CtxId)
    requires Step(s, e) == Some(s')
    ensures ctx in s'.sh.cancelled <==> ctx in s.sh.cancelled || CancelsEvent(s, e, ctx)
  {
    if e.Act? {
      CancelLocal(s.sh, e.t, s.threads[e.t], e.a, Local(s.sh, e.t, s.threads[e.t], e.a).value);
    }
  }

  /** A dial is cancelled exactly if its caller has given up, a Down has found it published, or its get is
      through with it. */
  lemma {:induction false} CancelledIsHistory(r: Run, i: nat, ctx: CtxId)
    requires Valid(r) && i < |r.states|
    ensures ctx in r.states[i].sh.cancelled <==> exists k: nat :: k < i && CancelsAt(r, k, ctx)
  {
    if i > 0 {
      CancelledIsHistory(r, i - 1, ctx);
      assert Step(r.states[i - 1], r.events[i - 1]) == Some(r.states[i]);
      CancelEvent(r.states[i - 1], r.events[i - 1], r.states[i], ctx);
      assert (exists k: nat :: k < i && CancelsAt(r, k, ctx)) <==>
        (exists k: nat :: k < i - 1 && CancelsAt(r, k, ctx)) || CancelsAt(r, i - 1, ctx);
    }
  }

  /** No abort starts for a dial that nobody has cancelled. */
  lemma {:induction false} AbortNeedsCancel(r: Run, i: nat, ctx: CtxId)
    requires Valid(r) && i < |r.states| && AbortStarted(r, i, ctx)
    ensures ctx in r.states[i].sh.cancelled
  {
    assert i > 0;
    assert Step(r.states[i - 1], r.events[i - 1]) == Some(r.states[i]);
    CancelEvent(r.states[i - 1], r.events[i - 1], r.states[i], ctx);
    if r.events[i - 1] != Env(AbortStart(ctx)) {
      AbortNeedsCancel(r, i - 1, ctx);
    }
  }

  /** And it can start as soon as somebody has. */
  lemma CancelStartsAbort(r: Run, i: nat, ctx: CtxId)
    requires Valid(r) && i < |r.states|
    ensures Step(r.states[i], Env(AbortStart(ctx))).Some? <==> exists k: nat :: k < i && CancelsAt(r, k, ctx)
  {
    CancelledIsHistory(r, i, ctx);
  }

  // ---- what State shows while a dial is in flight ----

  /** With event n a sign request begins, or the last one ends, or the dial is through. */
  ghost predicate Shows(r: Run, n: nat) { n < |r.events| && n < |r.states| && ShowsEvent(r.states[n], r.events[n]) }

  predicate ShowsEvent(s: State, e: Event) { e.Act? && e.t in s.threads && ShowsNew(s.threads[e.t].pc, e.a) }

  predicate ShowsNew(pc: PC, a: Action) {
    pc.InDial? && (a.Sign? || (a.Go? && (pc.d.Adopting? || pc.d.Failed?)))
  }

  /** Before event i, a sign request has begun, and neither it nor the dial has ended. */
  ghost predicate Prompting(r: Run, i: nat) {
    exists k: nat :: k < i && Shows(r, k) && r.events[k].a == Sign(true) && forall n :: k < n < i ==> !Shows(r, n)
  }

  lemma PromptGrows(r: Run, i: nat)
    ensures Prompting(r, i + 1) <==>
      if Shows(r, i) then r.events[i].a == Sign(true) else Prompting(r, i)
  {
    if !Shows(r, i) && Prompting(r, i) {
      var k: nat :| k < i && Shows(r, k) && r.events[k].a == Sign(true) && forall n :: k < n < i ==> !Shows(r, n);
      assert forall n :: k < n < i + 1 ==> !Shows(r, n);
    }
  }

  /** What a step from pc makes of State, as far as approvals go. */
  predicate ShownAfter(sh: Shared, pc: PC, a: Action, sh': Shared) {
    sh'.state.ConnAwaitingApproval? <==> if ShowsNew(pc, a) then a == Sign(true) else sh.state.ConnAwaitingApproval?
  }

  lemma ShownGet(sh: Shared, t: Tid, th: Thread, g: GetPC, eff: Effect)
    requires GetOk(sh, t, g) && th.pc == InGet(g) && GoGet(sh, t, th, g) == Some(eff)
    ensures ShownAfter(sh, th.pc, Go, eff.sh)
  {
  }

  lemma ShownDial(sh: Shared, t: Tid, th: Thread, ctx: CtxId, d: DialPC, eff: Effect)
    requires DialOk(sh, t, ctx, d) && th.pc == InDial(ctx, d) && GoDial(sh, t, th, ctx, d) == Some(eff)
    ensures ShownAfter(sh, th.pc, Go, eff.sh)
  {
  }

  lemma ShownDown(sh: Shared, t: Tid, th: Thread, down: DownPC, eff: Effect)
    requires DownOk(sh, t, down) && th.pc == InDown(down) && GoDown(sh, t, th, down) == Some(eff)
    ensures ShownAfter(sh, th.pc, Go, eff.sh)
  {
  }

  lemma ShownClose(sh: Shared, t: Tid, th: Thread, close: ClosePC, eff: Effect)
    requires PcOk(sh, t, InClose(close)) && th.pc == InClose(close) && GoClose(sh, t, th, close) == Some(eff)
    ensures ShownAfter(sh, th.pc, Go, eff.sh)
  {
  }

  lemma ShownDrop(sh: Shared, t: Tid, th: Thread, id: ConnId, drop: DropPC, eff: Effect)
    requires DropOk(sh, t, id, drop) && th.pc == InDrop(id, drop) && GoDrop(sh, t, th, id, drop) == Some(eff)
    ensures ShownAfter(sh, th.pc, Go, eff.sh)
  {
  }

  lemma ShownDecided(sh: Shared, th: Thread, a: Action, eff: Effect)
    requires Decided(sh, th, a) == Some(eff)
    ensures ShownAfter(sh, th.pc, a, eff.sh)
  {
  }

  lemma ShownStep(sh: Shared, t: Tid, th: Thread, a: Action, eff: Effect)
    requires PcOk(sh, t, th.pc) && Local(sh, t, th, a) == Some(eff)
    ensures ShownAfter(sh, th.pc, a, eff.sh)
  {
    if !a.Go? {
      ShownDecided(sh, th, a, eff);
    } else {
      match th.pc
      case InGet(g) => ShownGet(sh, t, th, g, eff);
      case InDial(ctx, d) => ShownDial(sh, t, th, ctx, d, eff);
      case InDown(down) => ShownDown(sh, t, th, down, eff);
      case InClose(close) => ShownClose(sh, t, th, close, eff);
      case InDrop(id, drop) => ShownDrop(sh, t, th, id, drop, eff);
      case _ => assert false;
    }
  }

  /** State is AwaitingApproval exactly while a sign request of the dial in flight is pending. */
  lemma {:induction false} ApprovalIsShown(r: Run, i: nat)
    requires Valid(r) && i < |r.states|
    ensures r.states[i].sh.state.ConnAwaitingApproval? <==> Prompting(r, i)
  {
    if i > 0 {
      ApprovalIsShown(r, i - 1);
      PromptGrows(r, i - 1);
      ShownAt(r, i - 1);
    }
  }

  lemma ShownAt(r: Run, i: nat)
    requires Valid(r) && i < |r.events|
    ensures r.states[i + 1].sh.state.ConnAwaitingApproval? <==>
      if Shows(r, i) then r.events[i].a == Sign(true) else r.states[i].sh.state.ConnAwaitingApproval?
  {
    InvAt(r, i);
    assert Step(r.states[i], r.events[i]) == Some(r.states[i + 1]);
    ShownEvent(r.states[i], r.events[i], r.states[i + 1]);
  }

  lemma ShownEvent(s: State, e: Event, s': State)
    requires Inv(s) && Step(s, e) == Some(s')
    ensures s'.sh.state.ConnAwaitingApproval? <==>
      if ShowsEvent(s, e) then e.a == Sign(true) else s.sh.state.ConnAwaitingApproval?
  {
    if e.Act? {
      assert ThreadOk(s.sh, e.t, s.threads[e.t]);
      ShownStep(s.sh, e.t, s.threads[e.t], e.a, Local(s.sh, e.t, s.threads[e.t], e.a).value);
    }
  }

  // ---- DialContext ----

  /** Event k opens a channel for t, on the connection id, with this outcome; n were opened before. */
  ghost predicate Opens(r: Run, k: nat, t: Tid, id: ConnId, outcome: Outcome, n: nat) {
    && k < |r.events| && k < |r.states| && r.events[k] == Act(t, Channel(outcome)) && t in r.states[k].threads
    && r.states[k].threads[t].pc == ChannelOpen(id) && |r.states[k].threads[t].tried| == n
  }

  /** What a DialContext that is through with the opens so far has met: it has ended with the outcome of its
      last open, or goes on because its first was broken. */
  ghost predicate Met(r: Run, i: nat, t: Tid, th: Thread) {
    && (forall id :: th.pc == Done(ChannelOpened(id)) ==> exists k: nat, n :: k < i && Opens(r, k, t, id, Opened, n))
    && (th.pc == Done(ChannelFailed) ==>
          exists k: nat, id, outcome, n :: k < i && Opens(r, k, t, id, outcome, n) &&
            (outcome.Final? || (outcome.Broken? && n > 0)))
    && (th.tried != [] && !Over(th.pc) ==> exists k: nat, id :: k < i && Opens(r, k, t, id, Broken, 0))
  }

  predicate Over(pc: PC) { pc.Done? && (pc.r.ChannelOpened? || pc.r.ChannelFailed?) }

  /** Only an open adds to those tried, or ends a call with its outcome. */
  predicate Tries(th: Thread, a: Action, th': Thread) {
    if a.Channel? then
      th.pc.ChannelOpen? && (a.outcome.Broken? && |th.tried| == 0 ==> !th'.pc.Done?)
      && (Over(th'.pc) ==> th'.pc.r == if a.outcome.Opened? then ChannelOpened(th.pc.id) else ChannelFailed)
      && (!Over(th'.pc) ==> a.outcome.Broken? && th.tried == [])
    else th'.tried == th.tried && !Over(th.pc) && !Over(th'.pc)
  }

  lemma TriesLocal(sh: Shared, t: Tid, th: Thread, a: Action, eff: Effect)
    requires PcOk(sh, t, th.pc) && Local(sh, t, th, a) == Some(eff)
    ensures Tries(th, a, eff.th)
  {
  }

  lemma TriesAct(s: State, t: Tid, a: Action, s': State)
    requires Inv(s) && Step(s, Act(t, a)) == Some(s')
    ensures Tries(s.threads[t], a, s'.threads[t])
    ensures forall u :: u in s'.threads && u != t ==>
      if u in s.threads then s'.threads[u] == s.threads[u] else s'.threads[u].tried == [] && !Over(s'.threads[u].pc)
  {
    assert ThreadOk(s.sh, t, s.threads[t]);
    var eff := Local(s.sh, t, s.threads[t], a).value;
    TriesLocal(s.sh, t, s.threads[t], a, eff);
    if eff.spawn.Some? {
      SpawnFresh(s, t, a, eff);
    }
  }

  lemma MetLater(r: Run, i: nat, t: Tid, th: Thread)
    requires Met(r, i, t, th)
    ensures Met(r, i + 1, t, th)
  {
  }

  /** A DialContext returns what its last channel open has brought, and tries again only after a broken first
      one. */
  lemma {:induction false} ChannelOutcome(r: Run, i: nat, t: Tid)
    requires Valid(r) && i < |r.states| && t in r.states[i].threads
    ensures Met(r, i, t, r.states[i].threads[t])
  {
    if i > 0 {
      InvAt(r, i - 1);
      assert Step(r.states[i - 1], r.events[i - 1]) == Some(r.states[i]);
      if t in r.states[i - 1].threads {
        ChannelOutcome(r, i - 1, t);
        MetLater(r, i - 1, t, r.states[i - 1].threads[t]);
      }
      MetStep(r, i - 1, t);
    }
  }

  lemma MetStep(r: Run, i: nat, t: Tid)
    requires i < |r.events| && i + 1 < |r.states| && t in r.states[i + 1].threads
    requires Inv(r.states[i]) && Step(r.states[i], r.events[i]) == Some(r.states[i + 1])
    requires t in r.states[i].threads ==> Met(r, i + 1, t, r.states[i].threads[t])
    ensures Met(r, i + 1, t, r.states[i + 1].threads[t])
  {
    var s, e := r.states[i], r.events[i];
    if e.Act? {
      TriesAct(s, e.t, e.a, r.states[i + 1]);
      if e.t == t && e.a.Channel? {
        assert Opens(r, i, t, s.threads[t].pc.id, e.a.outcome, |s.threads[t].tried|);
      }
    }
  }
}
