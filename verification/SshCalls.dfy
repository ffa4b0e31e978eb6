/** The SSH client's protocol as its callers see it: no call is ever stuck, and where a method that runs alone
    stands for its steps. */
module SshCalls {
  import opened ConnTypes
  import opened SshMachine
  import opened SshInvariant
  import opened SshRuns
  import Client = SshClient

  // ---- progress ----

  /** The goroutine at pc has ended, or watches a connection that is open. */
  predicate AtRest(sh: Shared, pc: PC) { pc.Done? || (pc.InDrop? && pc.drop.Watch? && pc.id in sh.open) }

  /** Some goroutine can go on: with its own next step, or with the outcome of the dial or channel open it
      waits for. */
  ghost predicate Moves(s: State) {
    exists t, a: Action :: t in s.threads && !a.CallerCancel? && !a.Sign? && Step(s, Act(t, a)).Some?
  }

  lemma MovesBy(s: State, t: Tid, a: Action)
    requires t in s.threads && !a.CallerCancel? && !a.Sign? && Local(s.sh, t, s.threads[t], a).Some?
    ensures Moves(s)
  {
    assert Step(s, Act(t, a)).Some?;
  }

  /** The holder of abortMu waits for nothing. */
  lemma AbortHolderMoves(s: State)
    requires Inv(s) && s.sh.abortMu.Some?
    ensures Moves(s)
  {
    var t := s.sh.abortMu.value;
    assert ThreadOk(s.sh, t, s.threads[t]);
    MovesBy(s, t, Go);
  }

  /** Nor does the holder of mu, but for abortMu and the dial. */
  lemma HolderMoves(s: State)
    requires Inv(s) && s.sh.abortMu == None && s.sh.mu.Some?
    ensures Moves(s)
  {
    var t := s.sh.mu.value;
    var pc := s.threads[t].pc;
    assert ThreadOk(s.sh, t, s.threads[t]);
    MovesBy(s, t, if pc.InDial? && pc.d == Dialing(None) then Connect else Go);
  }

  lemma OthersMove(s: State, t: Tid)
    requires Inv(s) && s.sh.abortMu == None && s.sh.mu == None && t in s.threads && !AtRest(s.sh, s.threads[t].pc)
    ensures Moves(s)
  {
    assert ThreadOk(s.sh, t, s.threads[t]);
    MovesBy(s, t, if s.threads[t].pc.ChannelOpen? then Channel(Opened) else Go);
  }

  /** Progress: in every run, while some call has not returned, some goroutine can go on. */
  lemma NobodyIsStuck(r: Run, i: nat, t: Tid)
    requires Valid(r) && i < |r.states| && t in r.states[i].threads
    requires !AtRest(r.states[i].sh, r.states[i].threads[t].pc)
    ensures Moves(r.states[i])
  {
    InvAt(r, i);
    if r.states[i].sh.abortMu.Some? {
      AbortHolderMoves(r.states[i]);
    } else if r.states[i].sh.mu.Some? {
      HolderMoves(r.states[i]);
    } else {
      OthersMove(r.states[i], t);
    }
  }

  // ---- what each call does, and how it ends ----

  /** The points a call of this kind may be at, and the results it may end with. */
  predicate Does(op: Op, pc: PC) {
    match op
    case OpGet => pc.InGet? || pc.InDial? || (pc.Done? && (pc.r.Conn? || IsRefusal(pc.r)))
    case OpUp => pc.InGet? || pc.InDial? || (pc.Done? && (pc.r.Conn? || IsRefusal(pc.r)))
    case OpDown => pc.InDown? || pc == Done(Nothing)
    case OpClose => pc.InClose? || pc == Done(Nothing)
    case OpDialContext =>
      pc.InGet? || pc.InDial? || pc.ChannelOpen? || pc.InDrop? ||
      (pc.Done? && (pc.r.ChannelOpened? || pc.r.ChannelFailed? || IsRefusal(pc.r)))
    case OpWatch => pc.InDrop? || pc == Done(Nothing)
  }

  predicate IsRefusal(r: Result) { r.ErrDisconnected? || r.DialError? }

  /** Only watchers watch, each its own connection. */
  predicate DoesWell(t: Tid, th: Thread) {
    && Does(th.op, th.pc)
    && (t.Watcher? <==> th.op.OpWatch?)
    && (t.Watcher? && th.pc.InDrop? ==> th.pc.id == t.conn)
  }

  lemma DoesGet(sh: Shared, t: Tid, th: Thread, g: GetPC, eff: Effect)
    requires GetOk(sh, t, g) && th.pc == InGet(g) && GoGet(sh, t, th, g) == Some(eff) && DoesWell(t, th)
    ensures DoesWell(t, eff.th)
  {
  }

  lemma DoesDial(sh: Shared, t: Tid, th: Thread, ctx: CtxId, d: DialPC, eff: Effect)
    requires th.pc == InDial(ctx, d) && GoDial(sh, t, th, ctx, d) == Some(eff) && DoesWell(t, th)
    ensures DoesWell(t, eff.th)
  {
  }

  lemma DoesDecided(sh: Shared, t: Tid, th: Thread, a: Action, eff: Effect)
    requires Decided(sh, th, a) == Some(eff) && DoesWell(t, th)
    ensures DoesWell(t, eff.th)
  {
  }

  lemma DoesLocal(sh: Shared, t: Tid, th: Thread, a: Action, eff: Effect)
    requires PcOk(sh, t, th.pc) && Local(sh, t, th, a) == Some(eff) && DoesWell(t, th)
    ensures DoesWell(t, eff.th)
  {
    if !a.Go? {
      DoesDecided(sh, t, th, a, eff);
    } else {
      match th.pc
      case InGet(g) => DoesGet(sh, t, th, g, eff);
      case InDial(ctx, d) => DoesDial(sh, t, th, ctx, d, eff);
      case InDown(down) => assert GoDown(sh, t, th, down) == Some(eff);
      case InClose(close) => assert GoClose(sh, t, th, close) == Some(eff);
      case InDrop(id, drop) => assert GoDrop(sh, t, th, id, drop) == Some(eff);
      case _ => assert false;
    }
  }

  /** Every connection ever adopted has a watcher, and while it is cli that watcher has yet to drop it. */
  ghost predicate Watched(s: State) {
    && (forall id :: id in s.sh.adopted ==> Watcher(id) in s.threads)
    && (s.sh.cli.Some? ==> Watcher(s.sh.cli.value) in s.threads && s.threads[Watcher(s.sh.cli.value)].pc.InDrop?)
  }

  ghost predicate AllDoWell(s: State) {
    (forall t :: t in s.threads ==> DoesWell(t, s.threads[t])) && Watched(s)
  }

  /** What a step makes of cli: nothing, its own new connection with a watcher, or none. */
  predicate CliKept(sh: Shared, pc: PC, eff: Effect) {
    && (eff.sh.adopted == sh.adopted || (eff.spawn.Some? && eff.sh.adopted == sh.adopted + {eff.spawn.value}))
    && (eff.sh.cli == sh.cli || eff.sh.cli == None || eff.sh.cli == eff.spawn)
    && (pc.InDrop? && !eff.th.pc.InDrop? ==> eff.sh.cli != Some(pc.id))
  }

  lemma CliGet(sh: Shared, t: Tid, th: Thread, g: GetPC, eff: Effect)
    requires th.pc == InGet(g) && GoGet(sh, t, th, g) == Some(eff)
    ensures CliKept(sh, th.pc, eff)
  {
  }

  lemma CliDial(sh: Shared, t: Tid, th: Thread, ctx: CtxId, d: DialPC, eff: Effect)
    requires th.pc == InDial(ctx, d) && GoDial(sh, t, th, ctx, d) == Some(eff)
    ensures CliKept(sh, th.pc, eff)
  {
  }

  lemma CliLocal(sh: Shared, t: Tid, th: Thread, a: Action, eff: Effect)
    requires Local(sh, t, th, a) == Some(eff)
    ensures CliKept(sh, th.pc, eff)
  {
    if a.Go? {
      match th.pc
      case InGet(g) => CliGet(sh, t, th, g, eff);
      case InDial(ctx, d) => CliDial(sh, t, th, ctx, d, eff);
      case InDown(down) => assert GoDown(sh, t, th, down) == Some(eff);
      case InClose(close) => assert GoClose(sh, t, th, close) == Some(eff);
      case InDrop(id, drop) => assert GoDrop(sh, t, th, id, drop) == Some(eff);
      case _ => assert false;
    }
  }

  lemma DoesAct(s: State, t: Tid, a: Action, s': State)
    requires Inv(s) && AllDoWell(s) && Step(s, Act(t, a)) == Some(s')
    ensures AllDoWell(s')
  {
    assert ThreadOk(s.sh, t, s.threads[t]);
    var eff := Local(s.sh, t, s.threads[t], a).value;
    DoesLocal(s.sh, t, s.threads[t], a, eff);
    CliLocal(s.sh, t, s.threads[t], a, eff);
    if eff.spawn.Some? {
      SpawnFresh(s, t, a, eff);
    }
    DoneDropped(s, t, eff);
  }

  /** A watcher that ends leaves its connection dropped. */
  lemma DoneDropped(s: State, t: Tid, eff: Effect)
    requires AllDoWell(s) && t in s.threads && DoesWell(t, eff.th) && CliKept(s.sh, s.threads[t].pc, eff)
    requires eff.spawn.Some? ==> Watcher(eff.spawn.value) !in s.threads
    ensures Watched(State(Tick(eff.sh), Put(s.threads, t, eff)))
  {
    assert DoesWell(t, s.threads[t]);
  }

  lemma DoesStep(s: State, e: Event, s': State)
    requires Inv(s) && AllDoWell(s) && Step(s, e) == Some(s')
    ensures AllDoWell(s')
  {
    if e.Act? {
      DoesAct(s, e.t, e.a, s');
    } else {
      DoesArrival(s, e, s');
    }
  }

  lemma DoesArrival(s: State, e: Event, s': State)
    requires AllDoWell(s) && Step(s, e) == Some(s') && !e.Act?
    ensures AllDoWell(s')
  {
  }

  /** In every run each call is where its kind belongs and ends with a result of its kind, no goroutine but a
      watcher watches, and the current connection has a watcher that has yet to drop it: with the progress of
      the watcher, a connection that has died does not stay. */
  lemma {:induction false} CallsDoWell(r: Run, i: nat)
    requires Valid(r) && i < |r.states|
    ensures AllDoWell(r.states[i])
  {
    if i > 0 {
      CallsDoWell(r, i - 1);
      InvAt(r, i - 1);
      assert Step(r.states[i - 1], r.events[i - 1]) == Some(r.states[i]);
      DoesStep(r.states[i - 1], r.events[i - 1], r.states[i]);
    }
  }

  /** A connection that has been current and died, or been closed, never is open again. */
  lemma {:induction false} DeadStaysDead(r: Run, k: nat, i: nat, id: ConnId)
    requires Valid(r) && k < i < |r.states| && r.events[k] == Env(ConnDies(id)) && id in r.states[k].sh.adopted
    ensures id in r.states[i].sh.adopted && id !in r.states[i].sh.open
    decreases i
  {
    InvAt(r, i - 1);
    assert Step(r.states[i - 1], r.events[i - 1]) == Some(r.states[i]);
    if i > k + 1 {
      DeadStaysDead(r, k, i - 1, id);
      OpenShrinks(r.states[i - 1], r.events[i - 1], r.states[i], id);
    }
  }

  lemma OpenShrinks(s: State, e: Event, s': State, id: ConnId)
    requires Inv(s) && Step(s, e) == Some(s') && id in s.sh.adopted && id !in s.sh.open
    ensures id in s'.sh.adopted && id !in s'.sh.open
  {
    if e.Act? {
      assert ThreadOk(s.sh, e.t, s.threads[e.t]);
      OpenLocal(s.sh, e.t, s.threads[e.t], e.a, Local(s.sh, e.t, s.threads[e.t], e.a).value, id);
    }
  }

  lemma OpenLocal(sh: Shared, t: Tid, th: Thread, a: Action, eff: Effect, id: ConnId)
    requires SharedOk(sh) && PcOk(sh, t, th.pc) && Local(sh, t, th, a) == Some(eff)
    requires id in sh.adopted && id !in sh.open
    ensures id in eff.sh.adopted && id !in eff.sh.open
  {
    LocalStep(sh, t, th, a, eff);
    var someone := if t == Call(0) then Call(1) else Call(0);
    assert Rely(someone, sh, Tick(eff.sh));
  }

  // ---- methods that run alone ----

  /** Every context made is cancelled, or that of a get past its checks. */
  ghost predicate AllUsed(s: State) { forall c: CtxId :: c < s.sh.nextCtx ==> c in s.sh.cancelled || InUse(s, c) }

  /** No context that has yet to be made is in use. */
  ghost predicate CtxOk(s: State) {
    && (forall c :: c in s.sh.cancelled || c in s.sh.aborting ==> c < s.sh.nextCtx)
    && (s.sh.abort.Some? ==> s.sh.abort.value < s.sh.nextCtx)
    && (forall t :: t in s.threads && s.threads[t].pc.InDial? ==> s.threads[t].pc.ctx < s.sh.nextCtx)
  }

  ghost predicate InUse(s: State, c: CtxId) {
    exists t :: t in s.threads && s.threads[t].pc.InDial? && s.threads[t].pc.ctx == c
  }

  /** A step makes the next context, and publishes or cancels only its own or the published one. */
  predicate CtxKept(sh: Shared, pc: PC, eff: Effect) {
    && sh.nextCtx <= eff.sh.nextCtx && eff.sh.aborting == sh.aborting
    && (eff.sh.abort.Some? ==> eff.sh.abort == sh.abort || (pc.InDial? && eff.sh.abort.value == pc.ctx))
    && (eff.sh.cancelled == sh.cancelled
        || (sh.abort.Some? && eff.sh.cancelled == sh.cancelled + {sh.abort.value})
        || (pc.InDial? && eff.sh.cancelled == sh.cancelled + {pc.ctx}))
    && (eff.th.pc.InDial? ==>
          || (pc.InDial? && eff.th.pc.ctx == pc.ctx)
          || (eff.th.pc.ctx == sh.nextCtx && sh.nextCtx < eff.sh.nextCtx))
    && (eff.sh.nextCtx != sh.nextCtx ==> eff.sh.nextCtx == sh.nextCtx + 1 && eff.th.pc.InDial? && !pc.InDial?)
    && (pc.InDial? ==> eff.th.pc.InDial? || pc.ctx in eff.sh.cancelled)
  }

  lemma CtxGet(sh: Shared, t: Tid, th: Thread, g: GetPC, eff: Effect)
    requires th.pc == InGet(g) && GoGet(sh, t, th, g) == Some(eff)
    ensures CtxKept(sh, th.pc, eff)
  {
  }

  lemma CtxDial(sh: Shared, t: Tid, th: Thread, ctx: CtxId, d: DialPC, eff: Effect)
    requires th.pc == InDial(ctx, d) && GoDial(sh, t, th, ctx, d) == Some(eff)
    ensures CtxKept(sh, th.pc, eff)
  {
  }

  lemma CtxDown(sh: Shared, t: Tid, th: Thread, down: DownPC, eff: Effect)
    requires th.pc == InDown(down) && GoDown(sh, t, th, down) == Some(eff)
    ensures CtxKept(sh, th.pc, eff)
  {
  }

  lemma CtxDrop(sh: Shared, t: Tid, th: Thread, id: ConnId, drop: DropPC, eff: Effect)
    requires th.pc == InDrop(id, drop) && GoDrop(sh, t, th, id, drop) == Some(eff)
    ensures CtxKept(sh, th.pc, eff)
  {
  }

  lemma CtxDecided(sh: Shared, th: Thread, a: Action, eff: Effect)
    requires Decided(sh, th, a) == Some(eff)
    ensures CtxKept(sh, th.pc, eff)
  {
  }

  lemma CtxLocal(sh: Shared, t: Tid, th: Thread, a: Action, eff: Effect)
    requires Local(sh, t, th, a) == Some(eff)
    ensures CtxKept(sh, th.pc, eff)
  {
    if !a.Go? {
      CtxDecided(sh, th, a, eff);
    } else if th.pc.InGet? {
      CtxGet(sh, t, th, th.pc.g, eff);
    } else if th.pc.InDial? {
      CtxDial(sh, t, th, th.pc.ctx, th.pc.d, eff);
    } else if th.pc.InDown? {
      CtxDown(sh, t, th, th.pc.down, eff);
    } else if th.pc.InDrop? {
      CtxDrop(sh, t, th, th.pc.id, th.pc.drop, eff);
    }
  }

  lemma CtxStep(s: State, e: Event, s': State)
    requires CtxOk(s) && Step(s, e) == Some(s')
    ensures CtxOk(s')
  {
    if e.Act? {
      CtxLocal(s.sh, e.t, s.threads[e.t], e.a, Local(s.sh, e.t, s.threads[e.t], e.a).value);
    }
  }

  lemma UsedStep(s: State, e: Event, s': State)
    requires Inv(s) && AllUsed(s) && Step(s, e) == Some(s')
    ensures AllUsed(s')
  {
    if e.Act? {
      UsedAct(s, e.t, e.a, s');
    } else {
      UsedArrival(s, e, s');
    }
  }

  lemma UsedArrival(s: State, e: Event, s': State)
    requires AllUsed(s) && Step(s, e) == Some(s') && !e.Act?
    ensures AllUsed(s')
  {
    assert s'.sh.nextCtx == s.sh.nextCtx && s'.sh.cancelled == s.sh.cancelled;
    forall c | InUse(s, c) ensures InUse(s', c) {
      var u :| u in s.threads && s.threads[u].pc.InDial? && s.threads[u].pc.ctx == c;
      assert s'.threads[u] == s.threads[u];
    }
  }

  lemma UsedAct(s: State, t: Tid, a: Action, s': State)
    requires Inv(s) && AllUsed(s) && Step(s, Act(t, a)) == Some(s')
    ensures AllUsed(s')
  {
    var eff := Local(s.sh, t, s.threads[t], a).value;
    CtxLocal(s.sh, t, s.threads[t], a, eff);
    if eff.spawn.Some? {
      SpawnFresh(s, t, a, eff);
    }
    forall c: CtxId | c < s'.sh.nextCtx ensures c in s'.sh.cancelled || InUse(s', c) {
      StillUsed(s, t, eff, c);
    }
  }

  lemma StillUsed(s: State, t: Tid, eff: Effect, c: CtxId)
    requires t in s.threads && CtxKept(s.sh, s.threads[t].pc, eff)
    requires eff.spawn.Some? ==> Watcher(eff.spawn.value) !in s.threads
    requires c < s.sh.nextCtx ==> c in s.sh.cancelled || InUse(s, c)
    requires c < eff.sh.nextCtx
    ensures c in eff.sh.cancelled || InUse(State(Tick(eff.sh), Put(s.threads, t, eff)), c)
  {
    var s' := State(Tick(eff.sh), Put(s.threads, t, eff));
    assert s'.threads[t] == eff.th;
    if c < s.sh.nextCtx && c !in s.sh.cancelled {
      var u :| u in s.threads && s.threads[u].pc.InDial? && s.threads[u].pc.ctx == c;
      assert u != t ==> s'.threads[u] == s.threads[u];
    }
  }

  lemma {:induction false} CtxAt(r: Run, i: nat)
    requires Valid(r) && i < |r.states|
    ensures CtxOk(r.states[i]) && AllUsed(r.states[i])
  {
    if i > 0 {
      CtxAt(r, i - 1);
      assert Step(r.states[i - 1], r.events[i - 1]) == Some(r.states[i]);
      InvAt(r, i - 1);
      UsedStep(r.states[i - 1], r.events[i - 1], r.states[i]);
      CtxStep(r.states[i - 1], r.events[i - 1], r.states[i]);
    }
  }

  /** No context outlives its get: while mu is free, every context that a get has made is cancelled. */
  lemma NoContextIsLeft(r: Run, i: nat, c: CtxId)
    requires Valid(r) && i < |r.states| && c < r.states[i].sh.nextCtx && r.states[i].sh.mu == None
    ensures c in r.states[i].sh.cancelled
  {
    CtxAt(r, i);
    InvAt(r, i);
    forall u | u in r.states[i].threads ensures !r.states[i].threads[u].pc.InDial? {
      assert ThreadOk(r.states[i].sh, u, r.states[i].threads[u]);
    }
  }

  /** At every state of a run at which both locks are free, what the step lemmas of Get, Up and DialContext ask
      of the contexts holds: a get that waits for mu and then runs alone does what the method Get does, and so
      for the others. */
  lemma GetInRun(r: Run, i: nat, t: Tid, op: Op, tried: seq<ConnId>, queued: nat, outcome: Client.Dialled)
    requires Valid(r) && i < |r.states| && Client.Unlocked(r.states[i].sh) && Client.Gets(op)
    ensures
      var sh := r.states[i].sh;
      && (forall c :: c in sh.cancelled || c in sh.aborting ==> c < sh.nextCtx)
      && var (sh', result) := Client.GetAlone(sh, op.OpUp?, queued, outcome);
         Client.Reaches(sh, t, Thread(op, InGet(Wait(queued)), tried), sh', Thread(op, Client.Got(op, result), tried))
  {
    CtxAt(r, i);
    Client.GetIsItsSteps(r.states[i].sh, t, op, tried, queued, outcome);
  }
}
