/** What every step of the SSH connection protocol keeps, for any number of goroutines: an assertion
    at every program point, proved stable under the steps of every other goroutine and of the world. */
module SshInvariant {
  import opened ConnTypes
  import opened SshMachine

  predicate InFlight(state: ConnState) { state.ConnConnecting? || state.ConnAwaitingApproval? }

  /** No connection is open but conn. */
  predicate OnlyOpen(sh: Shared, conn: Option<ConnId>) {
    forall id :: id in sh.open ==> conn == Some(id)
  }

  /** State mirrors cli, and nothing but cli is open. */
  predicate Settled(sh: Shared) {
    && (sh.state.ConnConnected? <==> sh.cli.Some?)
    && !InFlight(sh.state)
    && OnlyOpen(sh, sh.cli)
  }

  /** State reports an attempt, there is no cli, and nothing but the dial's own connection is open. */
  predicate Attempting(sh: Shared, conn: Option<ConnId>) {
    && InFlight(sh.state)
    && sh.cli == None
    && OnlyOpen(sh, conn)
    && (conn.Some? ==> conn.value < sh.nextConn && conn.value !in sh.adopted)
  }

  /** An Up has cleared held after the given time. */
  predicate Cleared(sh: Shared, at: nat) { sh.clearedAt.Some? && sh.clearedAt.value > at }

  /** What a Down that set held at the given time can rely on. */
  predicate Held(sh: Shared, at: nat) { at < sh.now && (sh.held || Cleared(sh, at)) }

  /** The published dial is cancelled, unless an Up came after the Down that set held at the given time. */
  predicate Aborted(sh: Shared, at: nat) {
    sh.abort.Some? ==> sh.abort.value in sh.cancelled || Cleared(sh, at)
  }

  predicate Locks(sh: Shared, t: Tid, mu: bool, abortMu: bool) {
    && (sh.mu == Some(t) <==> mu)
    && (sh.abortMu == Some(t) <==> abortMu)
  }

  predicate ResultOk(sh: Shared, r: Result) {
    match r
    case Conn(id) => id in sh.adopted && sh.cli == Some(id)
    case ErrDisconnected => true
    case DialError(_) => true
    case _ => false
  }

  /** Between lock and unlock of mu, with nothing or the context pub published. */
  predicate Inside(sh: Shared, t: Tid, pub: Option<CtxId>) { Locks(sh, t, true, false) && sh.abort == pub }
  predicate InsideBoth(sh: Shared, t: Tid, pub: Option<CtxId>) { Locks(sh, t, true, true) && sh.abort == pub }
  predicate Outside(sh: Shared, t: Tid) { Locks(sh, t, false, false) }

  predicate GetOk(sh: Shared, t: Tid, g: GetPC) {
    match g
    case UpClear => Outside(sh, t)
    case Stamp => Outside(sh, t)
    case Wait(since) => Outside(sh, t) && since < sh.now
    case CheckHeld(since) => Inside(sh, t, None) && Settled(sh) && since < sh.now
    case CheckCli(since) => Inside(sh, t, None) && Settled(sh) && since < sh.now
    case CheckManual(since) => Inside(sh, t, None) && Settled(sh) && since < sh.now && sh.cli == None
    case CheckShared(since) => Inside(sh, t, None) && Settled(sh) && since < sh.now && sh.cli == None
    case Unlock(r) => Inside(sh, t, None) && Settled(sh) && ResultOk(sh, r)
  }

  predicate DialOk(sh: Shared, t: Tid, ctx: CtxId, d: DialPC) {
    match d
    case PubLock => Inside(sh, t, None) && Settled(sh) && sh.cli == None
    case PubCheck => InsideBoth(sh, t, None) && Settled(sh) && sh.cli == None
    case PubWrite => InsideBoth(sh, t, None) && Settled(sh) && sh.cli == None
    case Announce => Inside(sh, t, Some(ctx)) && Settled(sh) && sh.cli == None
    case Dialing(conn) => Inside(sh, t, Some(ctx)) && Attempting(sh, conn)
    case Adopting(id) => Inside(sh, t, Some(ctx)) && Attempting(sh, Some(id))
    case Failed => Inside(sh, t, Some(ctx)) && Attempting(sh, None)
    case Record => Inside(sh, t, Some(ctx)) && Settled(sh) && sh.cli == None
    case ClearLock(r) => Inside(sh, t, Some(ctx)) && Settled(sh) && ResultOk(sh, r)
    case ClearWrite(r) => InsideBoth(sh, t, Some(ctx)) && Settled(sh) && ResultOk(sh, r)
  }

  predicate DownOk(sh: Shared, t: Tid, down: DownPC) {
    match down
    case Hold => Outside(sh, t)
    case AbortLock(at) => Outside(sh, t) && Held(sh, at)
    case AbortCall(at) => Locks(sh, t, false, true) && Held(sh, at)
    case DownWait(at) => Outside(sh, t) && Held(sh, at)
    case DownLocked(at) => Inside(sh, t, None) && Settled(sh) && Held(sh, at)
  }

  predicate DropOk(sh: Shared, t: Tid, id: ConnId, drop: DropPC) {
    && id in sh.adopted
    && match drop
       case Watch => Outside(sh, t)
       case Shut => Outside(sh, t)
       case DropWait => Outside(sh, t) && id !in sh.open
       case DropLocked => Inside(sh, t, None) && Settled(sh) && id !in sh.open
  }

  /** The assertion at goroutine t's program point. */
  predicate PcOk(sh: Shared, t: Tid, pc: PC) {
    match pc
    case InGet(g) => GetOk(sh, t, g)
    case InDial(ctx, d) => DialOk(sh, t, ctx, d)
    case InDown(down) => DownOk(sh, t, down)
    case InClose(CloseWait) => Outside(sh, t)
    case InClose(CloseLocked) => Inside(sh, t, None) && Settled(sh)
    case InDrop(id, drop) => DropOk(sh, t, id, drop)
    case ChannelOpen(id) => Outside(sh, t) && id in sh.adopted
    case Done(_) => Outside(sh, t)
  }

  predicate SharedOk(sh: Shared) {
    && (sh.mu == None ==> sh.abort == None && Settled(sh))
    && (forall id :: id in sh.adopted ==> id < sh.nextConn)
    && (forall id :: id in sh.open ==> id < sh.nextConn)
    && (sh.cli.Some? ==> sh.cli.value in sh.adopted)
    && (sh.lastErr.Some? ==> sh.lastErr.value.at < sh.now)
    && (sh.clearedAt.Some? ==> sh.clearedAt.value < sh.now)
  }

  /** What goroutine t may rely on when another goroutine, or the world, takes sh to sh'. */
  predicate Rely(t: Tid, sh: Shared, sh': Shared) {
    && (sh'.mu == Some(t) <==> sh.mu == Some(t))
    && (sh'.abortMu == Some(t) <==> sh.abortMu == Some(t))
    && (sh.mu == Some(t) ==>
          sh'.cli == sh.cli && sh'.abort == sh.abort && sh'.state == sh.state && sh'.adopted == sh.adopted &&
          sh'.nextConn == sh.nextConn && sh'.lastErr == sh.lastErr && sh'.open <= sh.open)
    && sh.adopted <= sh'.adopted
    && (forall id :: id in sh.adopted && id !in sh.open ==> id !in sh'.open)
    && (forall id :: id in sh.adopted && sh.cli != Some(id) ==> sh'.cli != Some(id))
    && sh.now < sh'.now
    && (sh.held ==> sh'.held || sh'.clearedAt == Some(sh.now))
    && (sh.clearedAt.Some? ==> sh'.clearedAt.Some? && sh'.clearedAt.value >= sh.clearedAt.value)
  }

  predicate Publishing(pc: PC) { pc.InDial? && pc.d.PubWrite? }

  predicate Waiting(pc: PC) { pc.InDown? && pc.down.DownWait? }

  /** How a step bears on the hand-over between Down and setAbort: only a publishing get changes abort
      to a context, a get starts publishing on finding held clear, and a Down leaves its abort section
      with the published context cancelled. */
  predicate Tracks(sh: Shared, pc: PC, sh': Shared, pc': PC) {
    && sh.cancelled <= sh'.cancelled
    && (sh'.abort == sh.abort || sh'.abort == None || Publishing(pc))
    && (Publishing(pc') ==> !sh.held || pc == pc')
    && (Waiting(pc') ==>
          && pc == InDown(AbortCall(pc'.down.at))
          && (sh'.abort.Some? ==> sh'.abort.value in sh'.cancelled))
  }

  /** What every other goroutine may rely on, and how the step bears on the hand-over. */
  ghost predicate Guaranteed(sh: Shared, t: Tid, pc: PC, sh': Shared, pc': PC) {
    (forall u: Tid :: u != t ==> Rely(u, sh, sh')) && Tracks(sh, pc, sh', pc')
  }

  // ---- preservation ----

  lemma GateStep(sh: Shared, t: Tid, th: Thread, g: GetPC, eff: Effect)
    requires SharedOk(sh) && PcOk(sh, t, th.pc) && th.pc == InGet(g) && GoGet(sh, t, th, g) == Some(eff)
    requires g.UpClear? || g.Stamp? || g.Wait? || g.Unlock?
    ensures SharedOk(Tick(eff.sh)) && PcOk(Tick(eff.sh), t, eff.th.pc)
    ensures Guaranteed(sh, t, th.pc, Tick(eff.sh), eff.th.pc)
  {
  }

  lemma CheckStep(sh: Shared, t: Tid, th: Thread, g: GetPC, eff: Effect)
    requires SharedOk(sh) && PcOk(sh, t, th.pc) && th.pc == InGet(g) && GoGet(sh, t, th, g) == Some(eff)
    requires g.CheckHeld? || g.CheckCli? || g.CheckManual? || g.CheckShared?
    ensures SharedOk(Tick(eff.sh)) && PcOk(Tick(eff.sh), t, eff.th.pc)
    ensures Guaranteed(sh, t, th.pc, Tick(eff.sh), eff.th.pc)
  {
  }

  lemma PublishStep(sh: Shared, t: Tid, th: Thread, ctx: CtxId, d: DialPC, eff: Effect)
    requires SharedOk(sh) && PcOk(sh, t, th.pc) && th.pc == InDial(ctx, d) && GoDial(sh, t, th, ctx, d) == Some(eff)
    requires d.PubLock? || d.PubCheck? || d.PubWrite? || d.Announce?
    ensures SharedOk(Tick(eff.sh)) && PcOk(Tick(eff.sh), t, eff.th.pc)
    ensures Guaranteed(sh, t, th.pc, Tick(eff.sh), eff.th.pc)
  {
  }

  lemma DialedStep(sh: Shared, t: Tid, th: Thread, ctx: CtxId, d: DialPC, eff: Effect)
    requires SharedOk(sh) && PcOk(sh, t, th.pc) && th.pc == InDial(ctx, d) && GoDial(sh, t, th, ctx, d) == Some(eff)
    requires d.Dialing? || d.Adopting?
    ensures SharedOk(Tick(eff.sh)) && PcOk(Tick(eff.sh), t, eff.th.pc)
    ensures Guaranteed(sh, t, th.pc, Tick(eff.sh), eff.th.pc)
  {
    if d.Dialing? && d.conn.Some? {
      assert eff.th.pc == InDial(ctx, if ctx in sh.aborting then Failed else Adopting(d.conn.value));
    }
  }

  lemma FailedStep(sh: Shared, t: Tid, th: Thread, ctx: CtxId, d: DialPC, eff: Effect)
    requires SharedOk(sh) && PcOk(sh, t, th.pc) && th.pc == InDial(ctx, d) && GoDial(sh, t, th, ctx, d) == Some(eff)
    requires d.Failed? || d.Record?
    ensures SharedOk(Tick(eff.sh)) && PcOk(Tick(eff.sh), t, eff.th.pc)
    ensures Guaranteed(sh, t, th.pc, Tick(eff.sh), eff.th.pc)
  {
  }

  lemma UnpublishStep(sh: Shared, t: Tid, th: Thread, ctx: CtxId, d: DialPC, eff: Effect)
    requires SharedOk(sh) && PcOk(sh, t, th.pc) && th.pc == InDial(ctx, d) && GoDial(sh, t, th, ctx, d) == Some(eff)
    requires d.ClearLock? || d.ClearWrite?
    ensures SharedOk(Tick(eff.sh)) && PcOk(Tick(eff.sh), t, eff.th.pc)
    ensures Guaranteed(sh, t, th.pc, Tick(eff.sh), eff.th.pc)
  {
  }

  lemma AbortStep(sh: Shared, t: Tid, th: Thread, down: DownPC, eff: Effect)
    requires SharedOk(sh) && PcOk(sh, t, th.pc) && th.pc == InDown(down) && GoDown(sh, t, th, down) == Some(eff)
    requires down.Hold? || down.AbortLock? || down.AbortCall?
    ensures SharedOk(Tick(eff.sh)) && PcOk(Tick(eff.sh), t, eff.th.pc)
    ensures Guaranteed(sh, t, th.pc, Tick(eff.sh), eff.th.pc)
  {
  }

  lemma LockedStep(sh: Shared, t: Tid, th: Thread, down: DownPC, eff: Effect)
    requires SharedOk(sh) && PcOk(sh, t, th.pc) && th.pc == InDown(down) && GoDown(sh, t, th, down) == Some(eff)
    requires down.DownWait? || down.DownLocked?
    ensures SharedOk(Tick(eff.sh)) && PcOk(Tick(eff.sh), t, eff.th.pc)
    ensures Guaranteed(sh, t, th.pc, Tick(eff.sh), eff.th.pc)
  {
  }

  lemma ShutStep(sh: Shared, t: Tid, th: Thread, id: ConnId, drop: DropPC, eff: Effect)
    requires SharedOk(sh) && PcOk(sh, t, th.pc) && th.pc == InDrop(id, drop) && GoDrop(sh, t, th, id, drop) == Some(eff)
    requires drop.Watch? || drop.Shut?
    ensures SharedOk(Tick(eff.sh)) && PcOk(Tick(eff.sh), t, eff.th.pc)
    ensures Guaranteed(sh, t, th.pc, Tick(eff.sh), eff.th.pc)
  {
  }

  lemma ForgetStep(sh: Shared, t: Tid, th: Thread, id: ConnId, drop: DropPC, eff: Effect)
    requires SharedOk(sh) && PcOk(sh, t, th.pc) && th.pc == InDrop(id, drop) && GoDrop(sh, t, th, id, drop) == Some(eff)
    requires drop.DropWait? || drop.DropLocked?
    ensures SharedOk(Tick(eff.sh)) && PcOk(Tick(eff.sh), t, eff.th.pc)
    ensures Guaranteed(sh, t, th.pc, Tick(eff.sh), eff.th.pc)
  {
  }

  lemma CloseStep(sh: Shared, t: Tid, th: Thread, close: ClosePC, eff: Effect)
    requires SharedOk(sh) && PcOk(sh, t, th.pc) && th.pc == InClose(close) && GoClose(sh, t, th, close) == Some(eff)
    ensures SharedOk(Tick(eff.sh)) && PcOk(Tick(eff.sh), t, eff.th.pc)
    ensures Guaranteed(sh, t, th.pc, Tick(eff.sh), eff.th.pc)
  {
  }

  lemma ConnectStep(sh: Shared, t: Tid, th: Thread, ctx: CtxId, conn: Option<ConnId>, a: Action, eff: Effect)
    requires a.Connect?
    requires SharedOk(sh) && PcOk(sh, t, th.pc) && th.pc == InDial(ctx, Dialing(conn)) &&
      InFlightStep(sh, th, ctx, conn, a) == Some(eff)
    ensures SharedOk(Tick(eff.sh)) && PcOk(Tick(eff.sh), t, eff.th.pc)
    ensures Guaranteed(sh, t, th.pc, Tick(eff.sh), eff.th.pc)
  {
  }

  lemma OutsideStep(sh: Shared, t: Tid, th: Thread, ctx: CtxId, conn: Option<ConnId>, a: Action, eff: Effect)
    requires SharedOk(sh) && PcOk(sh, t, th.pc) && th.pc == InDial(ctx, Dialing(conn)) &&
      InFlightStep(sh, th, ctx, conn, a) == Some(eff)
    ensures SharedOk(Tick(eff.sh)) && PcOk(Tick(eff.sh), t, eff.th.pc)
    ensures Guaranteed(sh, t, th.pc, Tick(eff.sh), eff.th.pc)
  {
    if a.Connect? {
      ConnectStep(sh, t, th, ctx, conn, a, eff);
    }
  }

  lemma CancelStep(sh: Shared, t: Tid, th: Thread, eff: Effect)
    requires SharedOk(sh) && PcOk(sh, t, th.pc) && Decided(sh, th, CallerCancel) == Some(eff)
    ensures SharedOk(Tick(eff.sh)) && PcOk(Tick(eff.sh), t, eff.th.pc)
    ensures Guaranteed(sh, t, th.pc, Tick(eff.sh), eff.th.pc)
  {
  }

  lemma ChannelOpenStep(sh: Shared, t: Tid, th: Thread, id: ConnId, outcome: Outcome, eff: Effect)
    requires SharedOk(sh) && PcOk(sh, t, th.pc) && th.pc == ChannelOpen(id)
    requires ChannelStep(sh, th, id, outcome) == Some(eff)
    ensures SharedOk(Tick(eff.sh)) && PcOk(Tick(eff.sh), t, eff.th.pc)
    ensures Guaranteed(sh, t, th.pc, Tick(eff.sh), eff.th.pc)
  {
  }

  lemma GoesStep(sh: Shared, t: Tid, th: Thread, eff: Effect)
    requires SharedOk(sh) && PcOk(sh, t, th.pc) && GoStep(sh, t, th) == Some(eff)
    ensures SharedOk(Tick(eff.sh)) && PcOk(Tick(eff.sh), t, eff.th.pc)
    ensures Guaranteed(sh, t, th.pc, Tick(eff.sh), eff.th.pc)
  {
    match th.pc
    case InGet(g) =>
      if g.UpClear? || g.Stamp? || g.Wait? || g.Unlock? {
        GateStep(sh, t, th, g, eff);
      } else {
        CheckStep(sh, t, th, g, eff);
      }
    case InDial(ctx, d) =>
      if d.PubLock? || d.PubCheck? || d.PubWrite? || d.Announce? {
        PublishStep(sh, t, th, ctx, d, eff);
      } else if d.ClearLock? || d.ClearWrite? {
        UnpublishStep(sh, t, th, ctx, d, eff);
      } else if d.Dialing? || d.Adopting? {
        DialedStep(sh, t, th, ctx, d, eff);
      } else {
        FailedStep(sh, t, th, ctx, d, eff);
      }
    case InDown(down) =>
      if down.DownWait? || down.DownLocked? {
        LockedStep(sh, t, th, down, eff);
      } else {
        AbortStep(sh, t, th, down, eff);
      }
    case InClose(close) => CloseStep(sh, t, th, close, eff);
    case InDrop(id, drop) =>
      if drop.Watch? || drop.Shut? {
        ShutStep(sh, t, th, id, drop, eff);
      } else {
        ForgetStep(sh, t, th, id, drop, eff);
      }
    case _ => assert false;
  }

  lemma LocalStep(sh: Shared, t: Tid, th: Thread, a: Action, eff: Effect)
    requires SharedOk(sh) && PcOk(sh, t, th.pc) && Local(sh, t, th, a) == Some(eff)
    ensures SharedOk(Tick(eff.sh)) && PcOk(Tick(eff.sh), t, eff.th.pc)
    ensures Guaranteed(sh, t, th.pc, Tick(eff.sh), eff.th.pc)
  {
    match a
    case Go => GoesStep(sh, t, th, eff);
    case CallerCancel => CancelStep(sh, t, th, eff);
    case Channel(outcome) => ChannelOpenStep(sh, t, th, th.pc.id, outcome, eff);
    case _ => OutsideStep(sh, t, th, th.pc.ctx, th.pc.d.conn, a, eff);
  }

  lemma WorldGuarantee(sh: Shared, w: World, u: Tid)
    requires WorldStep(sh, w).Some?
    ensures Rely(u, sh, Tick(WorldStep(sh, w).value))
  {
  }

  lemma Stable(sh: Shared, sh': Shared, u: Tid, pc: PC)
    requires SharedOk(sh) && PcOk(sh, u, pc) && Rely(u, sh, sh')
    ensures PcOk(sh', u, pc)
  {
  }

  // ---- Down against a dial about to be published ----

  /** A Down past its abort section and a get about to publish its dial: an Up came in between. */
  predicate PairOk(sh: Shared, pub: PC, down: PC) {
    Publishing(pub) && Waiting(down) ==> Cleared(sh, down.down.at)
  }

  predicate AbortedOk(sh: Shared, pc: PC) {
    Waiting(pc) ==> Aborted(sh, pc.down.at)
  }

  lemma AbortedOther(sh: Shared, t: Tid, pc: PC, sh': Shared, pc': PC, u: Tid, other: PC)
    requires Rely(u, sh, sh') && Tracks(sh, pc, sh', pc')
    requires u != t && AbortedOk(sh, other) && PairOk(sh, pc, other)
    ensures AbortedOk(sh', other)
  {
  }

  lemma PairOther(sh: Shared, t: Tid, pc: PC, sh': Shared, pc': PC, u: Tid, other: PC)
    requires PcOk(sh, t, pc) && Rely(u, sh, sh') && Tracks(sh, pc, sh', pc')
    requires u != t && PcOk(sh, u, other) && PairOk(sh, pc, other) && PairOk(sh, other, pc)
    ensures PairOk(sh', pc', other) && PairOk(sh', other, pc')
  {
  }

  // ---- DialContext ----

  /** The connection a get is about to hand to its caller. */
  function Handed(pc: PC): Option<ConnId> {
    match pc
    case InDial(_, ClearLock(Conn(id))) => Some(id)
    case InDial(_, ClearWrite(Conn(id))) => Some(id)
    case InGet(Unlock(Conn(id))) => Some(id)
    case ChannelOpen(id) => Some(id)
    case _ => None
  }

  /** A DialContext that retries has dropped its first connection for good. */
  predicate ChannelOk(sh: Shared, th: Thread) {
    && |th.tried| <= 2
    && (!th.op.OpDialContext? ==> th.tried == [] && !th.pc.ChannelOpen?)
    && (th.op.OpDialContext? && th.pc.InDrop? ==> th.tried == [th.pc.id] && !th.pc.drop.Watch?)
    && (|th.tried| == 2 ==> th.pc.Done? && th.tried[0] != th.tried[1])
    && (|th.tried| == 1 && !th.pc.Done? && !th.pc.InDrop? ==>
          && th.tried[0] in sh.adopted
          && sh.cli != Some(th.tried[0])
          && Handed(th.pc) != Some(th.tried[0]))
  }

  lemma ChannelOther(sh: Shared, sh': Shared, u: Tid, th: Thread)
    requires Rely(u, sh, sh') && ChannelOk(sh, th)
    ensures ChannelOk(sh', th)
  {
  }

  lemma ChannelGet(sh: Shared, t: Tid, th: Thread, g: GetPC, eff: Effect)
    requires PcOk(sh, t, th.pc) && ChannelOk(sh, th) && th.pc == InGet(g) && GoGet(sh, t, th, g) == Some(eff)
    ensures ChannelOk(Tick(eff.sh), eff.th)
  {
  }

  lemma ChannelDial(sh: Shared, t: Tid, th: Thread, ctx: CtxId, d: DialPC, eff: Effect)
    requires PcOk(sh, t, th.pc) && ChannelOk(sh, th) && th.pc == InDial(ctx, d) &&
      GoDial(sh, t, th, ctx, d) == Some(eff)
    ensures ChannelOk(Tick(eff.sh), eff.th)
  {
  }

  lemma ChannelSelf(sh: Shared, t: Tid, th: Thread, a: Action, eff: Effect)
    requires PcOk(sh, t, th.pc) && ChannelOk(sh, th) && Local(sh, t, th, a) == Some(eff)
    ensures ChannelOk(Tick(eff.sh), eff.th)
  {
    if a.Go? && th.pc.InGet? {
      ChannelGet(sh, t, th, th.pc.g, eff);
    } else if a.Go? && th.pc.InDial? {
      ChannelDial(sh, t, th, th.pc.ctx, th.pc.d, eff);
    }
  }

  // ---- the whole system ----

  predicate ThreadOk(sh: Shared, t: Tid, th: Thread) {
    && PcOk(sh, t, th.pc)
    && AbortedOk(sh, th.pc)
    && ChannelOk(sh, th)
    && (t.Watcher? ==> t.conn in sh.adopted)
  }

  ghost predicate Pairs(sh: Shared, threads: map<Tid, Thread>) {
    forall t, u :: t in threads && u in threads && t != u ==> PairOk(sh, threads[t].pc, threads[u].pc)
  }

  ghost predicate Inv(s: State) {
    && SharedOk(s.sh)
    && (s.sh.mu.Some? ==> s.sh.mu.value in s.threads)
    && (s.sh.abortMu.Some? ==> s.sh.abortMu.value in s.threads)
    && (forall t :: t in s.threads ==> ThreadOk(s.sh, t, s.threads[t]))
    && Pairs(s.sh, s.threads)
  }

  lemma Bystander(s: State, sh': Shared, u: Tid)
    requires Inv(s) && u in s.threads && Rely(u, s.sh, sh')
    requires AbortedOk(sh', s.threads[u].pc)
    ensures ThreadOk(sh', u, s.threads[u])
  {
    Stable(s.sh, sh', u, s.threads[u].pc);
    ChannelOther(s.sh, sh', u, s.threads[u]);
  }

  lemma InvEnv(s: State, w: World, s': State)
    requires Inv(s) && Step(s, Env(w)) == Some(s')
    ensures Inv(s')
  {
    forall u | u in s.threads ensures Rely(u, s.sh, s'.sh) && ThreadOk(s'.sh, u, s.threads[u]) {
      WorldGuarantee(s.sh, w, u);
      Bystander(s, s'.sh, u);
    }
  }

  lemma InvBegin(s: State, t: Tid, op: Op, s': State)
    requires Inv(s) && Step(s, Begin(t, op)) == Some(s')
    ensures Inv(s')
  {
    forall u | u in s.threads ensures ThreadOk(s'.sh, u, s.threads[u]) {
      Bystander(s, s'.sh, u);
    }
    assert ThreadOk(s'.sh, t, Thread(op, Entry(op), []));
  }

  /** What the step lemmas establish about a step of goroutine t, without naming the step. */
  ghost predicate Sound(s: State, t: Tid, eff: Effect)
    requires t in s.threads
  {
    var sh' := Tick(eff.sh);
    && SharedOk(sh')
    && PcOk(sh', t, eff.th.pc) && ChannelOk(sh', eff.th)
    && (forall u :: u != t ==> Rely(u, s.sh, sh'))
    && Tracks(s.sh, s.threads[t].pc, sh', eff.th.pc)
    && s.sh.adopted <= sh'.adopted
    && (s.sh.clearedAt.Some? ==> sh'.clearedAt.Some? && sh'.clearedAt.value >= s.sh.clearedAt.value)
    && (eff.spawn.Some? ==> Watcher(eff.spawn.value) !in s.threads && eff.spawn.value in sh'.adopted)
  }

  lemma SpawnFresh(s: State, t: Tid, a: Action, eff: Effect)
    requires Inv(s) && t in s.threads && Local(s.sh, t, s.threads[t], a) == Some(eff) && eff.spawn.Some?
    ensures Watcher(eff.spawn.value) !in s.threads && eff.spawn.value in eff.sh.adopted
  {
    var th := s.threads[t];
    assert PcOk(s.sh, t, th.pc);
    assert a.Go? && th.pc.InDial?;
    assert GoDial(s.sh, t, th, th.pc.ctx, th.pc.d) == Some(eff);
  }

  lemma LocalSound(s: State, t: Tid, a: Action, eff: Effect)
    requires Inv(s) && t in s.threads && Local(s.sh, t, s.threads[t], a) == Some(eff)
    ensures Sound(s, t, eff)
  {
    var th := s.threads[t];
    LocalStep(s.sh, t, th, a, eff);
    ChannelSelf(s.sh, t, th, a, eff);
    if eff.spawn.Some? {
      SpawnFresh(s, t, a, eff);
    }
    HistoryGrows(s.sh, t, th.pc, Tick(eff.sh), eff.th.pc);
  }

  lemma HistoryGrows(sh: Shared, t: Tid, pc: PC, sh': Shared, pc': PC)
    requires Guaranteed(sh, t, pc, sh', pc')
    ensures sh.adopted <= sh'.adopted
    ensures sh.clearedAt.Some? ==> sh'.clearedAt.Some? && sh'.clearedAt.value >= sh.clearedAt.value
  {
    var someone := if t == Call(0) then Call(1) else Call(0);
    assert Rely(someone, sh, sh');
  }

  lemma LiftPairs(s: State, t: Tid, eff: Effect)
    requires Inv(s) && t in s.threads && Sound(s, t, eff)
    ensures Pairs(Tick(eff.sh), Put(s.threads, t, eff))
  {
    var sh' := Tick(eff.sh);
    forall u | u in s.threads && u != t
      ensures PairOk(sh', eff.th.pc, s.threads[u].pc) && PairOk(sh', s.threads[u].pc, eff.th.pc)
    {
      PairOther(s.sh, t, s.threads[t].pc, sh', eff.th.pc, u, s.threads[u].pc);
    }
  }

  lemma LiftThreads(s: State, t: Tid, eff: Effect, u: Tid)
    requires Inv(s) && t in s.threads && Sound(s, t, eff) && u in Put(s.threads, t, eff)
    ensures ThreadOk(Tick(eff.sh), u, Put(s.threads, t, eff)[u])
  {
    var sh' := Tick(eff.sh);
    if u == t {
      assert AbortedOk(sh', eff.th.pc);
    } else if u in s.threads {
      AbortedOther(s.sh, t, s.threads[t].pc, sh', eff.th.pc, u, s.threads[u].pc);
      Bystander(s, sh', u);
    } else {
      assert Rely(u, s.sh, sh');
    }
  }

  lemma InvAct(s: State, t: Tid, a: Action, s': State)
    requires Inv(s) && Step(s, Act(t, a)) == Some(s')
    ensures Inv(s')
  {
    var eff := Local(s.sh, t, s.threads[t], a).value;
    LocalSound(s, t, a, eff);
    LiftPairs(s, t, eff);
    forall u | u in s'.threads ensures ThreadOk(s'.sh, u, s'.threads[u]) {
      LiftThreads(s, t, eff, u);
    }
    Holder(s, t, eff);
  }

  lemma Holder(s: State, t: Tid, eff: Effect)
    requires Inv(s) && t in s.threads && Sound(s, t, eff)
    ensures eff.sh.mu.Some? ==> eff.sh.mu.value in s.threads
    ensures eff.sh.abortMu.Some? ==> eff.sh.abortMu.value in s.threads
  {
    var sh' := Tick(eff.sh);
    if sh'.mu.Some? && sh'.mu.value != t {
      assert Rely(sh'.mu.value, s.sh, sh');
    }
    if sh'.abortMu.Some? && sh'.abortMu.value != t {
      assert Rely(sh'.abortMu.value, s.sh, sh');
    }
  }

  /** Every step keeps the invariant. */
  lemma InvStep(s: State, e: Event, s': State)
    requires Inv(s) && Step(s, e) == Some(s')
    ensures Inv(s')
  {
    match e
    case Begin(t, op) => InvBegin(s, t, op, s');
    case Act(t, a) => InvAct(s, t, a, s');
    case Env(w) => InvEnv(s, w, s');
  }
}
