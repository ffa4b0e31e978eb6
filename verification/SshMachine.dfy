/** The connection protocol of pkg/sshclient/client.go as a step relation over program counters.
    Every shared access that another goroutine can observe is a step of its own; accesses to fields
    that only the holder of mu touches are merged with a neighbouring step of that holder. */
module SshMachine {
  import opened ConnTypes

  type ConnId = nat

  /** A goroutine: a caller of the API, or the watcher started for one connection. */
  datatype Tid = Call(n: nat) | Watcher(conn: ConnId)

  /** The context of the failed dial, which names its error, and lastErrAt. */
  datatype Failure = Failure(ctx: CtxId, at: nat)

  datatype Result =
    | Conn(id: ConnId)
    | ErrDisconnected
    | DialError(ctx: CtxId)
    | ChannelOpened(id: ConnId)
    | ChannelFailed
    | Nothing

  datatype Op = OpGet | OpUp | OpDown | OpClose | OpDialContext | OpWatch

  datatype Outcome =
    | Opened
    | Final    // the server refused the channel, or the caller's context has ended
    | Broken   // any other failure of a channel open

  /** Up's store to held, get before it dials, and its return. */
  datatype GetPC =
    | UpClear
    | Stamp
    | Wait(since: nat)
    | CheckHeld(since: nat)
    | CheckCli(since: nat)
    | CheckManual(since: nat)
    | CheckShared(since: nat)
    | Unlock(r: Result)

  /** get from the first setAbort to the second. */
  datatype DialPC =
    | PubLock
    | PubCheck
    | PubWrite
    | Announce
    | Dialing(conn: Option<ConnId>)
    | Adopting(id: ConnId)
    | Failed
    | Record
    | ClearLock(r: Result)
    | ClearWrite(r: Result)

  datatype DownPC =
    | Hold
    | AbortLock(at: nat)
    | AbortCall(at: nat)
    | DownWait(at: nat)
    | DownLocked(at: nat)

  datatype ClosePC = CloseWait | CloseLocked

  /** forget, and the goroutine of watch that waits for its connection to close. */
  datatype DropPC = Watch | Shut | DropWait | DropLocked

  datatype PC =
    | InGet(g: GetPC)
    | InDial(ctx: CtxId, d: DialPC)
    | InDown(down: DownPC)
    | InClose(close: ClosePC)
    | InDrop(id: ConnId, drop: DropPC)
    | ChannelOpen(id: ConnId)
    | Done(r: Result)

  /** tried lists the connections on which a DialContext has opened a channel so far. */
  datatype Thread = Thread(op: Op, pc: PC, tried: seq<ConnId>)

  datatype Shared = Shared(
    mu: Option<Tid>,
    abortMu: Option<Tid>,
    cli: Option<ConnId>,
    lastErr: Option<Failure>,
    state: ConnState,
    held: bool,
    manualOnly: bool,
    abort: Option<CtxId>,
    // the world outside the Client
    open: set<ConnId>,
    cancelled: set<CtxId>,
    aborting: set<CtxId>,
    nextConn: nat,
    nextCtx: nat,
    now: nat,
    // history: when an Up last cleared held, and the connections that ever became cli
    clearedAt: Option<nat>,
    adopted: set<ConnId>)

  datatype State = State(sh: Shared, threads: map<Tid, Thread>)

  /** What a goroutine does next. Go is its next step where that is determined; the others settle
      what the agent, the network, the server and the caller's context decide. */
  datatype Action = Go | Sign(pending: bool) | Connect | DialFail | CallerCancel | Channel(outcome: Outcome)

  datatype World =
    | AbortStart(ctx: CtxId)   // context.AfterFunc starts att.abort once the context is cancelled
    | ConnDies(id: ConnId)     // the server, the network or a failed probe closes a connection
    | SetAutoconnect(on: bool)

  datatype Event = Begin(t: Tid, op: Op) | Act(t: Tid, a: Action) | Env(w: World)

  datatype Effect = Effect(sh: Shared, th: Thread, spawn: Option<ConnId>)

  const INIT := State(
    Shared(None, None, None, None, ConnUnknown, false, false, None, {}, {}, {}, 0, 0, 0, None, {}), map[])

  predicate IsCall(op: Op) { !op.OpWatch? }

  function Entry(op: Op): PC
    requires IsCall(op)
  {
    match op
    case OpGet => InGet(Stamp)
    case OpUp => InGet(UpClear)
    case OpDown => InDown(Hold)
    case OpClose => InClose(CloseWait)
    case OpDialContext => InGet(Stamp)
  }

  /** The critical section of Down. */
  function DownEffect(sh: Shared): Shared {
    sh.(open := if sh.cli.Some? then sh.open - {sh.cli.value} else sh.open, cli := None, lastErr := None,
        state := ConnUnknown)
  }

  /** The critical section of Close. */
  function CloseEffect(sh: Shared): Shared {
    sh.(open := if sh.cli.Some? then sh.open - {sh.cli.value} else sh.open, cli := None,
        state := ConnDisconnected)
  }

  /** The critical section of forget, and of the goroutine that waits for a connection to close. */
  function DropEffect(sh: Shared, id: ConnId): Shared {
    if sh.cli == Some(id) then sh.(cli := None, state := ConnDisconnected) else sh
  }

  /** The success path of get after dial returned. */
  function AdoptEffect(sh: Shared, id: ConnId): Shared {
    sh.(cli := Some(id), lastErr := None, state := ConnConnected, adopted := sh.adopted + {id})
  }

  /** Whether the recorded failure answers a get that arrived at since. */
  predicate Answers(lastErr: Option<Failure>, since: nat) {
    lastErr.Some? && IsAfter(lastErr.value.at, since)
  }

  function To(sh: Shared, th: Thread, pc: PC): Option<Effect> {
    Some(Effect(sh, th.(pc := pc), None))
  }

  function LockMu(sh: Shared, t: Tid, th: Thread, pc: PC): Option<Effect> {
    if sh.mu == None then To(sh.(mu := Some(t)), th, pc) else None
  }

  function LockAbort(sh: Shared, t: Tid, th: Thread, pc: PC): Option<Effect> {
    if sh.abortMu == None then To(sh.(abortMu := Some(t)), th, pc) else None
  }

  function CloseConn(sh: Shared, conn: Option<ConnId>): Shared {
    if conn.Some? then sh.(open := sh.open - {conn.value}) else sh
  }

  function GoGet(sh: Shared, t: Tid, th: Thread, g: GetPC): Option<Effect> {
    match g
    case UpClear => To(sh.(held := false, clearedAt := Some(sh.now)), th, InGet(Stamp))
    case Stamp => To(sh, th, InGet(Wait(sh.now)))
    case Wait(since) => LockMu(sh, t, th, InGet(CheckHeld(since)))
    case CheckHeld(since) => To(sh, th, if sh.held then InGet(Unlock(ErrDisconnected)) else InGet(CheckCli(since)))
    case CheckCli(since) =>
      if sh.cli.Some? then To(sh.(state := ConnConnected), th, InGet(Unlock(Conn(sh.cli.value))))
      else To(sh, th, InGet(CheckManual(since)))
    case CheckManual(since) =>
      To(sh, th, if !th.op.OpUp? && sh.manualOnly then InGet(Unlock(ErrDisconnected)) else InGet(CheckShared(since)))
    case CheckShared(since) =>
      if Answers(sh.lastErr, since) then To(sh, th, InGet(Unlock(DialError(sh.lastErr.value.ctx))))
      else To(sh.(nextCtx := sh.nextCtx + 1), th, InDial(sh.nextCtx, PubLock))
    case Unlock(r) =>
      To(sh.(mu := None), th, if th.op.OpDialContext? && r.Conn? then ChannelOpen(r.id) else Done(r))
  }

  /** setAbort(cancel), the dial, and the deferred setAbort(nil) and cancel(). A started abort turns a
      finished handshake into a failure; a failure is recorded unless its context was cancelled. */
  function GoDial(sh: Shared, t: Tid, th: Thread, ctx: CtxId, d: DialPC): Option<Effect> {
    match d
    case PubLock => LockAbort(sh, t, th, InDial(ctx, PubCheck))
    case PubCheck =>
      if sh.held then To(sh.(abortMu := None, cancelled := sh.cancelled + {ctx}), th, InGet(Unlock(ErrDisconnected)))
      else To(sh, th, InDial(ctx, PubWrite))
    case PubWrite => To(sh.(abort := Some(ctx), abortMu := None), th, InDial(ctx, Announce))
    case Announce => To(sh.(state := ConnConnecting), th, InDial(ctx, Dialing(None)))
    case Dialing(conn) =>
      if conn == None then None
      else if ctx in sh.aborting then To(CloseConn(sh, conn), th, InDial(ctx, Failed))
      else To(sh, th, InDial(ctx, Adopting(conn.value)))
    case Adopting(id) =>
      Some(Effect(AdoptEffect(sh, id), th.(pc := InDial(ctx, ClearLock(Conn(id)))), Some(id)))
    case Failed => To(sh.(state := ConnDisconnected), th, InDial(ctx, Record))
    case Record =>
      To(if ctx in sh.cancelled then sh else sh.(lastErr := Some(Failure(ctx, sh.now))), th,
         InDial(ctx, ClearLock(DialError(ctx))))
    case ClearLock(r) => LockAbort(sh, t, th, InDial(ctx, ClearWrite(r)))
    case ClearWrite(r) =>
      To(sh.(abort := None, abortMu := None, cancelled := sh.cancelled + {ctx}), th, InGet(Unlock(r)))
  }

  function GoDown(sh: Shared, t: Tid, th: Thread, down: DownPC): Option<Effect> {
    match down
    case Hold => To(sh.(held := true), th, InDown(AbortLock(sh.now)))
    case AbortLock(at) => LockAbort(sh, t, th, InDown(AbortCall(at)))
    case AbortCall(at) =>
      To(sh.(cancelled := if sh.abort.Some? then sh.cancelled + {sh.abort.value} else sh.cancelled, abortMu := None),
         th, InDown(DownWait(at)))
    case DownWait(at) => LockMu(sh, t, th, InDown(DownLocked(at)))
    case DownLocked(at) => To(DownEffect(sh).(mu := None), th, Done(Nothing))
  }

  function GoDrop(sh: Shared, t: Tid, th: Thread, id: ConnId, drop: DropPC): Option<Effect> {
    match drop
    case Watch => if id in sh.open then None else To(sh, th, InDrop(id, DropWait))
    case Shut => To(sh.(open := sh.open - {id}), th, InDrop(id, DropWait))
    case DropWait => LockMu(sh, t, th, InDrop(id, DropLocked))
    case DropLocked =>
      To(DropEffect(sh, id).(mu := None), th, if th.op.OpDialContext? then InGet(Stamp) else Done(Nothing))
  }

  function GoClose(sh: Shared, t: Tid, th: Thread, close: ClosePC): Option<Effect> {
    match close
    case CloseWait => LockMu(sh, t, th, InClose(CloseLocked))
    case CloseLocked => To(CloseEffect(sh).(mu := None), th, Done(Nothing))
  }

  function GoStep(sh: Shared, t: Tid, th: Thread): Option<Effect> {
    match th.pc
    case InGet(g) => GoGet(sh, t, th, g)
    case InDial(ctx, d) => GoDial(sh, t, th, ctx, d)
    case InDown(down) => GoDown(sh, t, th, down)
    case InDrop(id, drop) => GoDrop(sh, t, th, id, drop)
    case InClose(close) => GoClose(sh, t, th, close)
    case _ => None
  }

  /** What agent, network and server do to a dial in flight. */
  function InFlightStep(sh: Shared, th: Thread, ctx: CtxId, conn: Option<ConnId>, a: Action): Option<Effect> {
    match a
    case Sign(pending) =>
      To(sh.(state := if pending then ConnAwaitingApproval else ConnConnecting), th, th.pc)
    case Connect =>
      if conn.Some? then None
      else To(sh.(open := sh.open + {sh.nextConn}, nextConn := sh.nextConn + 1), th,
              InDial(ctx, Dialing(Some(sh.nextConn))))
    case DialFail => To(CloseConn(sh, conn), th, InDial(ctx, Failed))
    case _ => None
  }

  function ChannelStep(sh: Shared, th: Thread, id: ConnId, outcome: Outcome): Option<Effect> {
    To(sh, th.(tried := th.tried + [id]),
       if outcome.Opened? then Done(ChannelOpened(id))
       else if outcome.Final? || |th.tried| > 0 then Done(ChannelFailed)
       else InDrop(id, Shut))
  }

  /** What is decided outside the goroutine. */
  function Decided(sh: Shared, th: Thread, a: Action): Option<Effect> {
    match th.pc
    case ChannelOpen(id) => if a.Channel? then ChannelStep(sh, th, id, a.outcome) else None
    case InDial(ctx, d) =>
      if a.CallerCancel? then To(sh.(cancelled := sh.cancelled + {ctx}), th, th.pc)
      else if d.Dialing? then InFlightStep(sh, th, ctx, d.conn, a)
      else None
    case _ => None
  }

  /** The step of goroutine t, in thread state th, that a decides, or None when it cannot happen. */
  function Local(sh: Shared, t: Tid, th: Thread, a: Action): Option<Effect> {
    if a.Go? then GoStep(sh, t, th) else Decided(sh, th, a)
  }

  function WorldStep(sh: Shared, w: World): Option<Shared> {
    match w
    case AbortStart(ctx) => if ctx in sh.cancelled then Some(sh.(aborting := sh.aborting + {ctx})) else None
    case ConnDies(id) => Some(sh.(open := sh.open - {id}))
    case SetAutoconnect(on) => Some(sh.(manualOnly := !on))
  }

  function Tick(sh: Shared): Shared {
    sh.(now := sh.now + 1)
  }

  function Put(threads: map<Tid, Thread>, t: Tid, eff: Effect): map<Tid, Thread> {
    if eff.spawn == None then threads[t := eff.th]
    else threads[t := eff.th][Watcher(eff.spawn.value) := Thread(OpWatch, InDrop(eff.spawn.value, Watch), [])]
  }

  /** One step of the system, or None when the event is not possible in s. The clock advances at every step. */
  function Step(s: State, e: Event): Option<State> {
    match e
    case Begin(t, op) =>
      if t.Call? && t !in s.threads && IsCall(op) then
        Some(State(Tick(s.sh), s.threads[t := Thread(op, Entry(op), [])]))
      else None
    case Act(t, a) =>
      if t !in s.threads then None
      else
        var r := Local(s.sh, t, s.threads[t], a);
        if r == None then None else Some(State(Tick(r.value.sh), Put(s.threads, t, r.value)))
    case Env(w) =>
      var r := WorldStep(s.sh, w);
      if r == None then None else Some(State(Tick(r.value), s.threads))
  }
}
