/** The lifecycle protocol of pkg/openconnect/client.go as a step relation over program counters. It
    shares its gate (held, setAbort, the recorded error) with the SSH client, but owns a process whose
    exit goroutine publishes state without mu, and whose stop blocks until that goroutine is through. */
module VpnMachine {
  import opened ConnTypes

  type ProcId = nat

  /** A goroutine: a caller of the API, or the one that waits for a process to exit. */
  datatype Tid = Call(n: nat) | Exit(p: ProcId)

  datatype Failure = Failure(ctx: CtxId, at: nat)

  datatype Result =
    | Addr(p: ProcId)
    | ErrDisconnected
    | ErrClosed
    | StartError(ctx: CtxId)
    | Nothing

  datatype Op = OpGet | OpUp | OpDown | OpClose | OpExit

  /** Up's store to held, get before it starts a process, and its return. */
  datatype GetPC =
    | UpClear
    | Stamp
    | Wait(since: nat)
    | CheckClosed(since: nat)
    | CheckProc(since: nat)
    | CheckManual(since: nat)
    | CheckShared(since: nat)
    | Unlock(r: Result)

  /** get from the first setAbort to the second; Preparing to Awaiting is start. */
  datatype StartPC =
    | PubLock
    | PubCheck
    | PubWrite
    | Announce
    | Preparing
    | Starting(p: ProcId)
    | Awaiting(p: ProcId)
    | Adopting(p: ProcId)
    | Failed
    | Record
    | ClearLock(r: Result)
    | ClearWrite(r: Result)

  datatype DownPC =
    | Hold
    | AbortLock(at: nat)
    | AbortCall(at: nat)
    | DownWait(at: nat)
    | DownLocked(at: nat)
    | DownAwait(at: nat, p: ProcId)
    | DownReset(at: nat)

  datatype ClosePC = Cancel | CloseWait | CloseLocked | CloseAwait(p: ProcId) | CloseReset

  /** The goroutine started with a process: cmd.Wait, setState, close(done). */
  datatype ExitPC = AwaitExit | Publish | CloseDone

  datatype PC =
    | InGet(g: GetPC)
    | InStart(ctx: CtxId, d: StartPC)
    | InDown(down: DownPC)
    | InClose(close: ClosePC)
    | InExit(p: ProcId, exit: ExitPC)
    | Done(r: Result)

  datatype Thread = Thread(op: Op, pc: PC)

  datatype Shared = Shared(
    mu: Option<Tid>,
    abortMu: Option<Tid>,
    proc: Option<ProcId>,
    lastErr: Option<Failure>,
    state: ConnState,
    held: bool,
    manualOnly: bool,
    abort: Option<CtxId>,
    // c.ctx has been cancelled by Close
    closed: bool,
    // the processes that run, and those whose done channel is still open
    running: set<ProcId>,
    undone: set<ProcId>,
    cancelled: set<CtxId>,
    nextProc: nat,
    nextCtx: nat,
    now: nat,
    // history: when an Up last cleared held
    clearedAt: Option<nat>)

  datatype State = State(sh: Shared, threads: map<Tid, Thread>)

  /** What a goroutine does next. Go is its next step where that is determined. In start, Fail is any
      failure before the process exists, Spawn is cmd.Start, Give up is the cancelled context, the
      closed client or the deadline, and Ready is the tick that finds the tunnel up. */
  datatype Action = Go | Fail | Spawn | GiveUp | Ready | CallerCancel

  datatype World =
    | ProcExits(p: ProcId)   // by itself, or after a signal
    | SetAutoconnect(on: bool)

  datatype Event = Begin(t: Tid, op: Op) | Act(t: Tid, a: Action) | Env(w: World)

  datatype Effect = Effect(sh: Shared, th: Thread, spawn: Option<ProcId>)

  const INIT := State(
    Shared(None, None, None, None, ConnUnknown, false, false, None, false, {}, {}, {}, 0, 0, 0, None), map[])

  predicate IsCall(op: Op) { !op.OpExit? }

  function Entry(op: Op): PC
    requires IsCall(op)
  {
    match op
    case OpGet => InGet(Stamp)
    case OpUp => InGet(UpClear)
    case OpDown => InDown(Hold)
    case OpClose => InClose(Cancel)
  }

  /** Whether the recorded failure answers a get that arrived at since. */
  predicate Answers(lastErr: Option<Failure>, since: nat) {
    lastErr.Some? && IsAfter(lastErr.value.at, since)
  }

  function To(sh: Shared, th: Thread, pc: PC): Option<Effect> {
    Some(Effect(sh, th.(pc := pc), None))
  }

  function LockMu(sh: Shared, t: Tid, th: Thread, pc: PC): Option<Effect> {
    if sh.mu == None then To(sh.(mu := Some(t)), th, pc) else None
  }

  function LockAbort(sh: Shared, t: Tid, th: Thread, pc: PC): Option<Effect> {
    if sh.abortMu == None then To(sh.(abortMu := Some(t)), th, pc) else None
  }

  /** A get that finds a process whose done channel is open reuses it; one whose channel is closed is
      dropped. held is only looked at in setAbort. */
  function GoGet(sh: Shared, t: Tid, th: Thread, g: GetPC): Option<Effect> {
    match g
    case UpClear => To(sh.(held := false, clearedAt := Some(sh.now)), th, InGet(Stamp))
    case Stamp => To(sh, th, InGet(Wait(sh.now)))
    case Wait(since) => LockMu(sh, t, th, InGet(CheckClosed(since)))
    case CheckClosed(since) => To(sh, th, if sh.closed then InGet(Unlock(ErrClosed)) else InGet(CheckProc(since)))
    case CheckProc(since) =>
      if sh.proc.Some? && sh.proc.value in sh.undone then
        To(sh.(state := ConnConnected), th, InGet(Unlock(Addr(sh.proc.value))))
      else To(sh.(proc := None), th, InGet(CheckManual(since)))
    case CheckManual(since) =>
      To(sh, th, if !th.op.OpUp? && sh.manualOnly then InGet(Unlock(ErrDisconnected)) else InGet(CheckShared(since)))
    case CheckShared(since) =>
      if Answers(sh.lastErr, since) then To(sh, th, InGet(Unlock(StartError(sh.lastErr.value.ctx))))
      else To(sh.(nextCtx := sh.nextCtx + 1), th, InStart(sh.nextCtx, PubLock))
    case Unlock(r) => To(sh.(mu := None), th, Done(r))
  }

  /** setAbort(cancel), start, and the deferred setAbort(nil) and cancel(). */
  function GoStart(sh: Shared, t: Tid, th: Thread, ctx: CtxId, d: StartPC): Option<Effect> {
    match d
    case PubLock => LockAbort(sh, t, th, InStart(ctx, PubCheck))
    case PubCheck =>
      if sh.held then To(sh.(abortMu := None, cancelled := sh.cancelled + {ctx}), th, InGet(Unlock(ErrDisconnected)))
      else To(sh, th, InStart(ctx, PubWrite))
    case PubWrite => To(sh.(abort := Some(ctx), abortMu := None), th, InStart(ctx, Announce))
    case Announce => To(sh.(state := ConnConnecting), th, InStart(ctx, Preparing))
    case Preparing => None
    case Starting(p) => if p in sh.undone then None else To(sh, th, InStart(ctx, Failed))
    case Awaiting(p) => if p in sh.undone then None else To(sh, th, InStart(ctx, Failed))
    case Adopting(p) =>
      To(sh.(proc := Some(p), lastErr := None, state := ConnConnected), th, InStart(ctx, ClearLock(Addr(p))))
    case Failed => To(sh.(state := ConnDisconnected), th, InStart(ctx, Record))
    case Record =>
      To(if ctx in sh.cancelled then sh else sh.(lastErr := Some(Failure(ctx, sh.now))), th,
         InStart(ctx, ClearLock(StartError(ctx))))
    case ClearLock(r) => LockAbort(sh, t, th, InStart(ctx, ClearWrite(r)))
    case ClearWrite(r) =>
      To(sh.(abort := None, abortMu := None, cancelled := sh.cancelled + {ctx}), th, InGet(Unlock(r)))
  }

  /** Down: stop signals the process and blocks until its done channel is closed. */
  function GoDown(sh: Shared, t: Tid, th: Thread, down: DownPC): Option<Effect> {
    match down
    case Hold => To(sh.(held := true), th, InDown(AbortLock(sh.now)))
    case AbortLock(at) => LockAbort(sh, t, th, InDown(AbortCall(at)))
    case AbortCall(at) =>
      To(sh.(cancelled := if sh.abort.Some? then sh.cancelled + {sh.abort.value} else sh.cancelled, abortMu := None),
         th, InDown(DownWait(at)))
    case DownWait(at) => LockMu(sh, t, th, InDown(DownLocked(at)))
    case DownLocked(at) => To(sh, th, InDown(if sh.proc.Some? then DownAwait(at, sh.proc.value) else DownReset(at)))
    case DownAwait(at, p) => if p in sh.undone then None else To(sh, th, InDown(DownReset(at)))
    case DownReset(at) =>
      To(sh.(proc := None, lastErr := None, state := ConnUnknown, mu := None), th, Done(Nothing))
  }

  function GoClose(sh: Shared, t: Tid, th: Thread, close: ClosePC): Option<Effect> {
    match close
    case Cancel => To(sh.(closed := true), th, InClose(CloseWait))
    case CloseWait => LockMu(sh, t, th, InClose(CloseLocked))
    case CloseLocked => To(sh, th, InClose(if sh.proc.Some? then CloseAwait(sh.proc.value) else CloseReset))
    case CloseAwait(p) => if p in sh.undone then None else To(sh, th, InClose(CloseReset))
    case CloseReset => To(sh.(proc := None, state := ConnDisconnected, mu := None), th, Done(Nothing))
  }

  /** The exit goroutine publishes ConnDisconnected before it closes the done channel. */
  function GoExit(sh: Shared, th: Thread, p: ProcId, exit: ExitPC): Option<Effect> {
    match exit
    case AwaitExit => if p in sh.running then None else To(sh, th, InExit(p, Publish))
    case Publish => To(sh.(state := ConnDisconnected), th, InExit(p, CloseDone))
    case CloseDone => To(sh.(undone := sh.undone - {p}), th, Done(Nothing))
  }

  function GoStep(sh: Shared, t: Tid, th: Thread): Option<Effect> {
    match th.pc
    case InGet(g) => GoGet(sh, t, th, g)
    case InStart(ctx, d) => GoStart(sh, t, th, ctx, d)
    case InDown(down) => GoDown(sh, t, th, down)
    case InClose(close) => GoClose(sh, t, th, close)
    case InExit(p, exit) => GoExit(sh, th, p, exit)
    case Done(_) => None
  }

  /** What is decided outside the goroutine while start runs. Giving up needs no reason here: the
      deadline may expire at any time. */
  function Decided(sh: Shared, th: Thread, a: Action): Option<Effect> {
    if !th.pc.InStart? then None
    else
      var ctx := th.pc.ctx;
      match a
      case CallerCancel => To(sh.(cancelled := sh.cancelled + {ctx}), th, th.pc)
      case Fail => if th.pc.d.Preparing? then To(sh, th, InStart(ctx, Failed)) else None
      case Spawn =>
        if th.pc.d.Preparing? then
          var p := sh.nextProc;
          Some(Effect(sh.(running := sh.running + {p}, undone := sh.undone + {p}, nextProc := p + 1),
                      th.(pc := InStart(ctx, Starting(p))), Some(p)))
        else None
      case GiveUp => if th.pc.d.Starting? then To(sh, th, InStart(ctx, Awaiting(th.pc.d.p))) else None
      case Ready => if th.pc.d.Starting? then To(sh, th, InStart(ctx, Adopting(th.pc.d.p))) else None
      case Go => None
  }

  /** The step of goroutine t, in thread state th, that a decides, or None when it cannot happen. */
  function Local(sh: Shared, t: Tid, th: Thread, a: Action): Option<Effect> {
    if a.Go? then GoStep(sh, t, th) else Decided(sh, th, a)
  }

  function WorldStep(sh: Shared, w: World): Option<Shared> {
    match w
    case ProcExits(p) => Some(sh.(running := sh.running - {p}))
    case SetAutoconnect(on) => Some(sh.(manualOnly := !on))
  }

  function Tick(sh: Shared): Shared {
    sh.(now := sh.now + 1)
  }

  function Put(threads: map<Tid, Thread>, t: Tid, eff: Effect): map<Tid, Thread> {
    if eff.spawn == None then threads[t := eff.th]
    else threads[t := eff.th][Exit(eff.spawn.value) := Thread(OpExit, InExit(eff.spawn.value, AwaitExit))]
  }

  /** One step of the system, or None when the event is not possible in s. The clock advances at every step. */
  function Step(s: State, e: Event): Option<State> {
    match e
    case Begin(t, op) =>
      if t.Call? && t !in s.threads && IsCall(op) then
        Some(State(Tick(s.sh), s.threads[t := Thread(op, Entry(op))]))
      else None
    case Act(t, a) =>
      if t !in s.threads then None
      else
        var r := Local(s.sh, t, s.threads[t], a);
        if r == None then None else Some(State(Tick(r.value.sh), Put(s.threads, t, r.value)))
    case Env(w) =>
      var r := WorldStep(s.sh, w);
      if r == None then None else Some(State(Tick(r.value), s.threads))
  }
}
