/** The tunnel supervisor of internal/menubar/controller.go after Start has returned: the listeners
    pinned to a connection upstream, the syncs that state changes set off, StopTunnel, StartTunnel and
    the Serve goroutines, interleaved in any order. */
module TunnelMachine {
  import opened ConnTypes

  type Name = string

  /** One binding of a listener: its server, context and done channel. */
  type Gen = nat

  datatype Tid = Task(n: nat) | Serve(g: Gen)

  /** A tunnelHandle; gen is None when srv, ctx, cancel and done are nil. */
  datatype Handle = Handle(upstream: string, stopped: bool, gen: Option<Gen>)

  /** A run of syncTunnels. Its lists are kept as sets: the order within a list plays no part. */
  datatype SyncPC =
    | Select(todo: set<Name>, bind: set<Name>, unbind: set<Name>)
    | Unbinding(todo: set<Name>, bind: set<Name>)
    | Awaiting(g: Gen, todo: set<Name>, bind: set<Name>)
    | Binding(todo: set<Name>)
    | Listening(n: Name, todo: set<Name>)

  datatype PC =
    | Hook                       // a state has changed, its hook has yet to start the sync
    | SyncWait(stale: bool)      // stale: the sync of a registry that is no longer the running one
    | SyncLocked(stale: bool)
    | InSync(sync: SyncPC)
    | StopMark(n: Name)
    | StopRead(n: Name)
    | StopAwait(n: Name, g: Gen)
    | StartMark(n: Name)
    | Upping(n: Name)            // connectTunnel's goroutine inside Up
    | Serving(n: Name, g: Gen)
    | ServeClose(g: Gen)
    | Done

  datatype Shared = Shared(
    tunnels: map<Name, Handle>,
    states: map<string, ConnState>,
    mu: Option<Tid>,
    syncMu: Option<Tid>,
    cancelled: set<Gen>,
    closed: set<Gen>,
    nextGen: nat,
    // history: see Raced and Lost
    raced: set<Name>,
    lost: set<Name>)

  datatype State = State(sh: Shared, threads: map<Tid, PC>)

  /** Go is a goroutine's next step; Pick is the list element a loop takes next; Fail is a listener that
      cannot be bound, or a Serve that ends by itself. */
  datatype Action = Go | Pick(n: Name) | Fail

  datatype Request = Stop(n: Name) | Start(n: Name) | StaleSync

  datatype Event =
    | Begin(t: Tid, req: Request)
    | Change(t: Tid, upstream: string, state: ConnState)
    | Act(t: Tid, a: Action)

  datatype Effect = Effect(sh: Shared, pc: PC, spawn: Option<PC>)

  predicate Up(sh: Shared, h: Handle) {
    h.upstream in sh.states && sh.states[h.upstream] == ConnConnected
  }

  /** A pinned tunnel listens exactly while its upstream is connected and it is not stopped. */
  predicate Want(sh: Shared, h: Handle) { Up(sh, h) && !h.stopped }

  predicate Bound(sh: Shared, h: Handle) { h.gen.Some? && h.gen.value !in sh.cancelled }

  function To(sh: Shared, pc: PC): Option<Effect> { Some(Effect(sh, pc, None)) }

  function SetHandle(sh: Shared, n: Name, h: Handle): Shared { sh.(tunnels := sh.tunnels[n := h]) }

  /** A StopTunnel that finds no listener of a tunnel which a running sync has selected to bind. */
  function Raced(sh: Shared, n: Name): Shared { sh.(raced := sh.raced + {n}, lost := sh.lost - {n}) }

  /** A tunnel that loses its listener, or does not get it, for a reason other than its wish: the bind or
      Serve failed, a StartTunnel overtook the StopTunnel that closes it, or a sync came across it while
      it was still closing. */
  function Lost(sh: Shared, n: Name): Shared { sh.(lost := sh.lost + {n}, raced := sh.raced - {n}) }

  function Clear(sh: Shared, n: Name): Shared { sh.(lost := sh.lost - {n}, raced := sh.raced - {n}) }

  /** The loop body of syncTunnels for tunnel n. */
  function Examine(sh: Shared, n: Name, todo: set<Name>, bind: set<Name>, unbind: set<Name>): Option<Effect> {
    if n !in todo || n !in sh.tunnels then None
    else
      var h := sh.tunnels[n];
      var sh' := Clear(sh, n);
      if Want(sh, h) && h.gen == None then To(sh', InSync(Select(todo - {n}, bind + {n}, unbind)))
      else if !Want(sh, h) && h.gen.Some? then To(sh', InSync(Select(todo - {n}, bind, unbind + {n})))
      else To(if Want(sh, h) && !Bound(sh, h) then Lost(sh, n) else sh', InSync(Select(todo - {n}, bind, unbind)))
  }

  function GoSelect(sh: Shared, todo: set<Name>, bind: set<Name>, unbind: set<Name>, a: Action): Option<Effect> {
    match a
    case Pick(n) => Examine(sh, n, todo, bind, unbind)
    case Go => if todo == {} then To(sh.(mu := None), InSync(Unbinding(unbind, bind))) else None
    case Fail => None
  }

  /** unbindTunnel for the next tunnel of the list; waitDone is the Awaiting step. */
  function GoUnbind(sh: Shared, todo: set<Name>, bind: set<Name>, a: Action): Option<Effect> {
    match a
    case Pick(n) =>
      if n !in todo || n !in sh.tunnels || sh.mu.Some? then None
      else if sh.tunnels[n].gen == None then To(sh, InSync(Unbinding(todo - {n}, bind)))
      else
        var g := sh.tunnels[n].gen.value;
        To(sh.(cancelled := sh.cancelled + {g}), InSync(Awaiting(g, todo - {n}, bind)))
    case Go => if todo == {} then To(sh, InSync(Binding(bind))) else None
    case Fail => None
  }

  /** bindTunnel for the next tunnel of the list, up to its listener. */
  function GoBind(sh: Shared, todo: set<Name>, a: Action): Option<Effect> {
    match a
    case Pick(n) =>
      if n !in todo || n !in sh.tunnels || sh.mu.Some? then None
      else if sh.tunnels[n].gen.Some? then To(sh, InSync(Binding(todo - {n})))
      else To(sh, InSync(Listening(n, todo - {n})))
    case Go => if todo == {} then To(sh.(syncMu := None), Done) else None
    case Fail => None
  }

  function GoListen(sh: Shared, n: Name, todo: set<Name>, a: Action): Option<Effect> {
    match a
    case Pick(_) => None
    case Go =>
      if n !in sh.tunnels || sh.mu.Some? then None
      else
        var g := sh.nextGen;
        Some(Effect(SetHandle(sh, n, sh.tunnels[n].(gen := Some(g))).(nextGen := g + 1), InSync(Binding(todo)),
                    Some(Serving(n, g))))
    case Fail => To(Lost(sh, n), InSync(Binding(todo)))
  }

  function GoSync(sh: Shared, sync: SyncPC, a: Action): Option<Effect> {
    match sync
    case Select(todo, bind, unbind) => GoSelect(sh, todo, bind, unbind, a)
    case Unbinding(todo, bind) => GoUnbind(sh, todo, bind, a)
    case Awaiting(g, todo, bind) =>
      if a.Go? && g in sh.closed then To(sh, InSync(Unbinding(todo, bind))) else None
    case Binding(todo) => GoBind(sh, todo, a)
    case Listening(n, todo) => GoListen(sh, n, todo, a)
  }

  /** StopTunnel: mark, then unbindTunnel. selected says whether a running sync has n on its bind list. */
  function GoStop(sh: Shared, pc: PC, selected: bool): Option<Effect> {
    match pc
    case StopMark(n) =>
      if sh.mu.Some? then None
      else if n !in sh.tunnels then To(sh, Done)
      else To(SetHandle(sh, n, sh.tunnels[n].(stopped := true)), StopRead(n))
    case StopRead(n) =>
      if n !in sh.tunnels || sh.mu.Some? then None
      else
        var h := sh.tunnels[n];
        if h.gen == None then To(if selected && h.stopped then Raced(sh, n) else sh, Done)
        else
          To((if Bound(sh, h) then (if h.stopped then Clear(sh, n) else Lost(sh, n)) else sh).(
               cancelled := sh.cancelled + {h.gen.value}),
             StopAwait(n, h.gen.value))
    case StopAwait(_, g) => if g in sh.closed then To(sh, Done) else None
    case _ => None
  }

  /** The hook, the entry of syncTunnels, StartTunnel with connectTunnel's goroutine, and serveTunnel's,
      which clears the handle whatever listener it holds. */
  function GoRest(sh: Shared, t: Tid, pc: PC, a: Action): Option<Effect> {
    match pc
    case Hook => To(sh, SyncWait(false))
    case SyncWait(stale) =>
      if sh.syncMu == None then To(sh.(syncMu := Some(t)), SyncLocked(stale)) else None
    case SyncLocked(stale) =>
      if sh.mu.Some? then None
      else if stale then To(sh.(syncMu := None), Done)
      else To(sh.(mu := Some(t)), InSync(Select(sh.tunnels.Keys, {}, {})))
    case StartMark(n) =>
      if sh.mu.Some? then None
      else if n !in sh.tunnels then To(sh, Done)
      else To(SetHandle(sh, n, sh.tunnels[n].(stopped := false)), Upping(n))
    case Upping(_) => To(sh, SyncWait(false))
    case Serving(n, g) =>
      if n !in sh.tunnels || sh.mu.Some? || (a.Go? && g !in sh.cancelled) then None
      else
        var sh' := SetHandle(sh, n, sh.tunnels[n].(gen := None));
        To(if g in sh.cancelled then sh' else Lost(sh', n), ServeClose(g))
    case ServeClose(g) => To(sh.(closed := sh.closed + {g}), Done)
    case _ => None
  }

  function Local(sh: Shared, t: Tid, pc: PC, a: Action, selected: bool): Option<Effect> {
    match pc
    case InSync(sync) => GoSync(sh, sync, a)
    case StopMark(_) => if a.Go? then GoStop(sh, pc, selected) else None
    case StopRead(_) => if a.Go? then GoStop(sh, pc, selected) else None
    case StopAwait(_, _) => if a.Go? then GoStop(sh, pc, selected) else None
    case _ => if a.Go? || (a.Fail? && pc.Serving?) then GoRest(sh, t, pc, a) else None
  }

  /** The names the sync at pc has yet to bind. */
  function BindList(pc: PC): set<Name> {
    match pc
    case InSync(Select(_, bind, _)) => bind
    case InSync(Unbinding(_, bind)) => bind
    case InSync(Awaiting(_, _, bind)) => bind
    case InSync(Binding(todo)) => todo
    case InSync(Listening(n, todo)) => {n} + todo
    case _ => {}
  }

  /** The names the sync at pc has yet to unbind. */
  function UnbindList(pc: PC): set<Name> {
    match pc
    case InSync(Select(_, _, unbind)) => unbind
    case InSync(Unbinding(todo, _)) => todo
    case InSync(Awaiting(_, todo, _)) => todo
    case _ => {}
  }

  /** The sync that runs has n on its bind list. */
  predicate Selected(s: State, n: Name) {
    s.sh.syncMu.Some? && s.sh.syncMu.value in s.threads && n in BindList(s.threads[s.sh.syncMu.value])
  }

  function Entry(req: Request): PC {
    match req
    case Stop(n) => StopMark(n)
    case Start(n) => StartMark(n)
    case StaleSync => SyncWait(true)
  }

  function Put(threads: map<Tid, PC>, t: Tid, eff: Effect): map<Tid, PC> {
    if eff.spawn == None || !eff.spawn.value.Serving? then threads[t := eff.pc]
    else threads[t := eff.pc][Serve(eff.spawn.value.g) := eff.spawn.value]
  }

  /** One step, or None when the event is not possible in s. A Change to the state an upstream already
      has runs no hook. */
  function Step(s: State, e: Event): Option<State> {
    match e
    case Begin(t, req) =>
      if t.Task? && t !in s.threads then Some(s.(threads := s.threads[t := Entry(req)])) else None
    case Change(t, upstream, state) =>
      if !t.Task? || t in s.threads || upstream !in s.sh.states then None
      else if s.sh.states[upstream] == state then Some(s)
      else Some(State(s.sh.(states := s.sh.states[upstream := state]), s.threads[t := Hook]))
    case Act(t, a) =>
      if t !in s.threads then None
      else
        var pc := s.threads[t];
        var r := Local(s.sh, t, pc, a, pc.StopRead? && Selected(s, pc.n));
        if r == None then None else Some(State(r.value.sh, Put(s.threads, t, r.value)))
  }
}
