/** The methods of the Client in pkg/sshclient/client.go as they are written, each proved to do what the
    protocol's steps do to one goroutine that is not interrupted. */
module SshClient {
  import opened ConnTypes
  import opened SshMachine

  /** How a dial ends. */
  datatype Dialled = Succeeds | Fails | FailsCancelled

  class Client {
    var cli: Option<ConnId>
    var lastErr: Option<Failure>
    var state: ConnState
    var held: bool
    var manualOnly: bool
    var abort: Option<CtxId>
    // the world outside
    var open: set<ConnId>
    var cancelled: set<CtxId>
    var aborting: set<CtxId>
    var nextConn: nat
    var nextCtx: nat
    var now: nat
    ghost var clearedAt: Option<nat>
    ghost var adopted: set<ConnId>

    constructor ()
      ensures View() == INIT.sh
    {
      cli, lastErr, state, held, manualOnly, abort := None, None, ConnUnknown, false, false, None;
      open, cancelled, aborting, nextConn, nextCtx, now := {}, {}, {}, 0, 0, 0;
      clearedAt, adopted := None, {};
    }

    /** The shared state, with neither lock taken. */
    ghost function View(): Shared
      reads this
    {
      Shared(None, None, cli, lastErr, state, held, manualOnly, abort, open, cancelled, aborting, nextConn, nextCtx,
             now, clearedAt, adopted)
    }

    method Shut(conn: Option<ConnId>)
      modifies this`open
      ensures View() == CloseConn(old(View()), conn)
    {
      if conn.Some? {
        open := open - {conn.value};
      }
    }

    method SetAbort(cancel: Option<CtxId>) returns (ok: bool)
      modifies this`abort
      ensures ok == !(cancel.Some? && held)
      ensures View() == if ok then old(View()).(abort := cancel) else old(View())
    {
      if cancel.Some? && held {
        return false;
      }
      abort := cancel;
      return true;
    }

    method Down()
      modifies this
      ensures View() == DownAlone(old(View()))
      ensures held && cli == None && state == ConnUnknown && lastErr == None
      ensures open == old(open - if cli.Some? then {cli.value} else {})
      ensures cancelled == old(cancelled + if abort.Some? then {abort.value} else {}) && abort == old(abort)
    {
      held := true;
      if abort.Some? {
        cancelled := cancelled + {abort.value};
      }
      if cli.Some? {
        Shut(cli);
        cli := None;
      }
      lastErr := None;
      state := ConnUnknown;
    }

    method Close()
      modifies this
      ensures View() == CloseEffect(old(View()))
      ensures cli == None && state == ConnDisconnected && open == old(open - if cli.Some? then {cli.value} else {})
      ensures held == old(held) && lastErr == old(lastErr) && manualOnly == old(manualOnly) && abort == old(abort)
    {
      state := ConnDisconnected;
      if cli == None {
        return;
      }
      Shut(cli);
      cli := None;
    }

    /** The goroutine of watch, once id has closed. */
    method Drop(id: ConnId)
      modifies this
      ensures View() == DropEffect(old(View()), id)
    {
      if cli == Some(id) {
        cli := None;
        state := ConnDisconnected;
      }
    }

    method Forget(id: ConnId)
      modifies this
      ensures View() == DropEffect(CloseConn(old(View()), Some(id)), id)
    {
      Shut(Some(id));
      Drop(id);
    }

    /** dial: on success, a connection of an id never used before. */
    method Dial(ctx: CtxId, outcome: Dialled) returns (conn: Option<ConnId>)
      modifies this
      ensures conn == (if outcome.Succeeds? then Some(old(nextConn)) else None)
      ensures View() == AfterDial(old(View()), ctx, outcome)
    {
      if outcome.Succeeds? {
        conn := Some(nextConn);
        open, nextConn := open + {nextConn}, nextConn + 1;
      } else {
        conn := None;
        if outcome.FailsCancelled? {
          cancelled := cancelled + {ctx};
        }
      }
    }

    method Up(outcome: Dialled) returns (r: Result)
      modifies this
      ensures (View(), r) == UpAlone(old(View()), outcome)
    {
      held := false;
      clearedAt := Some(now);
      r := Get(true, now, outcome);
    }

    /** get from where it holds mu, having arrived at queued. */
    method Get(explicit: bool, queued: nat, outcome: Dialled) returns (r: Result)
      modifies this
      ensures (View(), r) == GetAlone(old(View()), explicit, queued, outcome)
    {
      if held {
        return ErrDisconnected;
      }
      if cli.Some? {
        state := ConnConnected;
        return Conn(cli.value);
      }
      if !explicit && manualOnly {
        return ErrDisconnected;
      }
      if lastErr.Some? && IsAfter(lastErr.value.at, queued) {
        return DialError(lastErr.value.ctx);
      }
      r := Connect(outcome);
    }

    /** get from its own dial on. */
    method Connect(outcome: Dialled) returns (r: Result)
      modifies this
      ensures (View(), r) == ConnectAlone(old(View()), outcome)
    {
      var dctx := nextCtx;
      nextCtx := nextCtx + 1;
      var ok := SetAbort(Some(dctx));
      if !ok {
        cancelled := cancelled + {dctx};
        return ErrDisconnected;
      }
      state := ConnConnecting;
      r := Conclude(dctx, outcome);
    }

    /** The dial, and what get makes of it. */
    method Conclude(dctx: CtxId, outcome: Dialled) returns (r: Result)
      modifies this
      ensures (View(), r) == Concluded(old(View()), dctx, outcome)
    {
      var conn := Dial(dctx, outcome);
      if conn == None {
        state := ConnDisconnected;
        if dctx !in cancelled {
          lastErr := Some(Failure(dctx, now));
        }
        r := DialError(dctx);
      } else {
        cli := conn;
        lastErr := None;
        state := ConnConnected;
        adopted := adopted + {conn.value};
        r := Conn(conn.value);
      }
      // the deferred calls
      var cleared := SetAbort(None);
      cancelled := cancelled + {dctx};
    }

    /** Opens a channel, on a connection that dials make if need be; outcomes decide what becomes of the
        first and the second try. */
    method DialContext(dials: bool -> Dialled, outcomes: bool -> Outcome) returns (r: Result, tried: seq<ConnId>)
      requires cli.Some? ==> cli.value < nextConn
      modifies this
      ensures |tried| <= 2 && (|tried| == 2 ==> tried[0] != tried[1])
      ensures r.ChannelOpened? <==> tried != [] && outcomes(|tried| == 2).Opened?
      ensures r.ChannelOpened? ==> r.id == tried[|tried| - 1]
      ensures |tried| == 2 ==> outcomes(false).Broken? && cli != Some(tried[0])
      ensures (View(), r) == DialContextAlone(old(View()), dials, outcomes)
    {
      tried := [];
      var retry := false;
      while true
        invariant cli.Some? ==> cli.value < nextConn
        invariant retry ==> |tried| == 1 && cli != Some(tried[0]) && tried[0] < nextConn && outcomes(false).Broken?
        invariant !retry ==> tried == []
        invariant
          if retry then Tried(old(View()), dials(false), outcomes(false), false) == Again(View())
          else View() == old(View())
        decreases !retry
      {
        var got := Get(false, now, dials(retry));
        if !got.Conn? {
          return got, tried;
        }
        tried := tried + [got.id];
        var outcome := outcomes(retry);
        if outcome.Opened? {
          return ChannelOpened(got.id), tried;
        }
        if outcome.Final? || retry {
          return ChannelFailed, tried;
        }
        Forget(got.id);
        retry := true;
      }
    }
  }

  // ---- what each method does to the shared state ----

  function DownAlone(sh: Shared): Shared {
    DownEffect(sh.(held := true, cancelled := if sh.abort.Some? then sh.cancelled + {sh.abort.value} else sh.cancelled))
  }

  function AfterDial(sh: Shared, ctx: CtxId, outcome: Dialled): Shared {
    match outcome
    case Succeeds => sh.(open := sh.open + {sh.nextConn}, nextConn := sh.nextConn + 1)
    case Fails => sh
    case FailsCancelled => sh.(cancelled := sh.cancelled + {ctx})
  }

  /** Nothing but ErrDisconnected while held down; the open connection if there is one; the error of a dial
      that failed after the caller's arrival; otherwise what a new dial makes of it. */
  function GetAlone(sh: Shared, explicit: bool, queued: nat, outcome: Dialled): (Shared, Result) {
    if sh.held then (sh, ErrDisconnected)
    else if sh.cli.Some? then (sh.(state := ConnConnected), Conn(sh.cli.value))
    else if !explicit && sh.manualOnly then (sh, ErrDisconnected)
    else if Answers(sh.lastErr, queued) then (sh, DialError(sh.lastErr.value.ctx))
    else ConnectAlone(sh, outcome)
  }

  /** One round of DialContext: it ends, or the connection is forgotten and it goes round again. */
  datatype Round = Ends(sh: Shared, r: Result) | Again(sh: Shared)

  function Tried(sh: Shared, dial: Dialled, outcome: Outcome, retry: bool): Round {
    var (after, got) := GetAlone(sh, false, sh.now, dial);
    if !got.Conn? then Ends(after, got)
    else if outcome.Opened? then Ends(after, ChannelOpened(got.id))
    else if outcome.Final? || retry then Ends(after, ChannelFailed)
    else Again(DropEffect(CloseConn(after, Some(got.id)), got.id))
  }

  function DialContextAlone(sh: Shared, dials: bool -> Dialled, outcomes: bool -> Outcome): (Shared, Result) {
    match Tried(sh, dials(false), outcomes(false), false)
    case Ends(after, r) => (after, r)
    case Again(again) =>
      var last := Tried(again, dials(true), outcomes(true), true);
      if last.Ends? then (last.sh, last.r) else assert false; (sh, Nothing)
  }

  function UpAlone(sh: Shared, outcome: Dialled): (Shared, Result) {
    GetAlone(sh.(held := false, clearedAt := Some(sh.now)), true, sh.now, outcome)
  }

  function ConnectAlone(sh: Shared, outcome: Dialled): (Shared, Result) {
    var ctx := sh.nextCtx;
    if sh.held then (sh.(nextCtx := ctx + 1, cancelled := sh.cancelled + {ctx}), ErrDisconnected)
    else Concluded(sh.(nextCtx := ctx + 1, abort := Some(ctx), state := ConnConnecting), ctx, outcome)
  }

  /** The dial with context ctx and what get makes of its outcome. */
  function Concluded(sh: Shared, ctx: CtxId, outcome: Dialled): (Shared, Result) {
    var dialled := AfterDial(sh, ctx, outcome);
    var (after, r) :=
      if outcome.Succeeds? then (AdoptEffect(dialled, sh.nextConn), Conn(sh.nextConn))
      else if ctx in dialled.cancelled then (dialled.(state := ConnDisconnected), DialError(ctx))
      else (dialled.(state := ConnDisconnected, lastErr := Some(Failure(ctx, sh.now))), DialError(ctx));
    (after.(abort := None, cancelled := after.cancelled + {ctx}), r)
  }

  // ---- the same, step by step ----

  /** Goroutine t taking these steps with no other in between. */
  function Alone(sh: Shared, t: Tid, th: Thread, actions: seq<Action>): Option<(Shared, Thread)>
    decreases |actions|
  {
    if actions == [] then Some((sh, th))
    else
      match Local(sh, t, th, actions[0])
      case None => None
      case Some(eff) => Alone(eff.sh, t, eff.th, actions[1..])
  }

  /** From sh and th, goroutine t can get to sh' and th' uninterrupted. */
  ghost predicate Reaches(sh: Shared, t: Tid, th: Thread, sh': Shared, th': Thread) {
    exists actions :: Alone(sh, t, th, actions) == Some((sh', th'))
  }

  lemma Stays(sh: Shared, t: Tid, th: Thread)
    ensures Reaches(sh, t, th, sh, th)
  {
    assert Alone(sh, t, th, []) == Some((sh, th));
  }

  /** One step before the others. */
  lemma First(sh: Shared, t: Tid, th: Thread, a: Action, sh': Shared, th': Thread)
    requires
      && Local(sh, t, th, a).Some?
      && var eff := Local(sh, t, th, a).value;
         Reaches(eff.sh, t, eff.th, sh', th')
    ensures Reaches(sh, t, th, sh', th')
  {
    var eff := Local(sh, t, th, a).value;
    var actions :| Alone(eff.sh, t, eff.th, actions) == Some((sh', th'));
    assert ([a] + actions)[1..] == actions;
    assert Alone(sh, t, th, [a] + actions) == Some((sh', th'));
  }

  predicate Unlocked(sh: Shared) { sh.mu == None && sh.abortMu == None }

  /** The determined steps of a goroutine, n of them. */
  function Determined(sh: Shared, t: Tid, th: Thread, n: nat): Option<(Shared, Thread)>
    decreases n
  {
    if n == 0 then Some((sh, th))
    else
      match GoStep(sh, t, th)
      case None => None
      case Some(eff) => Determined(eff.sh, t, eff.th, n - 1)
  }

  lemma {:induction false} DeterminedReaches(sh: Shared, t: Tid, th: Thread, n: nat, sh': Shared, th': Thread)
    requires
      && Determined(sh, t, th, n).Some?
      && var (sh1, th1) := Determined(sh, t, th, n).value;
         Reaches(sh1, t, th1, sh', th')
    ensures Reaches(sh, t, th, sh', th')
    decreases n
  {
    if n > 0 {
      var eff := GoStep(sh, t, th).value;
      DeterminedReaches(eff.sh, t, eff.th, n - 1, sh', th');
      First(sh, t, th, Go, sh', th');
    }
  }

  /** The method Down does what a Down of the protocol does uninterrupted. */
  lemma DownIsItsSteps(sh: Shared, t: Tid)
    requires Unlocked(sh)
    ensures Reaches(sh, t, Thread(OpDown, Entry(OpDown), []), DownAlone(sh), Thread(OpDown, Done(Nothing), []))
  {
    var end := Thread(OpDown, Done(Nothing), []);
    Stays(DownAlone(sh), t, end);
    DeterminedReaches(sh, t, Thread(OpDown, Entry(OpDown), []), 5, DownAlone(sh), end);
  }

  lemma CloseIsItsSteps(sh: Shared, t: Tid)
    requires Unlocked(sh)
    ensures Reaches(sh, t, Thread(OpClose, Entry(OpClose), []), CloseEffect(sh), Thread(OpClose, Done(Nothing), []))
  {
    var end := Thread(OpClose, Done(Nothing), []);
    Stays(CloseEffect(sh), t, end);
    DeterminedReaches(sh, t, Thread(OpClose, Entry(OpClose), []), 2, CloseEffect(sh), end);
  }

  /** Forget of connection id, called by a DialContext, which then goes round its loop. */
  lemma ForgetIsItsSteps(sh: Shared, t: Tid, id: ConnId, tried: seq<ConnId>)
    requires Unlocked(sh)
    ensures Reaches(sh, t, Thread(OpDialContext, InDrop(id, Shut), tried), DropEffect(CloseConn(sh, Some(id)), id),
              Thread(OpDialContext, InGet(Stamp), tried))
  {
    var after, end := DropEffect(CloseConn(sh, Some(id)), id), Thread(OpDialContext, InGet(Stamp), tried);
    Stays(after, t, end);
    DeterminedReaches(sh, t, Thread(OpDialContext, InDrop(id, Shut), tried), 3, after, end);
  }

  /** How a call of kind op goes on once its get has returned r. */
  function Got(op: Op, r: Result): PC { if op.OpDialContext? && r.Conn? then ChannelOpen(r.id) else Done(r) }

  predicate Gets(op: Op) { op.OpGet? || op.OpUp? || op.OpDialContext? }

  /** The method Get does what a get of the protocol, of any kind of call, can do uninterrupted from where it waits
      for mu. */
  lemma GetIsItsSteps(sh: Shared, t: Tid, op: Op, tried: seq<ConnId>, queued: nat, outcome: Dialled)
    requires Gets(op) && Unlocked(sh) && sh.nextCtx !in sh.cancelled && sh.nextCtx !in sh.aborting
    ensures
      var (sh', r) := GetAlone(sh, op.OpUp?, queued, outcome);
      Reaches(sh, t, Thread(op, InGet(Wait(queued)), tried), sh', Thread(op, Got(op, r), tried))
  {
    var th := Thread(op, InGet(Wait(queued)), tried);
    var (sh', r) := GetAlone(sh, op.OpUp?, queued, outcome);
    var end := Thread(op, Got(op, r), tried);
    Stays(sh', t, end);
    if sh.held {
      DeterminedReaches(sh, t, th, 3, sh', end);
    } else if sh.cli.Some? {
      DeterminedReaches(sh, t, th, 4, sh', end);
    } else {
      DialOrNot(sh, t, op, tried, queued, outcome);
    }
  }

  /** get that finds no connection. */
  lemma DialOrNot(sh: Shared, t: Tid, op: Op, tried: seq<ConnId>, queued: nat, outcome: Dialled)
    requires Gets(op) && Unlocked(sh) && sh.nextCtx !in sh.cancelled && sh.nextCtx !in sh.aborting
    requires !sh.held && sh.cli == None
    ensures
      var (sh', r) := GetAlone(sh, op.OpUp?, queued, outcome);
      Reaches(sh, t, Thread(op, InGet(Wait(queued)), tried), sh', Thread(op, Got(op, r), tried))
  {
    var th := Thread(op, InGet(Wait(queued)), tried);
    var (sh', r) := GetAlone(sh, op.OpUp?, queued, outcome);
    var end := Thread(op, Got(op, r), tried);
    Stays(sh', t, end);
    if !op.OpUp? && sh.manualOnly {
      DeterminedReaches(sh, t, th, 5, sh', end);
    } else if Answers(sh.lastErr, queued) {
      DeterminedReaches(sh, t, th, 6, sh', end);
    } else {
      ConnectIsItsSteps(sh, t, op, tried, outcome);
      var locked := sh.(mu := Some(t), nextCtx := sh.nextCtx + 1);
      assert Determined(sh, t, th, 5) == Some((locked, Thread(op, InDial(sh.nextCtx, PubLock), tried)));
      DeterminedReaches(sh, t, th, 5, sh', end);
    }
  }

  lemma ConnectIsItsSteps(sh: Shared, t: Tid, op: Op, tried: seq<ConnId>, outcome: Dialled)
    requires Gets(op) && Unlocked(sh) && !sh.held && sh.nextCtx !in sh.cancelled && sh.nextCtx !in sh.aborting
    ensures
      var (sh', r) := ConnectAlone(sh, outcome);
      Reaches(sh.(mu := Some(t), nextCtx := sh.nextCtx + 1), t, Thread(op, InDial(sh.nextCtx, PubLock), tried), sh',
        Thread(op, Got(op, r), tried))
  {
    var ctx := sh.nextCtx;
    var start, th := sh.(mu := Some(t), nextCtx := ctx + 1), Thread(op, InDial(ctx, PubLock), tried);
    var dialling := start.(abort := Some(ctx), state := ConnConnecting);
    var (sh', r) := ConnectAlone(sh, outcome);
    var end := Thread(op, Got(op, r), tried);
    OutcomeIsItsSteps(dialling, t, op, tried, ctx, outcome);
    assert Determined(start, t, th, 4) == Some((dialling, Thread(op, InDial(ctx, Dialing(None)), tried)));
    DeterminedReaches(start, t, th, 4, sh', end);
  }

  lemma OutcomeIsItsSteps(sh: Shared, t: Tid, op: Op, tried: seq<ConnId>, ctx: CtxId, outcome: Dialled)
    requires Gets(op) && sh.mu == Some(t) && sh.abortMu == None && ctx !in sh.cancelled && ctx !in sh.aborting
    ensures
      var (sh', r) := Concluded(sh, ctx, outcome);
      Reaches(sh, t, Thread(op, InDial(ctx, Dialing(None)), tried), sh'.(mu := None), Thread(op, Got(op, r), tried))
  {
    var th := Thread(op, InDial(ctx, Dialing(None)), tried);
    var (sh', r) := Concluded(sh, ctx, outcome);
    var end := Thread(op, Got(op, r), tried);
    var after := sh'.(mu := None);
    match outcome
    case Succeeds => SuccessIsItsSteps(sh, t, op, tried, ctx, after, end);
    case Fails => FailureIsItsSteps(sh, t, op, tried, ctx, after, end);
    case FailsCancelled =>
      FailureIsItsSteps(sh.(cancelled := sh.cancelled + {ctx}), t, op, tried, ctx, after, end);
      First(sh, t, th, CallerCancel, after, end);
  }

  lemma SuccessIsItsSteps(sh: Shared, t: Tid, op: Op, tried: seq<ConnId>, ctx: CtxId, after: Shared, end: Thread)
    requires Gets(op) && sh.mu == Some(t) && sh.abortMu == None && ctx !in sh.aborting
    requires after == Concluded(sh, ctx, Succeeds).0.(mu := None)
    requires end == Thread(op, Got(op, Conn(sh.nextConn)), tried)
    ensures Reaches(sh, t, Thread(op, InDial(ctx, Dialing(None)), tried), after, end)
  {
    var th := Thread(op, InDial(ctx, Dialing(None)), tried);
    var eff := Local(sh, t, th, Connect).value;
    Stays(after, t, end);
    DeterminedReaches(eff.sh, t, eff.th, 5, after, end);
    First(sh, t, th, Connect, after, end);
  }

  lemma FailureIsItsSteps(sh: Shared, t: Tid, op: Op, tried: seq<ConnId>, ctx: CtxId, after: Shared, end: Thread)
    requires Gets(op) && sh.mu == Some(t) && sh.abortMu == None
    requires after == Concluded(sh, ctx, Fails).0.(mu := None) && end == Thread(op, Done(DialError(ctx)), tried)
    ensures Reaches(sh, t, Thread(op, InDial(ctx, Dialing(None)), tried), after, end)
  {
    var th := Thread(op, InDial(ctx, Dialing(None)), tried);
    var eff := Local(sh, t, th, DialFail).value;
    Stays(after, t, end);
    assert Determined(eff.sh, t, eff.th, 2).value.1 == Thread(op, InDial(ctx, ClearLock(DialError(ctx))), tried);
    DeterminedReaches(eff.sh, t, eff.th, 5, after, end);
    First(sh, t, th, DialFail, after, end);
  }

  /** The method Up does what an Up of the protocol does uninterrupted. */
  lemma UpIsItsSteps(sh: Shared, t: Tid, outcome: Dialled)
    requires Unlocked(sh) && sh.nextCtx !in sh.cancelled && sh.nextCtx !in sh.aborting
    ensures
      var (sh', r) := UpAlone(sh, outcome);
      Reaches(sh, t, Thread(OpUp, Entry(OpUp), []), sh', Thread(OpUp, Done(r), []))
  {
    var (sh', r) := UpAlone(sh, outcome);
    var cleared := sh.(held := false, clearedAt := Some(sh.now));
    GetIsItsSteps(cleared, t, OpUp, [], sh.now, outcome);
    assert Determined(sh, t, Thread(OpUp, Entry(OpUp), []), 2)
      == Some((cleared, Thread(OpUp, InGet(Wait(sh.now)), [])));
    DeterminedReaches(sh, t, Thread(OpUp, Entry(OpUp), []), 2, sh', Thread(OpUp, Done(r), []));
  }

  // ---- DialContext ----

  lemma Joined(sh: Shared, t: Tid, th: Thread, via: Shared, through: Thread, sh': Shared, th': Thread)
    requires Reaches(sh, t, th, via, through) && Reaches(via, t, through, sh', th')
    ensures Reaches(sh, t, th, sh', th')
  {
    var first :| Alone(sh, t, th, first) == Some((via, through));
    JoinedAlone(sh, t, th, first, via, through, sh', th');
  }

  lemma {:induction false} JoinedAlone(sh: Shared, t: Tid, th: Thread, first: seq<Action>, via: Shared, through: Thread,
      sh': Shared, th': Thread)
    requires Alone(sh, t, th, first) == Some((via, through)) && Reaches(via, t, through, sh', th')
    ensures Reaches(sh, t, th, sh', th')
    decreases |first|
  {
    if first != [] {
      var eff := Local(sh, t, th, first[0]).value;
      JoinedAlone(eff.sh, t, eff.th, first[1..], via, through, sh', th');
      First(sh, t, th, first[0], sh', th');
    }
  }

  /** No context that has yet to be made is in use. */
  ghost predicate CtxBounded(sh: Shared) { forall c :: c in sh.cancelled || c in sh.aborting ==> c < sh.nextCtx }

  lemma GetStaysUnlocked(sh: Shared, explicit: bool, queued: nat, outcome: Dialled)
    requires Unlocked(sh) && CtxBounded(sh)
    ensures Unlocked(GetAlone(sh, explicit, queued, outcome).0) && CtxBounded(GetAlone(sh, explicit, queued, outcome).0)
  {
  }

  /** One round of DialContext, from its get to the outcome of its channel open, and to forget if it goes round
      again. */
  lemma RoundIsItsSteps(sh: Shared, t: Tid, tried: seq<ConnId>, dial: Dialled, outcome: Outcome)
    requires Unlocked(sh) && CtxBounded(sh) && |tried| <= 1
    ensures
      var th := Thread(OpDialContext, InGet(Stamp), tried);
      var (after, got) := GetAlone(sh, false, sh.now, dial);
      var more := if got.Conn? then tried + [got.id] else tried;
      match Tried(sh, dial, outcome, tried != [])
      case Ends(sh', r) => Reaches(sh, t, th, sh', Thread(OpDialContext, Done(r), more))
      case Again(sh') => Reaches(sh, t, th, sh', Thread(OpDialContext, InGet(Stamp), more))
  {
    var th := Thread(OpDialContext, InGet(Stamp), tried);
    var waiting := Thread(OpDialContext, InGet(Wait(sh.now)), tried);
    var (after, got) := GetAlone(sh, false, sh.now, dial);
    var returned := Thread(OpDialContext, Got(OpDialContext, got), tried);
    GetIsItsSteps(sh, t, OpDialContext, tried, sh.now, dial);
    GetStaysUnlocked(sh, false, sh.now, dial);
    First(sh, t, th, Go, after, returned);
    if got.Conn? {
      OpenIsItsSteps(after, t, got.id, tried, outcome);
      var (sh', end) := Opened1(after, got.id, tried, outcome);
      Joined(sh, t, th, after, returned, sh', end);
    }
  }

  /** Where a channel open on connection id leads. */
  function Opened1(sh: Shared, id: ConnId, tried: seq<ConnId>, outcome: Outcome): (Shared, Thread) {
    var more := tried + [id];
    if outcome.Opened? then (sh, Thread(OpDialContext, Done(ChannelOpened(id)), more))
    else if outcome.Final? || tried != [] then (sh, Thread(OpDialContext, Done(ChannelFailed), more))
    else (DropEffect(CloseConn(sh, Some(id)), id), Thread(OpDialContext, InGet(Stamp), more))
  }

  lemma OpenIsItsSteps(sh: Shared, t: Tid, id: ConnId, tried: seq<ConnId>, outcome: Outcome)
    requires Unlocked(sh)
    ensures
      var (sh', end) := Opened1(sh, id, tried, outcome);
      Reaches(sh, t, Thread(OpDialContext, ChannelOpen(id), tried), sh', end)
  {
    var (sh', end) := Opened1(sh, id, tried, outcome);
    var th := Thread(OpDialContext, ChannelOpen(id), tried);
    assert [] + [id] == [id];
    if outcome.Broken? && tried == [] {
      ForgetIsItsSteps(sh, t, id, [id]);
    } else {
      Stays(sh', t, end);
    }
    assert |tried| > 0 <==> tried != [];
    First(sh, t, th, Channel(outcome), sh', end);
  }

  /** The method DialContext does what a DialContext of the protocol does uninterrupted. */
  lemma DialContextIsItsSteps(sh: Shared, t: Tid, dials: bool -> Dialled, outcomes: bool -> Outcome)
    returns (tried: seq<ConnId>)
    requires Unlocked(sh) && CtxBounded(sh)
    ensures
      var (sh', r) := DialContextAlone(sh, dials, outcomes);
      Reaches(sh, t, Thread(OpDialContext, Entry(OpDialContext), []), sh', Thread(OpDialContext, Done(r), tried))
  {
    var th := Thread(OpDialContext, Entry(OpDialContext), []);
    var (after, got) := GetAlone(sh, false, sh.now, dials(false));
    RoundIsItsSteps(sh, t, [], dials(false), outcomes(false));
    GetStaysUnlocked(sh, false, sh.now, dials(false));
    tried := if got.Conn? then [] + [got.id] else [];
    match Tried(sh, dials(false), outcomes(false), false)
    case Ends(_, _) =>
    case Again(again) =>
      assert again == DropEffect(CloseConn(after, Some(got.id)), got.id);
      assert Unlocked(again) && CtxBounded(again);
      RoundIsItsSteps(again, t, tried, dials(true), outcomes(true));
      var between := Thread(OpDialContext, InGet(Stamp), tried);
      var (sh', r) := DialContextAlone(sh, dials, outcomes);
      var (_, more) := GetAlone(again, false, again.now, dials(true));
      tried := if more.Conn? then tried + [more.id] else tried;
      Joined(sh, t, th, again, between, sh', Thread(OpDialContext, Done(r), tried));
  }
}
