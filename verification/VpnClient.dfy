/** The methods of the Client in pkg/openconnect/client.go as they are written, with the process they own,
    each run without interruption. */
module VpnClient {
  import opened ConnTypes
  import opened VpnMachine

  /** What the select in start receives. */
  datatype Poll = Exited | Cancelled | ClientClosed | Deadline | Ticked(ready: bool)

  /** How start goes: it fails before there is a process, or polls until the round that ends it. */
  datatype Plan = NoProcess(cancelled: bool) | Polls(poll: nat -> Poll, last: nat)

  predicate Ends(p: Poll) { p != Ticked(false) }

  /** The deadline, at the latest, ends the polling. */
  predicate PlanOk(plan: Plan) { plan.Polls? ==> Ends(plan.poll(plan.last)) }

  /** The first poll from round i on that ends start. */
  function FirstEnd(poll: nat -> Poll, last: nat, i: nat): Poll
    requires i <= last && Ends(poll(last))
    decreases last - i
  {
    if Ends(poll(i)) then poll(i) else FirstEnd(poll, last, i + 1)
  }

  class Process {
    const id: ProcId
    var up: bool
    var stopping: bool

    constructor (id: ProcId)
      ensures this.id == id && !up && !stopping
    {
      this.id, up, stopping := id, false, false;
    }
  }

  class Client {
    var proc: Process?
    var lastErr: Option<Failure>
    var state: ConnState
    var held: bool
    var manualOnly: bool
    var abort: Option<CtxId>
    var closed: bool
    // the world outside
    var running: set<ProcId>
    var undone: set<ProcId>
    var cancelled: set<CtxId>
    var nextProc: nat
    var nextCtx: nat
    var now: nat
    ghost var clearedAt: Option<nat>
    /** The processes reported to onDrop. */
    var drops: seq<ProcId>

    constructor ()
      ensures View() == INIT.sh && drops == []
    {
      proc, lastErr, state, held, manualOnly, abort, closed := null, None, ConnUnknown, false, false, None, false;
      running, undone, cancelled, nextProc, nextCtx, now, clearedAt, drops := {}, {}, {}, 0, 0, 0, None, [];
    }

    /** The shared state, with neither lock taken. */
    ghost function View(): Shared
      reads this
    {
      Shared(None, None, if proc == null then None else Some(proc.id), lastErr, state, held, manualOnly, abort, closed,
             running, undone, cancelled, nextProc, nextCtx, now, clearedAt)
    }

    /** The goroutine that start leaves behind, once p has exited. A drop is an exit of a tunnel that was up
        and that nobody stopped. */
    method Exit(p: Process)
      modifies this`state, this`undone, this`drops
      ensures View() == ExitEffect(old(View()), p.id)
      ensures drops == old(drops) + if p.up && !p.stopping && !closed then [p.id] else []
    {
      var dropped := p.up && !p.stopping && !closed;
      state := ConnDisconnected;
      undone := undone - {p.id};
      if dropped {
        drops := drops + [p.id];
      }
    }

    /** Signals p and waits until its done channel is closed. This is no drop. */
    method StopProcess(p: Process)
      modifies this`running, this`state, this`undone, this`drops, p`stopping
      ensures p.stopping && View() == StopEffect(old(View()), p.id) && drops == old(drops)
    {
      p.stopping := true;
      running := running - {p.id};
      if p.id in undone {
        Exit(p);
      }
    }

    /** Of the processes that ran, and whose done channel was open, own has ended. */
    predicate Gone(own: Option<ProcId>, ran: set<ProcId>, open: set<ProcId>)
      reads this
    {
      var ended := if own == None then {} else {own.value};
      running == ran - ended && undone == open - ended
    }

    /** What Down and Close do about the client's process. */
    method StopOwned()
      modifies this`proc, this`running, this`state, this`undone, this`drops, if proc == null then {} else {proc}
      ensures View() == StopOwn(old(View())) && drops == old(drops)
      ensures proc == null && Gone(old(if proc == null then None else Some(proc.id)), old(running), old(undone))
    {
      if proc != null {
        StopProcess(proc);
        proc := null;
      }
    }

    method Down()
      modifies this, if proc == null then {} else {proc}
      ensures View() == DownAlone(old(View())) && drops == old(drops)
      ensures held && proc == null && state == ConnUnknown && lastErr == None && closed == old(closed)
      ensures Gone(old(if proc == null then None else Some(proc.id)), old(running), old(undone))
    {
      held := true;
      if abort.Some? {
        cancelled := cancelled + {abort.value};
      }
      StopOwned();
      lastErr := None;
      state := ConnUnknown;
    }

    method Close()
      modifies this, if proc == null then {} else {proc}
      ensures View() == CloseAlone(old(View())) && drops == old(drops)
      ensures closed && proc == null && state == ConnDisconnected
      ensures Gone(old(if proc == null then None else Some(proc.id)), old(running), old(undone))
      ensures held == old(held) && lastErr == old(lastErr) && manualOnly == old(manualOnly) && abort == old(abort)
    {
      closed := true;
      StopOwned();
      state := ConnDisconnected;
    }

    method SetAbort(cancel: Option<CtxId>) returns (ok: bool)
      modifies this`abort
      ensures ok == !(cancel.Some? && held)
      ensures View() == if ok then old(View()).(abort := cancel) else old(View())
    {
      if cancel.Some? && held {
        return false;
      }
      abort := cancel;
      return true;
    }

    /** On success there is one more process, of a new id, and it runs. On failure there is none more: start
        returns only after a process it started has exited. */
    method Start(ctx: CtxId, plan: Plan) returns (p: Process?)
      requires PlanOk(plan)
      modifies this`running, this`undone, this`nextProc, this`state, this`drops, this`cancelled
      ensures p != null ==> fresh(p) && p.id == old(nextProc) && p.up && !p.stopping
      ensures p != null <==> Starts(plan)
      ensures View() == StartEffect(old(View()), ctx, plan) && drops == old(drops)
    {
      if plan.NoProcess? {
        if plan.cancelled {
          cancelled := cancelled + {ctx};
        }
        return null;
      }
      p := new Process(nextProc);
      running, undone, nextProc := running + {p.id}, undone + {p.id}, nextProc + 1;
      var i := 0;
      while true
        invariant i <= plan.last && fresh(p) && p.id == old(nextProc) && !p.up && !p.stopping
        invariant FirstEnd(plan.poll, plan.last, 0) == FirstEnd(plan.poll, plan.last, i)
        invariant View() == Spawned(old(View())) && drops == old(drops)
        decreases plan.last - i
      {
        var poll := plan.poll(i);
        Receive(p, ctx, poll);
        if Ends(poll) {
          return if poll.Ticked? then p else null;
        }
        i := i + 1;
      }
    }

    /** The body of start's loop. */
    method Receive(p: Process, ctx: CtxId, poll: Poll)
      requires p.id in undone && !p.up && !p.stopping
      modifies this`running, this`undone, this`state, this`drops, this`cancelled, p
      ensures drops == old(drops)
      ensures
        if poll.Ticked? then View() == old(View()) && p.up == poll.ready && !p.stopping
        else View() == StopEffect(Ended(old(View()), ctx, poll.Cancelled?), p.id)
    {
      match poll {
        case Exited =>
          running := running - {p.id};
          Exit(p);
        case Cancelled =>
          cancelled := cancelled + {ctx};
          StopProcess(p);
        case ClientClosed =>
          StopProcess(p);
        case Deadline =>
          StopProcess(p);
        case Ticked(ready) =>
          if ready {
            p.up := true;
          }
      }
    }

    method Up(plan: Plan) returns (r: Result)
      requires PlanOk(plan)
      modifies this
      ensures (View(), r) == UpAlone(old(View()), plan) && drops == old(drops)
    {
      held := false;
      clearedAt := Some(now);
      r := Get(true, now, plan);
    }

    /** get from where it holds mu, having arrived at queued. */
    method Get(explicit: bool, queued: nat, plan: Plan) returns (r: Result)
      requires PlanOk(plan)
      modifies this
      ensures (View(), r) == GetAlone(old(View()), explicit, queued, plan)
      ensures drops == old(drops)
      ensures proc == old(proc) || proc == null || (fresh(proc) && proc.up && !proc.stopping)
    {
      if closed {
        return ErrClosed;
      }
      if proc != null {
        if proc.id !in undone {
          proc := null;
        } else {
          state := ConnConnected;
          return Addr(proc.id);
        }
      }
      if !explicit && manualOnly {
        return ErrDisconnected;
      }
      if lastErr.Some? && IsAfter(lastErr.value.at, queued) {
        return StartError(lastErr.value.ctx);
      }
      r := Launch(plan);
    }

    /** get from its own start on. */
    method Launch(plan: Plan) returns (r: Result)
      requires PlanOk(plan) && proc == null
      modifies this
      ensures (View(), r) == LaunchAlone(old(View()), plan)
      ensures drops == old(drops)
      ensures proc != null ==> fresh(proc) && proc.up && !proc.stopping
    {
      var sctx := nextCtx;
      nextCtx := nextCtx + 1;
      var ok := SetAbort(Some(sctx));
      if !ok {
        cancelled := cancelled + {sctx};
        return ErrDisconnected;
      }
      state := ConnConnecting;
      var p := Start(sctx, plan);
      r := Conclude(p, sctx);
    }

    /** What get makes of the outcome of start. */
    method Conclude(p: Process?, sctx: CtxId) returns (r: Result)
      requires proc == null
      modifies this
      ensures (View(), r) == Concluded(old(View()), sctx, if p == null then None else Some(p.id))
      ensures proc == p && drops == old(drops)
    {
      if p == null {
        state := ConnDisconnected;
        if sctx !in cancelled {
          lastErr := Some(Failure(sctx, now));
        }
        r := StartError(sctx);
      } else {
        proc := p;
        lastErr := None;
        state := ConnConnected;
        r := Addr(p.id);
      }
      // the deferred calls
      var cleared := SetAbort(None);
      cancelled := cancelled + {sctx};
    }
  }

  // ---- what each method does to the shared state ----

  function ExitEffect(sh: Shared, p: ProcId): Shared { sh.(state := ConnDisconnected, undone := sh.undone - {p}) }

  function StopEffect(sh: Shared, p: ProcId): Shared {
    var stopped := sh.(running := sh.running - {p});
    if p in sh.undone then ExitEffect(stopped, p) else stopped
  }

  function StopOwn(sh: Shared): Shared {
    if sh.proc.Some? then StopEffect(sh, sh.proc.value).(proc := None) else sh
  }

  function HeldAndAborted(sh: Shared): Shared {
    sh.(held := true, cancelled := if sh.abort.Some? then sh.cancelled + {sh.abort.value} else sh.cancelled)
  }

  function DownAlone(sh: Shared): Shared {
    StopOwn(HeldAndAborted(sh)).(lastErr := None, state := ConnUnknown)
  }

  function CloseAlone(sh: Shared): Shared { StopOwn(sh.(closed := true)).(state := ConnDisconnected) }

  function Spawned(sh: Shared): Shared {
    sh.(running := sh.running + {sh.nextProc}, undone := sh.undone + {sh.nextProc}, nextProc := sh.nextProc + 1)
  }

  /** The context ctx is cancelled, if that is what ended a start. */
  function Ended(sh: Shared, ctx: CtxId, cancelled: bool): Shared {
    if cancelled then sh.(cancelled := sh.cancelled + {ctx}) else sh
  }

  function StartEffect(sh: Shared, ctx: CtxId, plan: Plan): Shared
    requires PlanOk(plan)
  {
    match plan
    case NoProcess(cancelled) => Ended(sh, ctx, cancelled)
    case Polls(poll, last) =>
      var end := FirstEnd(poll, last, 0);
      if end.Ticked? then Spawned(sh) else StopEffect(Ended(Spawned(sh), ctx, end.Cancelled?), sh.nextProc)
  }

  /** A start that fails leaves no more processes than it found, whatever ended it. */
  lemma FailedStartLeavesNoProcess(sh: Shared, ctx: CtxId, plan: Plan)
    requires PlanOk(plan) && sh.running <= sh.undone && forall p :: p in sh.undone ==> p < sh.nextProc
    ensures
      var sh' := StartEffect(sh, ctx, plan);
      if Starts(plan) then
        sh'.running == sh.running + {sh.nextProc} && sh'.undone == sh.undone + {sh.nextProc}
      else
        && sh'.running == sh.running && sh'.undone == sh.undone
        && (plan.Polls? ==> sh'.state == ConnDisconnected)
  {
    if plan.Polls? {
      var p := sh.nextProc;
      assert sh.running + {p} - {p} == sh.running && sh.undone + {p} - {p} == sh.undone;
    }
  }

  function Concluded(sh: Shared, ctx: CtxId, p: Option<ProcId>): (Shared, Result) {
    var (after, r) :=
      if p.Some? then (sh.(proc := p, lastErr := None, state := ConnConnected), Addr(p.value))
      else if ctx in sh.cancelled then (sh.(state := ConnDisconnected), StartError(ctx))
      else (sh.(state := ConnDisconnected, lastErr := Some(Failure(ctx, sh.now))), StartError(ctx));
    (after.(abort := None, cancelled := after.cancelled + {ctx}), r)
  }

  predicate Starts(plan: Plan)
    requires PlanOk(plan)
  {
    plan.Polls? && FirstEnd(plan.poll, plan.last, 0).Ticked?
  }

  function LaunchAlone(sh: Shared, plan: Plan): (Shared, Result)
    requires PlanOk(plan)
  {
    Launched(sh.(nextCtx := sh.nextCtx + 1), sh.nextCtx, plan)
  }

  /** From setAbort on, with the context ctx. */
  function Launched(sh: Shared, ctx: CtxId, plan: Plan): (Shared, Result)
    requires PlanOk(plan)
  {
    if sh.held then (sh.(cancelled := sh.cancelled + {ctx}), ErrDisconnected)
    else
      Concluded(StartEffect(sh.(abort := Some(ctx), state := ConnConnecting), ctx, plan), ctx,
                if Starts(plan) then Some(sh.nextProc) else None)
  }

  /** A process whose done channel is open is reused, another one is dropped. Only a get that would start
      a process looks at held. */
  function GetAlone(sh: Shared, explicit: bool, queued: nat, plan: Plan): (Shared, Result)
    requires PlanOk(plan)
  {
    if sh.closed then (sh, ErrClosed)
    else if sh.proc.Some? && sh.proc.value in sh.undone then
      (sh.(state := ConnConnected), Addr(sh.proc.value))
    else
      var sh' := sh.(proc := None);
      if !explicit && sh.manualOnly then (sh', ErrDisconnected)
      else if Answers(sh.lastErr, queued) then (sh', StartError(sh.lastErr.value.ctx))
      else LaunchAlone(sh', plan)
  }

  function UpAlone(sh: Shared, plan: Plan): (Shared, Result)
    requires PlanOk(plan)
  {
    GetAlone(sh.(held := false, clearedAt := Some(sh.now)), true, sh.now, plan)
  }

  /** An address is only ever handed out with a process that runs behind it, as far as the client knows. */
  lemma AddressMeansProcess(sh: Shared, explicit: bool, queued: nat, plan: Plan)
    requires PlanOk(plan)
    ensures
      var (after, r) := GetAlone(sh, explicit, queued, plan);
      r.Addr? ==> after.proc == Some(r.p) && r.p in after.undone && after.state.ConnConnected? && !after.closed
  {
  }
}
