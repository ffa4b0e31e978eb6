/** The shared deadline of one SSH dial: pkg/sshclient/attempt.go, and the ending of dial in
    pkg/sshclient/client.go that hands the connection out. */
module Attempt {
  import opened ConnTypes

  datatype Deadline = Never | At(t: int)

  /** time.Unix(1, 0), which is past. */
  const PAST := 1

  class Sock {
    var deadline: Deadline

    constructor ()
      ensures deadline == Never
    {
      deadline := Never;
    }
  }

  /** An attempt as a value: the deadlines of its sockets in the order they were added. */
  datatype View = View(deadlines: seq<Deadline>, at: int, aborted: bool)

  /** All sockets carry the one deadline, which is past once aborted. */
  predicate Shared(v: View) {
    && (forall d <- v.deadlines :: d == At(v.at))
    && (v.aborted ==> v.at == PAST)
  }

  function WithDeadline(v: View, at: int): View { v.(deadlines := seq(|v.deadlines|, i => At(at)), at := at) }

  function Added(v: View): View { v.(deadlines := v.deadlines + [At(v.at)]) }

  function Extended(v: View, at: int): View { if v.aborted then v else WithDeadline(v, at) }

  function Aborted(v: View): View { WithDeadline(v, PAST).(aborted := true) }

  class Attempt {
    const timeout: nat
    const approval: nat
    var conns: seq<Sock>
    var at: int
    var aborted: bool
    /** The calls made to onSign. */
    var signs: seq<bool>

    constructor (timeout: nat, approval: nat, now: int)
      ensures Value() == View([], now + timeout, false)
      ensures this.timeout == timeout && this.approval == approval && signs == []
    {
      this.timeout, this.approval := timeout, approval;
      conns, at, aborted, signs := [], now + timeout, false, [];
    }

    ghost function Value(): View
      reads this, conns
    {
      View(seq(|conns|, i requires 0 <= i < |conns| reads this, conns => conns[i].deadline), at, aborted)
    }

    method Add(c: Sock)
      requires Shared(Value())
      modifies this`conns, c
      ensures conns == old(conns) + [c] && Value() == Added(old(Value()))
    {
      ghost var v := Value();
      conns := conns + [c];
      c.deadline := At(at);
      assert forall i :: 0 <= i < |v.deadlines| ==> v.deadlines[i] in v.deadlines;
    }

    /** The loop that extend and abort share. */
    method Push()
      modifies conns
      ensures Value() == WithDeadline(old(Value()), at)
    {
      for i := 0 to |conns|
        invariant forall j :: 0 <= j < i ==> conns[j].deadline == At(at)
      {
        conns[i].deadline := At(at);
      }
    }

    method Extend(d: nat, now: int)
      modifies this`at, conns
      ensures Value() == Extended(old(Value()), now + d)
    {
      if aborted {
        return;
      }
      at := now + d;
      Push();
    }

    method Abort()
      modifies this`at, this`aborted, conns
      ensures Value() == Aborted(old(Value()))
    {
      aborted := true;
      at := PAST;
      Push();
    }

    method SignStart(now: int)
      modifies this`at, this`signs, conns
      ensures Value() == Extended(old(Value()), now + approval) && signs == old(signs) + [true]
    {
      Extend(approval, now);
      signs := signs + [true];
    }

    method SignDone(now: int)
      modifies this`at, this`signs, conns
      ensures Value() == Extended(old(Value()), now + timeout) && signs == old(signs) + [false]
    {
      Extend(timeout, now);
      signs := signs + [false];
    }
  }

  // ---- one dial ----

  /** context.AfterFunc(ctx, att.abort): not yet started, running, finished, or stopped before it started. */
  datatype Timer = Armed | Running | Finished | Stopped

  datatype Phase = Dialing | Passed | HandedOut | Discarded

  datatype State = State(view: View, timer: Timer, cancelled: bool, phase: Phase, conn: Option<nat>)

  datatype Event =
    | AddAgent
    | AddConn
    | Extend(at: int)
    | Cancel
    | StartAbort
    | RunAbort
    | Fail
    | Stop
    | Clear

  function Start(at: int): State { State(View([], at, false), Armed, false, Dialing, None) }

  /** stop(): it succeeds unless abort has started. */
  function StopTimer(t: Timer): Timer { if t == Armed then Stopped else t }

  function Step(s: State, e: Event): Option<State> {
    match e
    case AddAgent =>
      if s.phase == Dialing then Some(s.(view := Added(s.view))) else None
    case AddConn =>
      if s.phase == Dialing && s.conn == None
      then Some(s.(view := Added(s.view), conn := Some(|s.view.deadlines|))) else None
    case Extend(at) =>
      if s.phase == Dialing then Some(s.(view := Extended(s.view, at))) else None
    case Cancel =>
      Some(s.(cancelled := true))
    case StartAbort =>
      if s.cancelled && s.timer == Armed then Some(s.(timer := Running)) else None
    case RunAbort =>
      if s.timer == Running then Some(s.(timer := Finished, view := Aborted(s.view))) else None
    case Fail =>
      if s.phase == Dialing then Some(s.(timer := StopTimer(s.timer), phase := Discarded)) else None
    case Stop =>
      if s.phase == Dialing && s.conn.Some?
      then Some(s.(timer := StopTimer(s.timer), phase := if s.timer == Armed then Passed else Discarded)) else None
    case Clear =>
      if s.phase == Passed && s.conn.Some? && s.conn.value < |s.view.deadlines|
      then Some(s.(phase := HandedOut, view := s.view.(deadlines := s.view.deadlines[s.conn.value := Never]))) else None
  }

  ghost predicate IsRun(events: seq<Event>, states: seq<State>) {
    && |states| == |events| + 1
    && (exists at :: states[0] == Start(at))
    && forall i {:trigger events[i]} :: 0 <= i < |events| ==> Step(states[i], events[i]) == Some(states[i + 1])
  }

  predicate Inv(s: State) {
    && (s.phase != HandedOut ==> Shared(s.view))
    && (s.view.aborted <==> s.timer == Finished)
    && (s.phase == Passed || s.phase == HandedOut ==> s.timer == Stopped)
    && (s.conn.Some? ==> s.conn.value < |s.view.deadlines|)
    && (s.phase == Passed || s.phase == HandedOut ==> s.conn.Some?)
    && (s.phase == HandedOut ==> s.view.deadlines[s.conn.value] == Never)
    && (s.timer == Running || s.timer == Finished ==> s.cancelled)
    && (s.phase == Dialing ==> s.timer != Stopped)
    && (s.phase != Dialing ==> s.timer != Armed)
  }

  lemma InvStep(s: State, e: Event)
    requires Inv(s) && Step(s, e).Some?
    ensures Inv(Step(s, e).value)
  {
  }

  lemma {:induction false} InvAt(events: seq<Event>, states: seq<State>, i: nat)
    requires IsRun(events, states) && i < |states|
    ensures Inv(states[i])
  {
    if i > 0 {
      InvAt(events, states, i - 1);
      InvStep(states[i - 1], events[i - 1]);
    }
  }

  /** Until a connection is handed out, all sockets of the attempt carry the same deadline; once abort has
      run, that is a past one, and every socket of then and later keeps it. */
  lemma {:induction false} AbortSticks(events: seq<Event>, states: seq<State>, i: nat, j: nat)
    requires IsRun(events, states) && i <= j < |states|
    ensures states[j].phase != HandedOut ==> Shared(states[j].view)
    ensures states[i].view.aborted ==>
      && states[j].view.aborted && |states[i].view.deadlines| <= |states[j].view.deadlines|
      && forall d <- states[j].view.deadlines :: d == At(PAST)
    decreases j - i
  {
    InvAt(events, states, j);
    if i < j {
      AbortSticks(events, states, i, j - 1);
      assert Step(states[j - 1], events[j - 1]) == Some(states[j]);
      InvAt(events, states, j - 1);
    }
  }

  /** A connection handed out carries no deadline, and none is ever put on it, however late the context is
      cancelled: abort neither has run nor will. */
  lemma {:induction false} HandedOutIsNeverExpired(events: seq<Event>, states: seq<State>, i: nat, j: nat)
    requires IsRun(events, states) && i <= j < |states| && states[i].phase == HandedOut
    ensures states[j].phase == HandedOut && states[j].view == states[i].view && states[j].conn == states[i].conn
    ensures states[j].conn.Some? && states[j].conn.value < |states[j].view.deadlines|
    ensures states[j].view.deadlines[states[j].conn.value] == Never && !states[j].view.aborted
    decreases j - i
  {
    InvAt(events, states, j);
    if i < j {
      HandedOutIsNeverExpired(events, states, i, j - 1);
      assert Step(states[j - 1], events[j - 1]) == Some(states[j]);
      InvAt(events, states, j - 1);
    }
  }

  /** Among the first n events, abort starts. */
  ghost predicate Starts(events: seq<Event>, n: nat) {
    exists k: nat :: k < n && k < |events| && events[k] == StartAbort
  }

  /** Among the first n events, dial stops the timer, with abort not started before. */
  ghost predicate StopsInTime(events: seq<Event>, n: nat) {
    exists k: nat :: k < n && k < |events| && events[k] == Stop && !Starts(events, k)
  }

  /** In every run, dial has kept its connection if and only if it stopped the timer before abort had started,
      whatever was cancelled and when; once abort has started, it keeps none. */
  lemma {:induction false} StartedAbortDiscards(events: seq<Event>, states: seq<State>, j: nat)
    requires IsRun(events, states) && j < |states|
    ensures states[j].phase == Passed || states[j].phase == HandedOut <==> StopsInTime(events, j)
    ensures Starts(events, j) ==> states[j].phase == Dialing || states[j].phase == Discarded
  {
    InvAt(events, states, j);
    StartedIsRunning(events, states, j);
    if j > 0 {
      var i := j - 1;
      StartedAbortDiscards(events, states, i);
      InvAt(events, states, i);
      StartedIsRunning(events, states, i);
      assert Step(states[i], events[i]) == Some(states[j]);
      StopsLater(events, i);
    }
  }

  /** One more event. */
  lemma StopsLater(events: seq<Event>, i: nat)
    requires i < |events|
    ensures Starts(events, i + 1) <==> Starts(events, i) || events[i] == StartAbort
    ensures StopsInTime(events, i + 1) <==> StopsInTime(events, i) || (events[i] == Stop && !Starts(events, i))
  {
    if StopsInTime(events, i + 1) && events[i] != Stop {
      var k: nat :| k < i + 1 && events[k] == Stop && !Starts(events, k);
      assert k < i;
    }
  }

  /** The timer shows whether abort has started. */
  lemma {:induction false} StartedIsRunning(events: seq<Event>, states: seq<State>, j: nat)
    requires IsRun(events, states) && j < |states|
    ensures states[j].timer == Running || states[j].timer == Finished <==> Starts(events, j)
  {
    if j > 0 {
      StartedIsRunning(events, states, j - 1);
      assert Step(states[j - 1], events[j - 1]) == Some(states[j]);
      StopsLater(events, j - 1);
    }
  }

  /** Among the first n events, abort runs. */
  ghost predicate AbortRuns(events: seq<Event>, n: nat) {
    exists k: nat :: k < n && k < |events| && events[k] == RunAbort
  }

  /** Event k is the last of the first n that sets a deadline, to at. */
  ghost predicate LastSet(events: seq<Event>, k: nat, n: nat, at: int) {
    k < n && k < |events| && events[k] == Event.Extend(at) && NotSetSince(events, k + 1, n)
  }

  ghost predicate NotSetSince(events: seq<Event>, from: nat, n: nat) {
    forall m :: from <= m < n && m < |events| ==> !events[m].Extend?
  }

  /** Until a connection is handed out, every socket carries the deadline that was set last, whether it was
      there by then or came later: in the beginning that of the attempt, and once abort has run the past one
      of time 1. */
  lemma {:induction false} DeadlineIsLast(events: seq<Event>, states: seq<State>, j: nat)
    requires IsRun(events, states) && j < |states|
    ensures states[j].view.aborted <==> AbortRuns(events, j)
    ensures states[j].phase != HandedOut ==> Shared(states[j].view)
    ensures AbortRuns(events, j) ==> states[j].view.at == 1
    ensures !AbortRuns(events, j) ==>
      || (NotSetSince(events, 0, j) && states[j].view.at == states[0].view.at)
      || (exists k: nat :: LastSet(events, k, j, states[j].view.at))
  {
    InvAt(events, states, j);
    if j > 0 {
      var i := j - 1;
      DeadlineIsLast(events, states, i);
      assert Step(states[i], events[i]) == Some(states[j]);
      assert AbortRuns(events, j) <==> AbortRuns(events, i) || events[i] == RunAbort;
      if events[i].Extend? {
        assert LastSet(events, i, j, events[i].at);
      } else if k: nat :| LastSet(events, k, i, states[i].view.at) {
        assert LastSet(events, k, j, states[i].view.at);
      }
    }
  }

  /** Among the first n events, the context is cancelled. */
  ghost predicate Cancels(events: seq<Event>, n: nat) { exists k: nat :: k < n && k < |events| && events[k] == Cancel }

  lemma {:induction false} CancelledIsHistory(events: seq<Event>, states: seq<State>, j: nat)
    requires IsRun(events, states) && j < |states|
    ensures states[j].cancelled <==> Cancels(events, j)
  {
    if j > 0 {
      CancelledIsHistory(events, states, j - 1);
      assert Step(states[j - 1], events[j - 1]) == Some(states[j]);
      assert Cancels(events, j) <==> Cancels(events, j - 1) || events[j - 1] == Cancel;
    }
  }

  /** Abort starts only after a cancel, and never once dial is through, however it ended. */
  lemma AbortStartsInDial(events: seq<Event>, states: seq<State>, k: nat)
    requires IsRun(events, states) && k < |events| && events[k] == StartAbort
    ensures states[k].phase == Dialing && Cancels(events, k)
  {
    InvAt(events, states, k);
    CancelledIsHistory(events, states, k);
    assert Step(states[k], events[k]) == Some(states[k + 1]);
  }

  lemma More(events: seq<Event>, states: seq<State>, e: Event) returns (events': seq<Event>, states': seq<State>)
    requires IsRun(events, states) && Step(states[|events|], e).Some?
    ensures IsRun(events', states') && events' == events + [e] && states'[|events'|] == Step(states[|events|], e).value
  {
    events', states' := events + [e], states + [Step(states[|events|], e).value];
    assert states'[0] == states[0];
  }

  /** Two runs of the protocol: a dial with an agent and an extended deadline hands its connection out, though
      the context is cancelled right then; and one that is cancelled in time expires both of its sockets and
      keeps neither. */
  lemma DialsEnd(at: int, later: int)
    returns (e1: seq<Event>, s1: seq<State>, e2: seq<Event>, s2: seq<State>)
    ensures IsRun(e1, s1) && s1[|e1|].phase == HandedOut && s1[|e1|].cancelled
    ensures s1[|e1|].view.deadlines == [At(later), Never]
    ensures IsRun(e2, s2) && s2[|e2|].phase == Discarded && s2[|e2|].view.deadlines == [At(PAST), At(PAST)]
  {
    e1, s1 := [], [Start(at)];
    e1, s1 := More(e1, s1, AddAgent);
    e1, s1 := More(e1, s1, AddConn);
    e2, s2 := e1, s1;
    e1, s1 := More(e1, s1, Event.Extend(later));
    e1, s1 := More(e1, s1, Stop);
    e1, s1 := More(e1, s1, Cancel);
    e1, s1 := More(e1, s1, Clear);
    e2, s2 := More(e2, s2, Cancel);
    e2, s2 := More(e2, s2, StartAbort);
    e2, s2 := More(e2, s2, Fail);
    e2, s2 := More(e2, s2, RunAbort);
  }
}
