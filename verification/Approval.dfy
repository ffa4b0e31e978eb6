/** Counting pending approvals: the edge-triggered hook of internal/menubar/controller.go and the counter
    of internal/menubar/foreground.go, over any number of SSH upstreams. */
module Approval {
  import opened ConnTypes

  // ---- the counter ----

  datatype Counter = Counter(pending: nat, activated: bool)

  /** What one call of set makes of the counter. dispatched says whether, should the call try to activate
      the app, the activation is dispatched in time, to an app that is not active yet. */
  function SetCounter(c: Counter, pending: bool, dispatched: bool): Counter {
    if pending then Counter(c.pending + 1, c.activated || (c.pending == 0 && dispatched))
    else
      var left: nat := if c.pending > 0 then c.pending - 1 else 0;
      Counter(left, c.activated && left > 0)
  }

  class Foreground {
    var pending: nat
    var activated: bool
    /** How often the app was hidden. */
    var hidden: nat

    constructor ()
      ensures Value() == Counter(0, false) && hidden == 0
    {
      pending, activated, hidden := 0, false, 0;
    }

    function Value(): Counter
      reads this
    {
      Counter(pending, activated)
    }

    /** The app hides exactly when the last pending request of an activation goes. */
    method Set(pending: bool, dispatched: bool)
      modifies this
      ensures Value() == SetCounter(old(Value()), pending, dispatched)
      ensures hidden == old(hidden) + if old(activated) && !activated then 1 else 0
    {
      if pending {
        this.pending := this.pending + 1;
        if this.pending == 1 {
          if dispatched {
            activated := true;
          }
        }
        return;
      }
      if this.pending > 0 {
        this.pending := this.pending - 1;
      }
      if this.pending == 0 && activated {
        activated := false;
        hidden := hidden + 1;
      }
    }
  }

  // ---- the hooks ----

  type Upstream = string

  /** Where a state change stands: none under way, its hook about to run, the state read, the flag swapped
      and the counter about to be told. */
  datatype PC = Idle | Changed | Read(p: bool) | Calling(p: bool)

  /** calls is what onApproval has been told so far. */
  datatype Hook = Hook(state: ConnState, flag: bool, pc: PC, calls: seq<bool>)

  datatype State = State(hooks: map<Upstream, Hook>, counter: Counter)

  /** Whatever its state, u changes to state, then runs its hook step by step; changes of one upstream do not
      overlap, being made under its client's lock. dispatched as for SetCounter. */
  datatype Event =
    | Change(u: Upstream, state: ConnState)
    | ReadState(u: Upstream)
    | Swap(u: Upstream)
    | Call(u: Upstream, dispatched: bool)

  function With(s: State, u: Upstream, h: Hook): State { s.(hooks := s.hooks[u := h]) }

  function Step(s: State, e: Event): Option<State> {
    if e.u !in s.hooks then None
    else
      var u := e.u;
      var h := s.hooks[u];
      match e
      case Change(_, state) =>
        if h.pc == Idle && state != h.state then Some(With(s, u, h.(state := state, pc := Changed))) else None
      case ReadState(_) =>
        if h.pc == Changed then Some(With(s, u, h.(pc := Read(h.state == ConnAwaitingApproval)))) else None
      case Swap(_) =>
        if h.pc.Read?
        then Some(With(s, u, h.(flag := h.pc.p, pc := if h.flag != h.pc.p then Calling(h.pc.p) else Idle)))
        else None
      case Call(_, dispatched) =>
        if h.pc.Calling?
        then
          var next := With(s, u, h.(pc := Idle, calls := h.calls + [h.pc.p]));
          Some(next.(counter := SetCounter(s.counter, h.pc.p, dispatched)))
        else None
  }

  ghost predicate IsStart(s: State) {
    s.counter == Counter(0, false) && forall u <- s.hooks :: s.hooks[u] == Hook(ConnUnknown, false, Idle, [])
  }

  ghost predicate IsRun(events: seq<Event>, states: seq<State>) {
    && |states| == |events| + 1
    && IsStart(states[0])
    && forall i {:trigger events[i]} :: 0 <= i < |events| ==> Step(states[i], events[i]) == Some(states[i + 1])
  }

  // ---- what every step keeps ----

  /** The counter has been told of a pending approval, and not yet of its end. */
  predicate Told(h: Hook) { |h.calls| % 2 == 1 }

  function AllTold(s: State): set<Upstream> { set u <- s.hooks | Told(s.hooks[u]) }

  predicate Alternates(calls: seq<bool>) { forall i :: 0 <= i < |calls| ==> calls[i] == (i % 2 == 0) }

  predicate HookInv(h: Hook) {
    && Alternates(h.calls)
    && match h.pc
       case Idle => h.flag == Told(h) == (h.state == ConnAwaitingApproval)
       case Changed => h.flag == Told(h)
       case Read(p) => h.flag == Told(h) && p == (h.state == ConnAwaitingApproval)
       case Calling(p) => h.flag == p == !Told(h) && p == (h.state == ConnAwaitingApproval)
  }

  predicate CounterInv(s: State) {
    s.counter.pending == |AllTold(s)| && (s.counter.activated ==> s.counter.pending > 0)
  }

  predicate Inv(s: State) { CounterInv(s) && forall u <- s.hooks :: HookInv(s.hooks[u]) }

  lemma InvStep(s: State, e: Event)
    requires Inv(s) && Step(s, e).Some?
    ensures Inv(Step(s, e).value)
  {
    var t, u := Step(s, e).value, e.u;
    HookStep(s, e);
    assert forall v <- t.hooks :: v != u ==> t.hooks[v] == s.hooks[v];
    CounterStep(s, e);
  }

  /** The counter goes along with the upstreams told of. */
  lemma CounterStep(s: State, e: Event)
    requires Inv(s) && Step(s, e).Some?
    ensures CounterInv(Step(s, e).value)
  {
    var t := Step(s, e).value;
    ToldStep(s, e);
    if e.Call? && !s.hooks[e.u].pc.p {
      assert e.u in AllTold(s);
    }
  }

  lemma ToldStep(s: State, e: Event)
    requires Inv(s) && Step(s, e).Some?
    ensures
      var told := AllTold(Step(s, e).value);
      if !e.Call? then told == AllTold(s)
      else if s.hooks[e.u].pc.p then e.u !in AllTold(s) && told == AllTold(s) + {e.u}
      else e.u in AllTold(s) && told == AllTold(s) - {e.u}
  {
    var t := Step(s, e).value;
    HookStep(s, e);
    assert forall v <- t.hooks :: v != e.u ==> t.hooks[v] == s.hooks[v];
  }

  lemma HookStep(s: State, e: Event)
    requires Inv(s) && Step(s, e).Some?
    ensures HookInv(Step(s, e).value.hooks[e.u])
    ensures Told(Step(s, e).value.hooks[e.u]) == if e.Call? then s.hooks[e.u].pc.p else Told(s.hooks[e.u])
    ensures e.Call? ==> Told(s.hooks[e.u]) == !s.hooks[e.u].pc.p
  {
    assert HookInv(s.hooks[e.u]);
  }

  lemma {:induction false} InvAt(events: seq<Event>, states: seq<State>, i: nat)
    requires IsRun(events, states) && i < |states|
    ensures Inv(states[i])
  {
    if i == 0 {
      assert AllTold(states[0]) == {};
    } else {
      InvAt(events, states, i - 1);
      assert Step(states[i - 1], events[i - 1]) == Some(states[i - 1 + 1]);
      InvStep(states[i - 1], events[i - 1]);
    }
  }

  // ---- over whole runs ----

  /** Each hook reports true, false, true, and so on, whatever the other upstreams do meanwhile. */
  lemma ReportsAlternate(events: seq<Event>, states: seq<State>, i: nat, u: Upstream)
    requires IsRun(events, states) && i < |states| && u in states[i].hooks
    ensures Alternates(states[i].hooks[u].calls)
  {
    InvAt(events, states, i);
    assert HookInv(states[i].hooks[u]);
  }

  function Awaiting(s: State): set<Upstream> { set u <- s.hooks | s.hooks[u].state == ConnAwaitingApproval }

  /** Once no hook is under way, as many requests are pending as upstreams await an approval. */
  lemma PendingIsAwaiting(events: seq<Event>, states: seq<State>, i: nat)
    requires IsRun(events, states) && i < |states|
    requires forall u <- states[i].hooks :: states[i].hooks[u].pc == Idle
    ensures states[i].counter.pending == |Awaiting(states[i])|
  {
    InvAt(events, states, i);
    forall u <- states[i].hooks
      ensures Told(states[i].hooks[u]) <==> states[i].hooks[u].state == ConnAwaitingApproval
    {
      assert HookInv(states[i].hooks[u]);
    }
    assert Awaiting(states[i]) == AllTold(states[i]);
  }

  /** The app is kept in front only while requests are pending. */
  lemma ActivatedHasPending(events: seq<Event>, states: seq<State>, i: nat)
    requires IsRun(events, states) && i < |states| && states[i].counter.activated
    ensures states[i].counter.pending > 0
  {
    InvAt(events, states, i);
  }

  /** The counter is never told of an end it does not count: its guard against going below zero is not needed. */
  lemma GuardNeverFires(events: seq<Event>, states: seq<State>, i: nat)
    requires IsRun(events, states) && i < |events|
    requires events[i].Call? && events[i].u in states[i].hooks && states[i].hooks[events[i].u].pc == Calling(false)
    ensures states[i].counter.pending > 0 && states[i + 1].counter.pending == states[i].counter.pending - 1
  {
    InvAt(events, states, i);
    assert Step(states[i], events[i]) == Some(states[i + 1]);
    var u := events[i].u;
    assert HookInv(states[i].hooks[u]);
    assert u in AllTold(states[i]);
  }

  /** Event k is the first request of those pending at i, and its activation was dispatched in time: from there
      on, up to i, the counter has been positive. */
  ghost predicate ActivatedBy(events: seq<Event>, states: seq<State>, k: nat, i: nat) {
    && k < i && i < |states| && k < |events|
    && events[k].Call? && events[k].dispatched
    && events[k].u in states[k].hooks && states[k].hooks[events[k].u].pc == Calling(true)
    && states[k].counter.pending == 0 && forall m :: k < m <= i ==> states[m].counter.pending > 0
  }

  /** The app counts as activated exactly while requests are pending whose first one has activated it. */
  lemma {:induction false} ActivatedIsHistory(events: seq<Event>, states: seq<State>, i: nat)
    requires IsRun(events, states) && i < |states|
    ensures states[i].counter.activated <==> exists k: nat :: ActivatedBy(events, states, k, i)
  {
    if i > 0 {
      ActivatedIsHistory(events, states, i - 1);
      var e := events[i - 1];
      assert Step(states[i - 1], e) == Some(states[i - 1 + 1]);
      InvAt(events, states, i - 1);
      InvAt(events, states, i);
      if states[i - 1].counter.activated && states[i].counter.pending > 0 {
        var k: nat :| ActivatedBy(events, states, k, i - 1);
        assert ActivatedBy(events, states, k, i);
      }
      if !states[i - 1].counter.activated && states[i].counter.activated {
        assert ActivatedBy(events, states, i - 1, i);
      }
      if k: nat :| ActivatedBy(events, states, k, i) {
        assert k < i - 1 ==> ActivatedBy(events, states, k, i - 1);
      }
    }
  }

  /** What comes next for an upstream whose hook is under way. */
  function NextEvent(pc: PC, u: Upstream, dispatched: bool): Event {
    match pc
    case Idle => Change(u, ConnAwaitingApproval)
    case Changed => ReadState(u)
    case Read(_) => Swap(u)
    case Calling(_) => Call(u, dispatched)
  }

  /** A hook under way can always go on, whatever the other ones do, and ends after at most three steps: it has
      then told the counter whether its upstream awaits an approval, if that is news. */
  lemma HookGoesOn(events: seq<Event>, states: seq<State>, i: nat, u: Upstream, dispatched: bool)
    requires IsRun(events, states) && i < |states| && u in states[i].hooks && states[i].hooks[u].pc != Idle
    ensures
      var s, h := states[i], states[i].hooks[u];
      && Step(s, NextEvent(h.pc, u, dispatched)).Some?
      && var h' := Step(s, NextEvent(h.pc, u, dispatched)).value.hooks[u];
         && h'.state == h.state
         && match h.pc
            case Changed => h'.pc == Read(h.state == ConnAwaitingApproval) && h'.calls == h.calls
            case Read(p) => h'.pc == (if p != Told(h) then Calling(p) else Idle) && h'.calls == h.calls
            case _ => h'.pc == Idle && h'.calls == h.calls + [h.state == ConnAwaitingApproval]
  {
    InvAt(events, states, i);
    assert HookInv(states[i].hooks[u]);
  }

  lemma More(events: seq<Event>, states: seq<State>, e: Event) returns (events': seq<Event>, states': seq<State>)
    requires IsRun(events, states) && Step(states[|events|], e).Some?
    ensures IsRun(events', states') && events' == events + [e]
    ensures states' == states + [Step(states[|events|], e).value]
  {
    events', states' := events + [e], states + [Step(states[|events|], e).value];
  }

  /** A run of the protocol: an upstream comes to await an approval, which activates the app, and gets it, which
      hides it again. */
  lemma OneApproval(u: Upstream) returns (events: seq<Event>, states: seq<State>)
    ensures IsRun(events, states) && |events| == 8
    ensures states[4].counter == Counter(1, true) && states[8].counter == Counter(0, false)
    ensures u in states[8].hooks && states[8].hooks[u] == Hook(ConnConnected, false, Idle, [true, false])
  {
    events, states := [], [State(map[u := Hook(ConnUnknown, false, Idle, [])], Counter(0, false))];
    events, states := More(events, states, Change(u, ConnAwaitingApproval));
    events, states := More(events, states, ReadState(u));
    events, states := More(events, states, Swap(u));
    events, states := More(events, states, Call(u, true));
    events, states := More(events, states, Change(u, ConnConnected));
    events, states := More(events, states, ReadState(u));
    events, states := More(events, states, Swap(u));
    events, states := More(events, states, Call(u, true));
  }
}
