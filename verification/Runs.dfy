/** Runs of a step function, for the protocols to share. */
module Runs {
  import opened ConnTypes

  /** states[i] is the state before events[i]. */
  datatype Run<S, E> = Run(events: seq<E>, states: seq<S>)

  ghost predicate IsRun<S, E>(step: (S, E) -> Option<S>, r: Run<S, E>) {
    && |r.states| == |r.events| + 1
    && forall i {:trigger r.events[i]} :: 0 <= i < |r.events| ==>
         step(r.states[i], r.events[i]) == Some(r.states[i + 1])
  }

  /** r' goes on where r ends. */
  predicate Extends<S(==), E(==)>(r': Run<S, E>, r: Run<S, E>) { r.events <= r'.events && r.states <= r'.states }

  /** One more event. */
  lemma Extend<S, E>(step: (S, E) -> Option<S>, r: Run<S, E>, e: E) returns (r': Run<S, E>)
    requires IsRun(step, r) && step(r.states[|r.events|], e).Some?
    ensures IsRun(step, r') && r'.events == r.events + [e]
    ensures r'.states == r.states + [step(r.states[|r.events|], e).value]
  {
    r' := Run(r.events + [e], r.states + [step(r.states[|r.events|], e).value]);
  }

  // ---- what can be reached from a state ----

  function Steps<S, E>(step: (S, E) -> Option<S>, s: S, events: seq<E>): Option<S>
    decreases |events|
  {
    if events == [] then Some(s)
    else
      match step(s, events[0])
      case None => None
      case Some(s') => Steps(step, s', events[1..])
  }

  ghost predicate Reaches<S(!new), E(!new)>(step: (S, E) -> Option<S>, s: S, s': S) {
    exists events :: Steps(step, s, events) == Some(s')
  }

  lemma {:induction false} StepsAppend<S, E>(step: (S, E) -> Option<S>, s: S, first: seq<E>, second: seq<E>)
    requires Steps(step, s, first).Some?
    ensures Steps(step, s, first + second) == Steps(step, Steps(step, s, first).value, second)
    decreases |first|
  {
    if first == [] {
      assert first + second == second;
    } else {
      StepsAppend(step, step(s, first[0]).value, first[1..], second);
      assert (first + second)[1..] == first[1..] + second;
    }
  }

  lemma Stays<S(!new), E(!new)>(step: (S, E) -> Option<S>, s: S)
    ensures Reaches(step, s, s)
  {
    assert Steps(step, s, []) == Some(s);
  }

  lemma GoesOn<S(!new), E(!new)>(step: (S, E) -> Option<S>, from: S, via: S, to: S)
    requires Reaches(step, from, via) && Reaches(step, via, to)
    ensures Reaches(step, from, to)
  {
    var first :| Steps(step, from, first) == Some(via);
    var second :| Steps(step, via, second) == Some(to);
    StepsAppend(step, from, first, second);
  }

  /** One more step. */
  lemma Next<S(!new), E(!new)>(step: (S, E) -> Option<S>, from: S, s: S, e: E) returns (s': S)
    requires Reaches(step, from, s) && step(s, e).Some?
    ensures Some(s') == step(s, e) && Reaches(step, from, s')
  {
    s' := step(s, e).value;
    assert Steps(step, s', []) == Some(s');
    assert [e][1..] == [];
    assert Steps(step, s, [e]) == Some(s');
    GoesOn(step, from, s, s');
  }
}
