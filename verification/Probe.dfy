/** The timing of watch and keepalive in pkg/sshclient/client.go, in milliseconds and with ideal timers. */
module Probe {
  import opened ConnTypes

  datatype Timing = Timing(heartbeat: nat, probe: nat, stall: nat)

  /** The pause between two looks at a blocked write. */
  const SECOND := 1_000

  datatype Answer = Answer(at: nat, ok: bool)

  /** What the connection does. answer is the outcome of a probe by the time it was sent, lastRead the time of
      the last read known at a time, writing whether a write is then in flight. Where a select finds a timer
      or tick and its other channel ready together, first says whether it takes the other channel. */
  datatype World = World(
    timing: Timing,
    answer: nat -> Option<Answer>,
    lastRead: nat -> nat,
    writing: nat -> bool,
    first: nat -> bool)

  /** No answer comes before its probe. */
  ghost predicate Causal(w: World) {
    forall s: nat :: w.answer(s).Some? ==> s <= w.answer(s).value.at
  }

  // ---- keepalive ----

  /** The time of look k of the probe sent at start. */
  function Look(w: World, start: nat, k: nat): nat { start + w.timing.probe + k * SECOND }

  /** At this look, keepalive gives the connection up. */
  predicate GivesUp(w: World, start: nat, at: nat) { !w.writing(at) || at >= start + w.timing.stall }

  predicate AnsweredBy(w: World, start: nat, at: nat) {
    && w.answer(start).Some?
    && (w.answer(start).value.at < at || (w.answer(start).value.at == at && w.first(at)))
  }

  /** keepalive waits through the first k looks of the probe sent at start. */
  ghost predicate WaitsThrough(w: World, start: nat, k: nat) {
    forall j: nat :: j < k ==> !GivesUp(w, start, Look(w, start, j)) && !AnsweredBy(w, start, Look(w, start, j))
  }

  /** keepalive succeeds at the time at. */
  ghost predicate Succeeds(w: World, start: nat, at: nat) {
    exists k: nat :: WaitsThrough(w, start, k) && AnsweredBy(w, start, Look(w, start, k))
      && w.answer(start).value == Answer(at, true)
  }

  /** keepalive learns at the time at that its probe failed. */
  ghost predicate IsRefused(w: World, start: nat, at: nat) {
    exists k: nat :: WaitsThrough(w, start, k) && AnsweredBy(w, start, Look(w, start, k))
      && w.answer(start).value == Answer(at, false)
  }

  /** keepalive gives the connection up at the time at. */
  ghost predicate GaveUp(w: World, start: nat, at: nat) {
    exists k: nat :: WaitsThrough(w, start, k) && !AnsweredBy(w, start, Look(w, start, k))
      && at == Look(w, start, k) && GivesUp(w, start, at)
  }

  ghost predicate Fails(w: World, start: nat, at: nat) { IsRefused(w, start, at) || GaveUp(w, start, at) }

  /** The latest a probe sent at start ends. */
  function Bound(t: Timing): nat { if t.probe > t.stall + SECOND then t.probe else t.stall + SECOND }

  method Keepalive(w: World, start: nat) returns (ok: bool, at: nat)
    requires Causal(w)
    ensures if ok then Succeeds(w, start, at) else Fails(w, start, at)
    ensures start <= at <= start + Bound(w.timing)
  {
    ghost var k: nat := 0;
    var timer := start + w.timing.probe;
    var stallDeadline := start + w.timing.stall;
    while true
      invariant timer == Look(w, start, k) && WaitsThrough(w, start, k)
      invariant timer <= start + Bound(w.timing)
      decreases stallDeadline + SECOND - timer
    {
      if AnsweredBy(w, start, timer) {
        return w.answer(start).value.ok, w.answer(start).value.at;
      }
      if !w.writing(timer) {
        return false, timer;
      }
      if timer >= stallDeadline {
        return false, timer;
      }
      timer := timer + SECOND;
      k := k + 1;
    }
  }

  /** A probe ends in one way only. */
  lemma OneOutcome(w: World, start: nat, a: nat, b: nat)
    requires Fails(w, start, a)
    ensures !Succeeds(w, start, b) && (Fails(w, start, b) ==> a == b)
  {
  }

  /** A probe that is given up, whether or not an answer comes later, is given up no sooner than probe, nor
      before stall while every look sees a write in flight, and at no look that finds an answer; it is at the
      very first look at which neither holds. */
  lemma NeverTooSoon(w: World, start: nat, at: nat)
    requires GaveUp(w, start, at)
    ensures at >= start + w.timing.probe && !AnsweredBy(w, start, at)
    ensures (forall k: nat :: w.writing(Look(w, start, k))) ==> at >= start + w.timing.stall
    ensures forall k: nat :: Look(w, start, k) < at ==>
      w.writing(Look(w, start, k)) && Look(w, start, k) < start + w.timing.stall
  {
    var n: nat :| WaitsThrough(w, start, n) && at == Look(w, start, n);
    forall k: nat | Look(w, start, k) < at
      ensures w.writing(Look(w, start, k)) && Look(w, start, k) < start + w.timing.stall
    {
      assert k < n;
      assert !GivesUp(w, start, Look(w, start, k));
    }
  }

  /** An answer before the first look is always in time. */
  lemma PromptAnswerSucceeds(w: World, start: nat, at: nat)
    requires w.answer(start) == Some(Answer(at, true)) && at < start + w.timing.probe
    ensures Succeeds(w, start, at) && forall t: nat :: !Fails(w, start, t)
  {
    assert WaitsThrough(w, start, 0) && AnsweredBy(w, start, Look(w, start, 0));
  }

  // ---- watch ----

  /** The first tick after now of a ticker started at begun. */
  function NextTick(w: World, begun: nat, now: nat): (t: nat)
    requires w.timing.heartbeat > 0 && begun <= now
    ensures now < t <= now + w.timing.heartbeat
  {
    now + w.timing.heartbeat - (now - begun) % w.timing.heartbeat
  }

  function Max(a: nat, b: nat): nat { if a < b then b else a }

  datatype End = Closed(at: nat) | GivenUp(probed: nat, at: nat)

  /** Nothing is read after quiet, so no probe is answered after it. */
  ghost predicate SilentAfter(w: World, quiet: nat) {
    && (forall t: nat :: w.lastRead(t) <= quiet)
    && (forall s: nat :: w.answer(s).Some? && w.answer(s).value.ok ==> w.answer(s).value.at <= quiet)
  }

  /** The select takes the closed channel, not the tick of time due. */
  predicate TakesClosed(w: World, closed: nat, now: nat, due: nat) {
    if due <= now then closed <= now && w.first(now) else closed < due || (closed == due && w.first(due))
  }

  /** The connection closes, and until then has always read something within the last heartbeat. */
  ghost predicate ActiveUntil(w: World, begun: nat, closed: Option<nat>) {
    && closed.Some? && begun <= closed.value
    && forall t: nat :: begun <= t <= closed.value ==> t - w.lastRead(t) < w.timing.heartbeat
  }

  /** Watches a connection from begun on, up to the time until. The ticker holds one tick while a probe is
      under way and drops the others. A connection silent after quiet ends within two heartbeats and the
      bound of a probe; one that has read within a heartbeat until it closes ends right then. Only one that had
      read nothing for a heartbeat and failed a probe is given up, and, where the select prefers it, none that
      has closed is probed. */
  method Watch(w: World, begun: nat, closed: Option<nat>, until: nat) returns (end: Option<End>)
    requires Causal(w) && w.timing.heartbeat > 0
    ensures forall quiet: nat ::
      begun <= quiet && SilentAfter(w, quiet) && quiet + 2 * w.timing.heartbeat <= until ==>
        end.Some? && end.value.at <= quiet + 2 * w.timing.heartbeat + Bound(w.timing)
    ensures end.Some? && end.value.GivenUp? ==>
      && w.lastRead(end.value.probed) + w.timing.heartbeat <= end.value.probed
      && Fails(w, end.value.probed, end.value.at)
    ensures end.Some? && end.value.Closed? ==> closed.Some? && closed.value <= end.value.at
    ensures ActiveUntil(w, begun, closed) && closed.value + w.timing.heartbeat <= until ==>
      end == Some(Closed(closed.value))
    ensures (forall t: nat :: w.first(t)) && end.Some? && end.value.GivenUp? && closed.Some? ==>
      end.value.probed < closed.value
  {
    var now: nat, due: nat := begun, begun + w.timing.heartbeat;
    while Max(now, due) <= until
      invariant begun <= now
      invariant forall quiet: nat :: begun <= quiet && SilentAfter(w, quiet) ==>
        Max(now, due) <= quiet + 2 * w.timing.heartbeat
      invariant ActiveUntil(w, begun, closed) ==> now <= closed.value && now < due <= now + w.timing.heartbeat
      decreases until + 1 - Max(now, due)
    {
      if closed.Some? && TakesClosed(w, closed.value, now, due) {
        return Some(Closed(Max(now, closed.value)));
      }
      now := Max(now, due);
      due := NextTick(w, begun, now);
      if now - w.lastRead(now) < w.timing.heartbeat {
        continue;
      }
      var probed := now;
      var ok: bool;
      ok, now := Keepalive(w, probed);
      if !ok {
        return Some(GivenUp(probed, now));
      }
    }
    return None;
  }
}
