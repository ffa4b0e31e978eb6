/** Two runs in which the supervisor comes to rest with a tunnel in the wrong state: the code orders a
    StopTunnel neither against a sync that has selected the tunnel nor against a later StartTunnel. */
module TunnelRaces {
  import opened ConnTypes
  import opened TunnelMachine
  import opened TunnelRuns
  import Runs

  const TUNNEL: Name := "t"

  /** One tunnel t, pinned to u. */
  const FRESH := State(
    Shared(map[TUNNEL := Handle("u", false, None)], map["u" := ConnUnknown], None, None, {}, {}, 0, {}, {}), map[])

  /** r is a run that ends in s. */
  ghost predicate EndsIn(r: Run, s: State) { Valid(r) && r.states[|r.events|] == s }

  lemma Extend(r: Run, s: State, e: Event) returns (r': Run, s': State)
    requires EndsIn(r, s) && Step(s, e).Some?
    ensures s' == Step(s, e).value && EndsIn(r', s')
  {
    r' := Runs.Extend(Step, r, e);
    s' := Step(s, e).value;
  }

  /** The tunnel, the locks and goroutine t's program point. */
  predicate Is(s: State, t: Tid, pc: PC, stopped: bool, gen: Option<Gen>, mu: Option<Tid>, syncMu: Option<Tid>) {
    && s.sh.tunnels.Keys == {TUNNEL} && s.sh.tunnels[TUNNEL] == Handle("u", stopped, gen)
    && s.sh.mu == mu && s.sh.syncMu == syncMu
    && "u" in s.sh.states && s.sh.states["u"] == ConnConnected
    && t in s.threads && s.threads[t] == pc
  }

  predicate OnlyThreads(s: State, ts: set<Tid>) { s.threads.Keys == ts }

  const SYNC := Task(0)
  const STOPPING := Task(1)
  const STARTING := Task(2)

  /** u connects, and this sets off a sync. */
  lemma LockSync() returns (r: Run, s: State)
    ensures EndsIn(r, s) && OnlyThreads(s, {SYNC}) && s.sh.cancelled == {} && s.sh.nextGen == 0
    ensures Is(s, SYNC, SyncLocked(false), false, None, None, Some(SYNC))
  {
    r, s := Runs.Run([], [FRESH]), FRESH;
    r, s := Extend(r, s, Change(SYNC, "u", ConnConnected));
    r, s := Extend(r, s, Act(SYNC, Go));
    r, s := Extend(r, s, Act(SYNC, Go));
  }

  /** The sync selects t to be bound. */
  lemma SelectT() returns (r: Run, s: State)
    ensures EndsIn(r, s) && OnlyThreads(s, {SYNC}) && s.sh.cancelled == {} && s.sh.nextGen == 0
    ensures Is(s, SYNC, InSync(Unbinding({}, {TUNNEL})), false, None, None, Some(SYNC))
  {
    r, s := LockSync();
    r, s := Extend(r, s, Act(SYNC, Go));
    assert Is(s, SYNC, InSync(Select({TUNNEL}, {}, {})), false, None, Some(SYNC), Some(SYNC));
    r, s := Extend(r, s, Act(SYNC, Pick(TUNNEL)));
    assert {TUNNEL} - {TUNNEL} == {} && {} + {TUNNEL} == {TUNNEL};
    r, s := Extend(r, s, Act(SYNC, Go));
  }

  /** The sync that has t on its bind list binds it and ends. */
  lemma BindT(r: Run, s: State, stopped: bool, ts: set<Tid>) returns (r': Run, s': State)
    requires EndsIn(r, s) && OnlyThreads(s, ts) && s.sh.nextGen == 0 && s.sh.cancelled == {} && Serve(0) !in ts
    requires Is(s, SYNC, InSync(Unbinding({}, {TUNNEL})), stopped, None, None, Some(SYNC))
    ensures EndsIn(r', s') && OnlyThreads(s', ts + {Serve(0)}) && s'.sh.cancelled == {} && s'.sh.nextGen == 1
    ensures Is(s', SYNC, Done, stopped, Some(0), None, None)
    ensures s'.threads[Serve(0)] == Serving(TUNNEL, 0)
    ensures forall t :: t in ts && t != SYNC ==> s'.threads[t] == s.threads[t]
  {
    r', s' := Extend(r, s, Act(SYNC, Go));
    r', s' := Extend(r', s', Act(SYNC, Pick(TUNNEL)));
    assert {TUNNEL} - {TUNNEL} == {};
    assert Is(s', SYNC, InSync(Listening(TUNNEL, {})), stopped, None, None, Some(SYNC));
    r', s' := Extend(r', s', Act(SYNC, Go));
    r', s' := Extend(r', s', Act(SYNC, Go));
  }

  /** A StopTunnel finds no listener while the sync has t on its bind list. */
  lemma StopMissesBind() returns (r: Run, s: State)
    ensures EndsIn(r, s) && OnlyThreads(s, {SYNC, STOPPING}) && s.sh.cancelled == {} && s.sh.nextGen == 0
    ensures Is(s, SYNC, InSync(Unbinding({}, {TUNNEL})), true, None, None, Some(SYNC)) && s.threads[STOPPING] == Done
  {
    r, s := SelectT();
    r, s := Extend(r, s, Begin(STOPPING, Stop(TUNNEL)));
    r, s := Extend(r, s, Act(STOPPING, Go));
    assert Is(s, STOPPING, StopRead(TUNNEL), true, None, None, Some(SYNC));
    r, s := Extend(r, s, Act(STOPPING, Go));
  }

  /** t stays bound although it is stopped: that sync then binds it. */
  lemma StopRacesBind() returns (r: Run, s: State)
    ensures EndsIn(r, s) && Quiet(s)
    ensures TUNNEL in s.sh.tunnels && s.sh.tunnels[TUNNEL].stopped && s.sh.tunnels[TUNNEL].gen.Some?
  {
    r, s := StopMissesBind();
    r, s := BindT(r, s, true, {SYNC, STOPPING});
  }

  /** A StopTunnel has cancelled t's listener, which has yet to close. */
  lemma StopCloses() returns (r: Run, s: State)
    ensures EndsIn(r, s) && OnlyThreads(s, {SYNC, STOPPING, Serve(0)}) && s.sh.cancelled == {0}
    ensures Is(s, STOPPING, StopAwait(TUNNEL, 0), true, Some(0), None, None)
    ensures s.threads[SYNC] == Done && s.threads[Serve(0)] == Serving(TUNNEL, 0)
  {
    r, s := SelectT();
    r, s := BindT(r, s, false, {SYNC});
    r, s := Extend(r, s, Begin(STOPPING, Stop(TUNNEL)));
    r, s := Extend(r, s, Act(STOPPING, Go));
    assert Is(s, STOPPING, StopRead(TUNNEL), true, Some(0), None, None);
    r, s := Extend(r, s, Act(STOPPING, Go));
  }

  /** Meanwhile a StartTunnel brings u up, which it is already. */
  lemma StartOvertakesStop() returns (r: Run, s: State)
    ensures EndsIn(r, s) && OnlyThreads(s, {SYNC, STOPPING, STARTING, Serve(0)}) && s.sh.cancelled == {0}
    ensures Is(s, STARTING, SyncWait(false), false, Some(0), None, None)
    ensures s.threads[SYNC] == Done && s.threads[STOPPING] == StopAwait(TUNNEL, 0)
    ensures s.threads[Serve(0)] == Serving(TUNNEL, 0)
  {
    r, s := StopCloses();
    r, s := Extend(r, s, Begin(STARTING, Start(TUNNEL)));
    r, s := Extend(r, s, Act(STARTING, Go));
    r, s := Extend(r, s, Act(STARTING, Go));
  }

  /** The sync of that StartTunnel still sees the closing listener, and leaves t alone. */
  lemma SyncMissesT() returns (r: Run, s: State)
    ensures EndsIn(r, s) && OnlyThreads(s, {SYNC, STOPPING, STARTING, Serve(0)}) && s.sh.cancelled == {0}
    ensures Is(s, STARTING, Done, false, Some(0), None, None)
    ensures s.threads[SYNC] == Done && s.threads[STOPPING] == StopAwait(TUNNEL, 0)
    ensures s.threads[Serve(0)] == Serving(TUNNEL, 0)
  {
    r, s := StartOvertakesStop();
    r, s := Extend(r, s, Act(STARTING, Go));
    r, s := Extend(r, s, Act(STARTING, Go));
    assert Is(s, STARTING, InSync(Select({TUNNEL}, {}, {})), false, Some(0), Some(STARTING), Some(STARTING));
    r, s := Extend(r, s, Act(STARTING, Pick(TUNNEL)));
    assert {TUNNEL} - {TUNNEL} == {};
    r, s := Extend(r, s, Act(STARTING, Go));
    assert Is(s, STARTING, InSync(Unbinding({}, {})), false, Some(0), None, Some(STARTING));
    r, s := Extend(r, s, Act(STARTING, Go));
    r, s := Extend(r, s, Act(STARTING, Go));
  }

  /** t stays unbound although it is not stopped and u is connected. */
  lemma StartLosesTunnel() returns (r: Run, s: State)
    ensures EndsIn(r, s) && Quiet(s)
    ensures TUNNEL in s.sh.tunnels && Want(s.sh, s.sh.tunnels[TUNNEL]) && s.sh.tunnels[TUNNEL].gen == None
  {
    r, s := SyncMissesT();
    r, s := Extend(r, s, Act(Serve(0), Go));
    assert Is(s, STARTING, Done, false, None, None, None);
    r, s := Extend(r, s, Act(Serve(0), Go));
    r, s := Extend(r, s, Act(STOPPING, Go));
  }
}
