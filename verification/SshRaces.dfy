/** How long a Down of the SSH client lasts: exactly if held is still set when it ends, there is no way on to
    a connection but through an Up or a Close. And a run in which held is not. */
module SshRaces {
  import opened ConnTypes
  import opened SshMachine
  import opened SshInvariant
  import opened SshRuns
  import Runs

  ghost function Last(r: Run): State
    requires Valid(r)
  {
    r.states[|r.events|]
  }

  /** r' goes on where r ends, without an Up or a Close after event b. */
  ghost predicate Continues(r: Run, r': Run, b: nat) {
    && Valid(r') && Runs.Extends(r', r)
    && forall k :: b < k < |r'.events| ==> !UpClears(r', k) && !Closes(r', k)
  }

  /** However the run goes on, short of an Up or a Close, nothing connects. */
  ghost predicate Lasts(r: Run, b: nat) {
    forall r' | Continues(r, r', b) ::
      Last(r').sh.open == {} && Last(r').sh.cli == None && Last(r').sh.state == ConnUnknown
  }

  // ---- held is set ----

  lemma HeldLasts(r: Run, r': Run, d: Tid, at: nat, b: nat)
    requires Valid(r) && |r.events| == b + 1 && Takes(r, b, d, InDown(DownLocked(at)))
    requires r.states[b].sh.held && Continues(r, r', b)
    ensures Last(r').sh.open == {} && Last(r').sh.cli == None && Last(r').sh.state == ConnUnknown
  {
    assert r'.events[b] == r.events[b] && r'.states[b] == r.states[b];
    DownIsDurable(r', d, at, b, |r'.events|);
  }

  // ---- held is clear: a get finds its way ----

  /** One more event of a continuation. */
  lemma Goes(r: Run, b: nat, r1: Run, e: Event) returns (r2: Run)
    requires Valid(r) && Continues(r, r1, b) && Step(Last(r1), e).Some?
    requires e.Act? ==> Last(r1).threads[e.t].pc !in {InGet(UpClear), InClose(CloseLocked)}
    ensures Continues(r, r2, b) && Last(r2) == Step(Last(r1), e).value
  {
    r2 := Runs.Extend(Step, r1, e);
    forall k | b < k < |r2.events| ensures !UpClears(r2, k) && !Closes(r2, k) {
      if k < |r1.events| {
        assert !UpClears(r1, k) && !Closes(r1, k);
        assert forall t, pc :: Takes(r2, k, t, pc) ==> Takes(r1, k, t, pc);
      }
    }
  }

  /** One step of t's, that makes sh of the shared state and leads to pc. */
  lemma Step1(r: Run, b: nat, r1: Run, t: Tid, a: Action, sh: Shared, pc: PC) returns (r2: Run)
    requires Valid(r) && Continues(r, r1, b) && t in Last(r1).threads
    requires Last(r1).threads[t].pc !in {InGet(UpClear), InClose(CloseLocked)}
    requires
      var th := Last(r1).threads[t];
      Local(Last(r1).sh, t, th, a) == Some(Effect(sh, th.(pc := pc), None))
    ensures Continues(r, r2, b)
    ensures Last(r2) == State(Tick(sh), Last(r1).threads[t := Last(r1).threads[t].(pc := pc)])
  {
    r2 := Goes(r, b, r1, Act(t, a));
  }

  /** A caller that has not begun. */
  lemma {:induction false} Newcomer(threads: map<Tid, Thread>) returns (n: nat)
    ensures forall m :: m >= n ==> Call(m) !in threads
    decreases threads.Keys
  {
    if t :| t in threads {
      n := Newcomer(threads - {t});
      if t.Call? && t.n >= n {
        n := t.n + 1;
      }
      assert forall m :: m >= n ==> Call(m) != t && Call(m) !in threads - {t};
    } else {
      n := 0;
    }
  }

  /** Nothing stands in the way of a get. */
  predicate Clear(sh: Shared) {
    && sh.mu == None && sh.abortMu == None && !sh.held && !sh.manualOnly
    && sh.cli == None && sh.lastErr == None
  }

  /** After a Down that leaves held clear: whoever holds abortMu lets go of it, autoconnect is on, and a get
      begins. */
  lemma GetBegins(r: Run, d: Tid, at: nat, b: nat) returns (r': Run, t: Tid)
    requires Valid(r) && |r.events| == b + 1 && Takes(r, b, d, InDown(DownLocked(at))) && !r.states[b].sh.held
    ensures Continues(r, r', b) && Clear(Last(r').sh)
    ensures t in Last(r').threads && Last(r').threads[t] == Thread(OpGet, InGet(Stamp), [])
  {
    DownBegins(r, d, at, b);
    r' := AbortMuFreed(r, d, at, b);
    r' := Goes(r, b, r', Env(SetAutoconnect(true)));
    var n := Newcomer(Last(r').threads);
    t := Call(n);
    r' := Goes(r, b, r', Begin(t, OpGet));
  }

  lemma AbortMuFreed(r: Run, d: Tid, at: nat, b: nat) returns (r': Run)
    requires Valid(r) && |r.events| == b + 1 && Takes(r, b, d, InDown(DownLocked(at))) && !r.states[b].sh.held
    ensures Continues(r, r', b)
    ensures
      var sh := Last(r').sh;
      sh.mu == None && sh.abortMu == None && !sh.held && sh.cli == None && sh.lastErr == None
  {
    DownBegins(r, d, at, b);
    r' := r;
    var s := Last(r);
    if s.sh.abortMu.Some? {
      var h := s.sh.abortMu.value;
      HolderAborts(r, h);
      var at' := s.threads[h].pc.down.at;
      var cancelled := if s.sh.abort.Some? then s.sh.cancelled + {s.sh.abort.value} else s.sh.cancelled;
      r' := Step1(r, b, r, h, Go, s.sh.(cancelled := cancelled, abortMu := None), InDown(DownWait(at')));
    }
  }

  /** With mu free, only a Down holds abortMu. */
  lemma HolderAborts(r: Run, h: Tid)
    requires Valid(r) && Last(r).sh.mu == None && Last(r).sh.abortMu == Some(h)
    ensures
      var s := Last(r);
      h in s.threads && s.threads[h].pc.InDown? && s.threads[h].pc.down.AbortCall?
  {
    InvAt(r, |r.events|);
    assert ThreadOk(Last(r).sh, h, Last(r).threads[h]);
  }

  /** The get passes every check. */
  lemma GetPasses(r: Run, b: nat, r1: Run, t: Tid) returns (r': Run, ctx: CtxId)
    requires Valid(r) && Continues(r, r1, b) && Clear(Last(r1).sh)
    requires t in Last(r1).threads && Last(r1).threads[t] == Thread(OpGet, InGet(Stamp), [])
    ensures Continues(r, r', b) && Last(r').sh.mu == Some(t) && Last(r').sh.abortMu == None && !Last(r').sh.held
    ensures t in Last(r').threads && Last(r').threads[t] == Thread(OpGet, InDial(ctx, PubLock), [])
  {
    var sh := Last(r1).sh;
    var since := sh.now;
    r' := Step1(r, b, r1, t, Go, sh, InGet(Wait(since)));
    r' := Step1(r, b, r', t, Go, Tick(sh).(mu := Some(t)), InGet(CheckHeld(since)));
    r' := Step1(r, b, r', t, Go, Last(r').sh, InGet(CheckCli(since)));
    r' := Step1(r, b, r', t, Go, Last(r').sh, InGet(CheckManual(since)));
    r' := Step1(r, b, r', t, Go, Last(r').sh, InGet(CheckShared(since)));
    ctx := Last(r').sh.nextCtx;
    r' := Step1(r, b, r', t, Go, Last(r').sh.(nextCtx := ctx + 1), InDial(ctx, PubLock));
  }

  /** It dials, and connects. */
  lemma GetConnects(r: Run, b: nat, r1: Run, t: Tid, ctx: CtxId) returns (r': Run)
    requires Valid(r) && Continues(r, r1, b)
    requires Last(r1).sh.mu == Some(t) && Last(r1).sh.abortMu == None && !Last(r1).sh.held
    requires t in Last(r1).threads && Last(r1).threads[t] == Thread(OpGet, InDial(ctx, PubLock), [])
    ensures Continues(r, r', b) && Last(r').sh.open != {}
  {
    r' := Step1(r, b, r1, t, Go, Last(r1).sh.(abortMu := Some(t)), InDial(ctx, PubCheck));
    r' := Step1(r, b, r', t, Go, Last(r').sh, InDial(ctx, PubWrite));
    r' := Step1(r, b, r', t, Go, Last(r').sh.(abort := Some(ctx), abortMu := None), InDial(ctx, Announce));
    r' := Step1(r, b, r', t, Go, Last(r').sh.(state := ConnConnecting), InDial(ctx, Dialing(None)));
    var id := Last(r').sh.nextConn;
    var sh := Last(r').sh.(open := Last(r').sh.open + {id}, nextConn := id + 1);
    r' := Step1(r, b, r', t, Connect, sh, InDial(ctx, Dialing(Some(id))));
    assert id in Last(r').sh.open;
  }

  // ---- the condition ----

  /** A Down lasts until the next Up or Close if and only if held is set when it leaves its critical section. */
  lemma DownLasts(r: Run, d: Tid, at: nat, b: nat)
    requires Valid(r) && |r.events| == b + 1 && Takes(r, b, d, InDown(DownLocked(at)))
    ensures r.states[b].sh.held <==> Lasts(r, b)
  {
    if r.states[b].sh.held {
      forall r' | Continues(r, r', b)
        ensures Last(r').sh.open == {} && Last(r').sh.cli == None && Last(r').sh.state == ConnUnknown
      {
        HeldLasts(r, r', d, at, b);
      }
    } else {
      var r1, t := GetBegins(r, d, at, b);
      var r2, ctx := GetPasses(r, b, r1, t);
      var r3 := GetConnects(r, b, r2, t, ctx);
      assert Continues(r, r3, b) && Last(r3).sh.open != {};
    }
  }

  // ---- a run in which held is clear ----

  const DOWN := Call(0)
  const UP := Call(1)

  ghost predicate EndsIn(r: Run, s: State) { Valid(r) && Last(r) == s }

  lemma More(r: Run, s: State, e: Event) returns (r': Run, s': State)
    requires EndsIn(r, s) && Step(s, e).Some?
    ensures s' == Step(s, e).value && EndsIn(r', s') && r'.events == r.events + [e] && r'.states == r.states + [s']
  {
    r' := Runs.Extend(Step, r, e);
    s' := Step(s, e).value;
  }

  /** Where the two calls and the shared state are. */
  predicate At(s: State, down: PC, up: PC, mu: Option<Tid>, abortMu: Option<Tid>) {
    && s.threads.Keys == {DOWN, UP}
    && s.threads[DOWN] == Thread(OpDown, down, []) && s.threads[UP] == Thread(OpUp, up, [])
    && s.sh.mu == mu && s.sh.abortMu == abortMu
    && s.sh.cli == None && s.sh.open == {}
  }

  /** The Down sets held, and the Up clears it. */
  lemma Overlap() returns (r: Run, s: State)
    ensures EndsIn(r, s) && At(s, InDown(AbortLock(2)), InGet(Stamp), None, None) && !s.sh.held
  {
    r, s := Runs.Run([], [INIT]), INIT;
    r, s := More(r, s, Begin(DOWN, OpDown));
    r, s := More(r, s, Begin(UP, OpUp));
    assert At(s, InDown(Hold), InGet(UpClear), None, None);
    r, s := More(r, s, Act(DOWN, Go));
    assert At(s, InDown(AbortLock(2)), InGet(UpClear), None, None);
    r, s := More(r, s, Act(UP, Go));
  }

  /** The Up overlaps the Down, which ends with held clear. */
  lemma DownEnds() returns (r: Run, b: nat)
    ensures Valid(r) && |r.events| == b + 1 && Takes(r, b, DOWN, InDown(DownLocked(2))) && !r.states[b].sh.held
  {
    var s: State;
    r, s := Overlap();
    r, s := More(r, s, Act(DOWN, Go));
    assert At(s, InDown(AbortCall(2)), InGet(Stamp), None, Some(DOWN));
    r, s := More(r, s, Act(DOWN, Go));
    assert At(s, InDown(DownWait(2)), InGet(Stamp), None, None);
    r, s := More(r, s, Act(DOWN, Go));
    assert At(s, InDown(DownLocked(2)), InGet(Stamp), Some(DOWN), None) && !s.sh.held;
    b := |r.events|;
    r, s := More(r, s, Act(DOWN, Go));
  }

  /** Though no Up and no Close has come since that Down ended, a connection is open. */
  lemma UpOvertakesDown() returns (r: Run, b: nat, r': Run)
    ensures Valid(r) && |r.events| == b + 1 && Takes(r, b, DOWN, InDown(DownLocked(2)))
    ensures Continues(r, r', b) && Last(r').sh.open != {}
  {
    r, b := DownEnds();
    var r1, t := GetBegins(r, DOWN, 2, b);
    var r2, ctx := GetPasses(r, b, r1, t);
    r' := GetConnects(r, b, r2, t, ctx);
  }
}
