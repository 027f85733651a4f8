/** Every usleep resumes once, whatever timers and interrupters do. */
module SleepTheorems {
  import opened Wrappers
  import opened Sleep

  ghost predicate Path(s: State, es: seq<Event>, s': State) {
    Executable(s, es) && After(s, es) == s'
  }

  ghost predicate Reachable(s: State) {
    exists s0, es :: Init(s0) && Path(s0, es, s)
  }

  lemma {:induction false} RunInv(s: State, es: seq<Event>)
    requires Inv(s) && Executable(s, es)
    ensures Inv(After(s, es))
    decreases |es|
  {
    if es != [] {
      StepInv(s, es[0]);
      RunInv(Step(s, es[0]), es[1..]);
    }
  }

  lemma ReachableInv(s: State)
    requires Reachable(s)
    ensures Inv(s)
  {
    var s0, es :| Init(s0) && Path(s0, es, s);
    InitInv(s0);
    RunInv(s0, es);
  }

  /** An episode is made runnable at most once, and exactly once before usleep goes on. */
  lemma ResumedExactlyOnce(s: State, e: nat)
    requires Reachable(s) && 0 < e <= s.ep
    ensures e in s.resumes && s.resumes[e] <= 1
    ensures e < s.ep || !s.sleeper.Asleep? ==> s.resumes[e] == 1
  {
    ReachableInv(s);
    assert e in s.claims;
    assert EpisodeOk(s, e);
  }

  /** Whoever is about to make a task runnable does so in the episode in which it sleeps: the timer thread
      reads SleepArgs that are still on the stack of the sleeper, and no resumption is late. */
  lemma ResumesInEpisode(s: State, e: Event)
    requires Reachable(s) && Enabled(s, e) && (e.AdderResume? || e.TimerResume? || e.InterruptResume?)
    ensures s.sleeper.Asleep? && s.ep in s.resumes && s.resumes[s.ep] == 0
    ensures Step(s, e).resumes == s.resumes[s.ep := 1]
  {
    ReachableInv(s);
    match e {
      case AdderResume(i) => assert AdderOk(s, i); ClaimIsCurrent(s, i);
      case TimerResume(id) => assert TimerOk(s, id); ClaimIsCurrent(s, s.timers[id].ep);
      case InterruptResume(a) => assert InterrupterOk(s, a); ClaimIsCurrent(s, s.interrupters[a].ep);
    }
  }

  /** A sleeper that nobody made runnable yet is never forgotten: the holder of the claim can go on. */
  lemma SleeperNotForgotten(s: State, unused: TimerId) returns (e: Event)
    requires Reachable(s) && s.sleeper.Asleep? && s.ep in s.resumes && s.resumes[s.ep] == 0 && unused !in s.timers
    ensures Enabled(s, e)
    ensures e.Schedule? || e.AdderResume? || e.Fire? || e.TimerResume? || e.InterruptResume?
  {
    ReachableInv(s);
    assert ClaimOk(s, s.ep) && EpisodeOk(s, s.ep);
    match s.claims[s.ep] {
      case ByAdder => e := if s.adders[s.ep].Scheduling? then Schedule(s.ep, true, unused) else AdderResume(s.ep);
      case ByTimer(id) => e := if s.timers[id].st.Pending? then Fire(id) else TimerResume(id);
      case ByInterrupter(a) => e := InterruptResume(a);
    }
  }

  /** An interrupter wins exactly when the timer that it took is that of the current sleep and has not fired. */
  lemma InterruptWinsIff(s: State, a: Agent)
    requires Reachable(s) && CanUnschedule(s, a)
    ensures var id := s.interrupters[a].id;
            StepUnschedule(s, a).interrupters[a].Won? <==>
              s.sleeper.Asleep? && s.ep in s.claims && s.claims[s.ep] == ByTimer(id) && s.timers[id].st.Pending?
  {
    ReachableInv(s);
    var id := s.interrupters[a].id;
    assert TimerOk(s, id);
    if s.timers[id].st.Pending? { ClaimIsCurrent(s, s.timers[id].ep); }
  }

  /** An interrupted sleeper whose timer is pending is about to be woken, by its callback or by an interrupter
      that has the timer, exactly unless a callback of an earlier sleep overwrote `current_sleep` after that of
      the present sleep was done. */
  lemma InterruptReachesSleeper(s: State, id: TimerId)
    requires Reachable(s) && s.sleeper.Asleep? && s.interrupted
    requires s.ep in s.claims && s.claims[s.ep] == ByTimer(id) && id in s.timers && s.timers[id].st.Pending?
    ensures s.ep in s.adders
    ensures (|| s.adders[s.ep] == Publishing(id) || s.adders[s.ep] == Unscheduling(id)
             || exists a :: a in s.interrupters && HasTimer(s.interrupters[a], id)) <==> !s.overwritten
  {
    ReachableInv(s);
    assert EpisodeOk(s, s.ep) && AdderOk(s, s.ep) && QuietOk(s, id);
    if s.adders[s.ep].Publishing? || s.adders[s.ep].Unscheduling? { assert TimerOk(s, s.adders[s.ep].id); }
  }

  /** An interrupt of a sleeper that nobody interrupted before finds the timer exactly under the same condition. */
  lemma InterruptFindsTimerIff(s: State, a: Agent, id: TimerId)
    requires Reachable(s) && CanTake(s, a) && s.sleeper.Asleep? && !s.interrupted && CallbackDone(s)
    requires s.ep in s.claims && s.claims[s.ep] == ByTimer(id) && id in s.timers && s.timers[id].st.Pending?
    ensures StepTake(s, a).interrupters[a] == Flagging(Some(id)) <==> !s.overwritten
  {
    ReachableInv(s);
    assert QuietOk(s, id);
  }

  // ---------- a run in which an interrupt does not wake the sleeper ----------

  lemma {:induction false} Join(s: State, es: seq<Event>, s1: State, more: seq<Event>, s2: State)
    requires Path(s, es, s1) && Path(s1, more, s2)
    ensures Path(s, es + more, s2)
    decreases |es|
  {
    if es == [] {
      assert es + more == more;
    } else {
      Join(Step(s, es[0]), es[1..], s1, more, s2);
      assert (es + more)[1..] == es[1..] + more;
    }
  }

  lemma One(s: State, e: Event)
    requires Enabled(s, e)
    ensures Path(s, [e], Step(s, e))
  {
    var s1, rest := Step(s, e), [e][1..];
    assert rest == [] && Path(s1, rest, s1);
  }

  lemma Then(s: State, es: seq<Event>, s1: State, e: Event) returns (longer: seq<Event>)
    requires Path(s, es, s1) && Enabled(s1, e)
    ensures Path(s, longer, Step(s1, e))
  {
    One(s1, e);
    Join(s, es, s1, [e], Step(s1, e));
    longer := es + [e];
  }

  function Fresh(): State {
    State(0, Awake, true, false, None, map[], map[], map[0 := Idle], None, map[], map[], false, None)
  }

  lemma FirstTimer() returns (s: State, es: seq<Event>)
    ensures Path(Fresh(), es, s)
    ensures s.ep == 1 && s.sleeper.Asleep? && s.sameVersion && !s.interrupted
    ensures s.currentSleep == None && s.lock == None
    ensures s.interrupters == map[0 := Idle]
    ensures s.timers == map[10 := Timer(1, Gone)] && s.adders == map[1 := Publishing(10)]
    ensures 1 in s.resumes && s.resumes[1] > 0
  {
    var s1 := Step(Fresh(), GoToSleep);
    assert Path(Fresh(), [], Fresh());
    es := Then(Fresh(), [], Fresh(), GoToSleep);
    var s2 := StepSchedule(s1, 1, true, 10);
    es := Then(Fresh(), es, s1, Schedule(1, true, 10));
    var s3 := StepFire(s2, 10);
    es := Then(Fresh(), es, s2, Fire(10));
    s := StepTimerResume(s3, 10);
    es := Then(Fresh(), es, s3, TimerResume(10));
  }

  /** The first sleep is over, but its callback has not published its timer yet. */
  lemma FirstSleep() returns (s: State, es: seq<Event>)
    ensures Path(Fresh(), es, s)
    ensures s.ep == 1 && s.sleeper.Awake? && s.sameVersion && !s.interrupted
    ensures s.currentSleep == None && s.lock == None
    ensures s.interrupters == map[0 := Idle]
    ensures s.timers == map[10 := Timer(1, Gone)] && s.adders == map[1 := Publishing(10)]
  {
    var s4;
    s4, es := FirstTimer();
    var s5 := Step(s4, Resume);
    es := Then(Fresh(), es, s4, Resume);
    var s6 := StepClearSleep(s5);
    es := Then(Fresh(), es, s5, ClearSleep);
    s := StepCheck(s6);
    es := Then(Fresh(), es, s6, Check);
  }

  /** The late callback overwrites the timer of the second sleep. */
  lemma LatePublish(s0: State) returns (s: State, es: seq<Event>)
    requires s0.ep == 1 && s0.sleeper.Awake? && s0.sameVersion && !s0.interrupted
    requires s0.currentSleep == None && s0.lock == None
    requires s0.interrupters == map[0 := Idle]
    requires s0.timers == map[10 := Timer(1, Gone)] && s0.adders == map[1 := Publishing(10)]
    ensures Path(s0, es, s)
    ensures s.ep == 2 && s.sleeper.Asleep? && s.sameVersion && s.currentSleep == Some(10)
    ensures s.lock == None && s.interrupters == map[0 := Idle]
    ensures s.timers == map[10 := Timer(1, Gone), 11 := Timer(2, Pending)]
    ensures s.adders == map[1 := AdderDone, 2 := AdderDone] && s.overwritten
    ensures 2 in s.resumes && s.resumes[2] == 0
  {
    var s1 := StepGoToSleep(s0);
    assert Path(s0, [], s0);
    es := Then(s0, [], s0, GoToSleep);
    var s2 := StepSchedule(s1, 2, true, 11);
    es := Then(s0, es, s1, Schedule(2, true, 11));
    var s3 := StepPublish(s2, 2);
    es := Then(s0, es, s2, Publish(2));
    s := StepPublish(s3, 1);
    es := Then(s0, es, s3, Publish(1));
  }

  /** An interrupter that finds the timer of an earlier sleep in `current_sleep` wakes nobody: it is done,
      no callback is left, and the interrupted sleeper waits for its own timer. */
  lemma StaleSleepLosesInterrupt() returns (s: State)
    ensures Reachable(s) && s.sleeper.Asleep? && s.ep == 2 && s.interrupted && s.interrupters == map[0 := Idle]
    ensures s.overwritten && s.adders == map[1 := AdderDone, 2 := AdderDone] && 2 in s.resumes && s.resumes[2] == 0
    ensures s.timers == map[10 := Timer(1, Gone), 11 := Timer(2, Pending)]
  {
    var s1, es1 := FirstSleep();
    var s2, es2 := LatePublish(s1);
    Join(Fresh(), es1, s1, es2, s2);
    var s3 := StepTake(s2, 0);
    var es := Then(Fresh(), es1 + es2, s2, Take(0));
    var s4 := StepFlag(s3, 0);
    es := Then(Fresh(), es, s3, Flag(0));
    s := StepUnschedule(s4, 0);
    es := Then(Fresh(), es, s4, Unschedule(0));
    assert Init(Fresh());
  }
}
