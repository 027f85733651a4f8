/** What a sleep returns and how it ends: interruptions are remembered and each is reported once, an
    uninterrupted sleep lasts until its timer, and every sleep can end. */
module SleepProgress {
  import opened Wrappers
  import opened Sleep
  import opened SleepTheorems

  // ---------- interruptions are remembered until a sleep reports them ----------

  /** Whether an interruption is pending after a run, if it was `pending` before: it is from the store of an
      interrupter to the return of the next sleep, whether the task sleeps meanwhile or not. */
  function PendingAfter(es: seq<Event>, pending: bool): bool {
    if es == [] then pending
    else PendingAfter(es[1..], if es[0].Flag? then true else if es[0].Check? then false else pending)
  }

  /** usleep returns -1 exactly if it finds an interruption. */
  function Failures(s: State, es: seq<Event>): nat
    requires Executable(s, es)
    decreases |es|
  {
    if es == [] then 0
    else (if es[0].Check? && s.interrupted then 1 else 0) + Failures(Step(s, es[0]), es[1..])
  }

  function Interruptions(es: seq<Event>): nat {
    if es == [] then 0 else (if es[0].Flag? then 1 else 0) + Interruptions(es[1..])
  }

  function Count(pending: bool): nat {
    if pending then 1 else 0
  }

  lemma CallbackKeepsFlag(s: State, e: Event)
    requires Enabled(s, e) && OfCallback(e)
    ensures Step(s, e).interrupted == s.interrupted
  {
    match e {
      case Schedule(i, ok, id) => assert StepSchedule(s, i, ok, id).interrupted == s.interrupted;
      case Publish(i) => assert StepPublish(s, i).interrupted == s.interrupted;
      case AdderUnschedule(i) => assert StepAdderUnschedule(s, i).interrupted == s.interrupted;
      case AdderResume(i) => assert StepAdderResume(s, i).interrupted == s.interrupted;
    }
  }

  lemma TimerKeepsFlag(s: State, e: Event)
    requires Enabled(s, e) && (e.Fire? || e.TimerResume? || e.Unschedule? || e.InterruptResume?)
    ensures Step(s, e).interrupted == s.interrupted
  {}

  lemma FlagStep(s: State, e: Event)
    requires Enabled(s, e)
    ensures Step(s, e).interrupted == if e.Flag? then true else if e.Check? then false else s.interrupted
  {
    if OfCallback(e) { CallbackKeepsFlag(s, e); }
    else if e.Fire? || e.TimerResume? || e.Unschedule? || e.InterruptResume? { TimerKeepsFlag(s, e); }
  }

  /** In every run the flag says whether an interruption came since the last return from usleep. */
  lemma {:induction false} FlagIsPending(s: State, es: seq<Event>)
    requires Executable(s, es)
    ensures After(s, es).interrupted == PendingAfter(es, s.interrupted)
    decreases |es|
  {
    if es != [] {
      FlagStep(s, es[0]);
      FlagIsPending(Step(s, es[0]), es[1..]);
    }
  }

  /** No interruption is reported twice: every failure of usleep and the pending flag have one each. */
  lemma {:induction false} ReportedOnce(s: State, es: seq<Event>)
    requires Executable(s, es)
    ensures Failures(s, es) + Count(After(s, es).interrupted) <= Interruptions(es) + Count(s.interrupted)
    decreases |es|
  {
    if es != [] {
      FlagStep(s, es[0]);
      ReportedOnce(Step(s, es[0]), es[1..]);
    }
  }

  // ---------- current_sleep ----------

  /** The timer that event `e` publishes, if it does. */
  function Publishes(s: State, e: Event): Option<TimerId>
    requires Enabled(s, e)
  {
    if e.Publish? && s.sameVersion && !s.interrupted then Some(s.adders[e.e].id) else None
  }

  /** The timer published last in a run, unless a return from a sleep or an interrupter came after it. */
  function LastPublished(s: State, es: seq<Event>, before: Option<TimerId>): Option<TimerId>
    requires Executable(s, es)
    decreases |es|
  {
    if es == [] then before
    else
      LastPublished(Step(s, es[0]), es[1..],
                    if Publishes(s, es[0]).Some? then Publishes(s, es[0])
                    else if es[0].ClearSleep? || (es[0].Take? && s.sameVersion) then None
                    else before)
  }

  lemma CallbackSets(s: State, e: Event)
    requires Enabled(s, e) && OfCallback(e)
    ensures Step(s, e).currentSleep == if Publishes(s, e).Some? then Publishes(s, e) else s.currentSleep
  {
    match e {
      case Schedule(i, ok, id) => assert StepSchedule(s, i, ok, id).currentSleep == s.currentSleep;
      case Publish(i) => assert StepPublish(s, i).currentSleep ==
                                if Publishes(s, e).Some? then Publishes(s, e) else s.currentSleep;
      case AdderUnschedule(i) => assert StepAdderUnschedule(s, i).currentSleep == s.currentSleep;
      case AdderResume(i) => assert StepAdderResume(s, i).currentSleep == s.currentSleep;
    }
  }

  lemma OthersClear(s: State, e: Event)
    requires Enabled(s, e) && !OfCallback(e)
    ensures Step(s, e).currentSleep == if e.ClearSleep? || (e.Take? && s.sameVersion) then None else s.currentSleep
  {
    if e.Unschedule? { assert StepUnschedule(s, e.a).currentSleep == s.currentSleep; }
    if e.InterruptResume? { assert StepInterruptResume(s, e.a).currentSleep == s.currentSleep; }
    if e.TimerResume? { assert StepTimerResume(s, e.id).currentSleep == s.currentSleep; }
  }

  /** In every run `current_sleep` is the timer published last, and none once its sleep has returned or an
      interrupter has taken it: a task that waits on a butex after a sleep has none but for a late callback. */
  lemma {:induction false} CurrentSleepIsLastPublished(s: State, es: seq<Event>)
    requires Executable(s, es)
    ensures After(s, es).currentSleep == LastPublished(s, es, s.currentSleep)
    decreases |es|
  {
    if es != [] {
      if OfCallback(es[0]) { CallbackSets(s, es[0]); } else { OthersClear(s, es[0]); }
      CurrentSleepIsLastPublished(Step(s, es[0]), es[1..]);
    }
  }

  // ---------- what ends a sleep ----------

  /** The callback lets the interrupters find its timer exactly if the task was not interrupted and has not
      ended; otherwise it goes on to take the timer back, and leaves `current_sleep` alone. */
  lemma PublishedIffNotInterrupted(s: State, e: nat)
    requires Enabled(s, Publish(e))
    ensures var id, z := s.adders[e].id, Step(s, Publish(e));
            && (z.adders[e].AdderDone? <==> s.sameVersion && !s.interrupted)
            && (z.adders[e].AdderDone? ==> z.currentSleep == Some(id))
            && (!z.adders[e].AdderDone? ==> z.adders[e] == Unscheduling(id) && z.currentSleep == s.currentSleep)
  {}

  /** In its present sleep the task was not interrupted, and a timer was scheduled if that was tried. */
  ghost predicate Undisturbed(s: State) {
    && s.sleeper.Asleep? && s.sameVersion && !s.interrupted && s.ep in s.claims && s.ep in s.adders
    && (s.adders[s.ep].Scheduling? || s.adders[s.ep].Publishing? || s.adders[s.ep].AdderDone?)
    && !s.claims[s.ep].ByInterrupter? && (s.claims[s.ep].ByAdder? ==> s.adders[s.ep].Scheduling?)
    && (forall a {:trigger s.interrupters[a]} :: a in s.interrupters && s.interrupters[a].Took? ==>
          s.interrupters[a].id in s.timers && s.timers[s.interrupters[a].id].ep != s.ep)
  }

  /** Nobody interrupts the task, and the timer thread takes the timer. */
  predicate Peaceful(e: Event) {
    !e.Flag? && !e.Resume? && (e.Schedule? ==> e.ok)
  }

  predicate PeacefulRun(es: seq<Event>) {
    es != [] ==> Peaceful(es[0]) && PeacefulRun(es[1..])
  }

  lemma SleepStarts(s: State)
    requires Inv(s) && Enabled(s, GoToSleep) && !s.interrupted
    ensures Undisturbed(Step(s, GoToSleep))
  {
    var z := Step(s, GoToSleep);
    forall a | a in z.interrupters && z.interrupters[a].Took?
      ensures z.interrupters[a].id in z.timers && z.timers[z.interrupters[a].id].ep != z.ep {
      assert InterrupterOk(s, a) && TimerOk(s, s.interrupters[a].id);
      assert EpisodeOk(s, s.timers[s.interrupters[a].id].ep);
    }
  }

  predicate OfCallback(e: Event) {
    e.Schedule? || e.Publish? || e.AdderUnschedule? || e.AdderResume?
  }

  lemma CallbackDisturbsNot(s: State, e: Event)
    requires Inv(s) && Undisturbed(s) && Enabled(s, e) && Peaceful(e) && OfCallback(e)
    ensures Undisturbed(Step(s, e)) && Step(s, e).ep == s.ep
  {
    assert ClaimOk(s, s.ep) && AdderOk(s, s.ep);
  }

  /** An interrupter that still has a timer has that of an earlier sleep, which is gone. */
  lemma UnscheduleDisturbsNot(s: State, a: Agent)
    requires Inv(s) && Undisturbed(s) && CanUnschedule(s, a)
    ensures Undisturbed(StepUnschedule(s, a)) && StepUnschedule(s, a).ep == s.ep
  {
    var id := s.interrupters[a].id;
    assert TimerOk(s, id);
    if s.timers[id].st.Pending? { ClaimIsCurrent(s, s.timers[id].ep); }
  }

  lemma TimerDisturbsNot(s: State, id: TimerId)
    requires Inv(s) && Undisturbed(s) && CanTimerResume(s, id)
    ensures Undisturbed(StepTimerResume(s, id)) && StepTimerResume(s, id).ep == s.ep
  {
    assert TimerOk(s, id);
    ClaimIsCurrent(s, s.timers[id].ep);
  }

  lemma NoInterrupterWon(s: State, a: Agent)
    requires Inv(s) && Undisturbed(s)
    ensures !CanInterruptResume(s, a)
  {
    if CanInterruptResume(s, a) {
      assert InterrupterOk(s, a);
      ClaimIsCurrent(s, s.interrupters[a].ep);
      assert false;
    }
  }

  lemma UndisturbedStays(s: State, e: Event)
    requires Inv(s) && Undisturbed(s) && Enabled(s, e) && Peaceful(e)
    ensures Undisturbed(Step(s, e)) && Step(s, e).ep == s.ep
  {
    if OfCallback(e) { CallbackDisturbsNot(s, e); }
    else if e.Unschedule? { UnscheduleDisturbsNot(s, e.a); }
    else if e.TimerResume? { TimerDisturbsNot(s, e.id); }
    else if e.InterruptResume? {
      NoInterrupterWon(s, e.a);
      assert false;
    }
  }

  ghost predicate UndisturbedIn(s: State, ep: nat) {
    Inv(s) && Undisturbed(s) && s.ep == ep
  }

  lemma StepUndisturbed(s: State, e: Event)
    requires UndisturbedIn(s, s.ep) && Enabled(s, e) && Peaceful(e)
    ensures UndisturbedIn(Step(s, e), s.ep)
  {
    UndisturbedStays(s, e);
    StepInv(s, e);
  }

  lemma {:induction false} UndisturbedRun(s: State, es: seq<Event>, ep: nat)
    requires UndisturbedIn(s, ep) && Executable(s, es) && PeacefulRun(es)
    ensures UndisturbedIn(After(s, es), ep)
    decreases |es|
  {
    if es != [] {
      assert s.ep == ep;
      StepUndisturbed(s, es[0]);
      UndisturbedRun(Step(s, es[0]), es[1..], ep);
    }
  }

  lemma OnlyItsTimer(z: State, e: Event)
    requires UndisturbedIn(z, z.ep) && Enabled(z, e) && (e.AdderResume? || e.TimerResume? || e.InterruptResume?)
    ensures e.TimerResume? && z.timers[e.id].ep == z.ep
  {
    match e {
      case AdderResume(i) => assert AdderOk(z, i); ClaimIsCurrent(z, i);
      case TimerResume(id) => assert TimerOk(z, id); ClaimIsCurrent(z, z.timers[id].ep);
      case InterruptResume(a) => assert InterrupterOk(z, a); ClaimIsCurrent(z, z.interrupters[a].ep);
    }
  }

  /** A sleep that begins without a pending interruption, and is not interrupted, is ended by its own timer and
      by nothing else. */
  lemma UninterruptedSleepsItsTime(s: State, es: seq<Event>, e: Event)
    requires Reachable(s) && Enabled(s, GoToSleep) && !s.interrupted
    requires Executable(Step(s, GoToSleep), es) && PeacefulRun(es)
    requires Enabled(After(Step(s, GoToSleep), es), e) && (e.AdderResume? || e.TimerResume? || e.InterruptResume?)
    ensures e.TimerResume? && After(Step(s, GoToSleep), es).timers[e.id].ep == s.ep + 1
  {
    ReachableInv(s);
    SleepStarts(s);
    StepInv(s, GoToSleep);
    UndisturbedRun(Step(s, GoToSleep), es, s.ep + 1);
    OnlyItsTimer(After(Step(s, GoToSleep), es), e);
  }

  // ---------- every sleep can end ----------

  /** The steps until the sleeper is awake. */
  function Distance(s: State): nat {
    match s.sleeper
    case Awake => 0
    case Checking => 1
    case Returning => 2
    case Asleep =>
      if s.ep !in s.claims then 0
      else
        match s.claims[s.ep]
        case Nobody => 3
        case ByInterrupter(_) => 4
        case ByTimer(id) => if id in s.timers && s.timers[id].st.Pending? then 5 else 4
        case ByAdder => if s.ep in s.adders && s.adders[s.ep].Scheduling? then 5 else 4
  }

  lemma {:induction false} UnusedId(used: set<TimerId>) returns (id: TimerId)
    ensures forall i :: i in used ==> i < id
  {
    id := 0;
    if used != {} {
      var x :| x in used;
      var bound := UnusedId(used - {x});
      id := if x < bound then bound else x + 1;
      assert forall i :: i in used ==> i == x || i in used - {x};
    }
  }

  /** The holder of the claim goes on, and then the sleeper; a timer that cannot be scheduled ends the sleep
      at once. */
  lemma NextCloser(s: State) returns (e: Event)
    requires Inv(s) && !s.sleeper.Awake?
    ensures Enabled(s, e) && Distance(Step(s, e)) < Distance(s) && Step(s, e).ep == s.ep
  {
    match s.sleeper {
      case Checking => e := Check;
      case Returning => e := ClearSleep;
      case Asleep =>
        assert s.ep in s.claims;
        assert ClaimOk(s, s.ep) && EpisodeOk(s, s.ep);
        match s.claims[s.ep] {
          case Nobody => e := Resume;
          case ByInterrupter(a) => e := InterruptResume(a);
          case ByTimer(id) => e := if s.timers[id].st.Pending? then Fire(id) else TimerResume(id);
          case ByAdder =>
            var id := UnusedId(s.timers.Keys);
            e := if s.adders[s.ep].Scheduling? then Schedule(s.ep, false, id) else AdderResume(s.ep);
        }
    }
  }

  lemma {:induction false} SleeperReturns(s: State) returns (es: seq<Event>)
    requires Inv(s)
    ensures Executable(s, es) && After(s, es).sleeper.Awake? && After(s, es).ep == s.ep
    decreases Distance(s)
  {
    es := [];
    if !s.sleeper.Awake? {
      var e := NextCloser(s);
      StepInv(s, e);
      var fs := SleeperReturns(Step(s, e));
      es := [e] + fs;
      assert es[1..] == fs;
    }
  }

  /** From every reachable state a sleep can return, however far its callback, its timer and the interrupters
      have come. */
  lemma SleepCanReturn(s: State) returns (es: seq<Event>)
    requires Reachable(s)
    ensures Executable(s, es) && After(s, es).sleeper.Awake? && After(s, es).ep == s.ep
  {
    ReachableInv(s);
    es := SleeperReturns(s);
  }
}
