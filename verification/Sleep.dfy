/** TaskGroup::usleep and interrupt for one task: its sleep episodes, their timers, the callbacks that
    schedule them, and any number of interrupters. */
module Sleep {
  import opened Wrappers

  type TimerId = nat
  type Agent = nat

  /** The TimerThread's view of a scheduled call; `Gone` covers calls that ran and calls that were removed. */
  datatype TimerState = Pending | Firing | Gone

  datatype Timer = Timer(ep: nat, st: TimerState)

  /** _add_sleep_event of one episode, which goes on after the task was resumed. */
  datatype Adder =
    | Scheduling
    | Publishing(id: TimerId)
    | Unscheduling(id: TimerId)
    | AdderWon
    | AdderDone

  /** TaskGroup::interrupt: `Flagging` has taken `current_sleep` and is about to store `interrupted`, still under
      the version lock; `Took` has released the lock with a timer, `Won` was told 0 by unschedule. */
  datatype Interrupter = Idle | Flagging(found: Option<TimerId>) | Took(id: TimerId) | Won(ep: nat)

  /** The sleeper sleeps in episode `ep`, or returns from usleep in two steps, or runs. */
  datatype Sleeper = Awake | Asleep | Returning | Checking

  /** History: who may make the task of an episode runnable. */
  datatype Claim = ByAdder | ByTimer(id: TimerId) | ByInterrupter(a: Agent) | Nobody

  /** `ep` counts the episodes so far; `sameVersion` says that the task has not ended; `lock` is the interrupter
      inside the region of the version lock, which the sleeper itself does not take. History: `claims`;
      `resumes`, the number of times each episode was made runnable; `overwritten`, whether a callback of an
      earlier episode wrote `currentSleep` after that of the present one was done; `taker`, the interrupter that
      took this episode's timer. */
  datatype State = State(
    ep: nat,
    sleeper: Sleeper,
    sameVersion: bool,
    interrupted: bool,
    currentSleep: Option<TimerId>,
    timers: map<TimerId, Timer>,
    adders: map<nat, Adder>,
    interrupters: map<Agent, Interrupter>,
    lock: Option<Agent>,
    claims: map<nat, Claim>,
    resumes: map<nat, nat>,
    overwritten: bool,
    taker: Option<Agent>)

  datatype Event =
    | GoToSleep
    | Schedule(e: nat, ok: bool, id: TimerId)
    | Publish(e: nat)
    | AdderUnschedule(e: nat)
    | AdderResume(e: nat)
    | Fire(id: TimerId)
    | TimerResume(id: TimerId)
    | Take(a: Agent)
    | Flag(a: Agent)
    | Unschedule(a: Agent)
    | InterruptResume(a: Agent)
    | Resume
    | ClearSleep
    | Check
    | EndTask

  function SetAdder(s: State, e: nat, r: Adder): State {
    s.(adders := s.adders[e := r])
  }

  /** ready_to_run for the task of episode `e`. */
  function MakeRunnable(s: State, e: nat): State {
    s.(claims := s.claims[e := Nobody], resumes := s.resumes[e := (if e in s.resumes then s.resumes[e] else 0) + 1])
  }

  // ---------- the sleeper ----------

  /** set_remained(_add_sleep_event), sched, and the switch. */
  predicate CanGoToSleep(s: State) {
    s.sleeper.Awake? && s.sameVersion
  }

  function StepGoToSleep(s: State): State {
    var e := s.ep + 1;
    s.(ep := e, sleeper := Asleep, adders := s.adders[e := Scheduling], claims := s.claims[e := ByAdder],
       resumes := s.resumes[e := 0], overwritten := false, taker := None)
  }

  /** A worker runs the task once it was made runnable. */
  predicate CanResume(s: State) {
    s.sleeper.Asleep? && s.ep in s.resumes && s.resumes[s.ep] > 0
  }

  /** It clears `current_sleep`, and then consumes an interruption. */
  function StepClearSleep(s: State): State {
    s.(sleeper := Checking, currentSleep := None)
  }

  function StepCheck(s: State): State {
    s.(sleeper := Awake, interrupted := false)
  }

  // ---------- _add_sleep_event ----------

  predicate CanSchedule(s: State, e: nat, id: TimerId) {
    e in s.adders && s.adders[e].Scheduling? && id !in s.timers
  }

  function StepSchedule(s: State, e: nat, ok: bool, id: TimerId): State {
    if ok then
      SetAdder(s, e, Publishing(id)).(timers := s.timers[id := Timer(e, Pending)], claims := s.claims[e := ByTimer(id)])
    else SetAdder(s, e, AdderWon)
  }

  /** The callback of the present episode needs the version lock no more. */
  predicate CallbackDone(s: State) {
    s.ep in s.adders && s.adders[s.ep].AdderDone?
  }

  /** Under the version lock: publish the timer, unless the task was interrupted or has ended. */
  predicate CanPublish(s: State, e: nat) {
    e in s.adders && s.adders[e].Publishing? && s.lock == None
  }

  function StepPublish(s: State, e: nat): State
    requires CanPublish(s, e)
  {
    var id := s.adders[e].id;
    if s.sameVersion && !s.interrupted then
      SetAdder(s, e, AdderDone).(currentSleep := Some(id),
                                 overwritten := s.overwritten || (e != s.ep && CallbackDone(s)),
                                 taker := if e == s.ep then None else s.taker)
    else SetAdder(s, e, Unscheduling(id))
  }

  predicate CanAdderUnschedule(s: State, e: nat) {
    e in s.adders && s.adders[e].Unscheduling? && s.adders[e].id in s.timers
  }

  /** unschedule returns 0 exactly when it removes a call that has not begun. */
  function StepAdderUnschedule(s: State, e: nat): State
    requires CanAdderUnschedule(s, e)
  {
    var id := s.adders[e].id;
    if s.timers[id].st.Pending? then
      SetAdder(s, e, AdderWon).(timers := s.timers[id := s.timers[id].(st := Gone)], claims := s.claims[e := ByAdder])
    else SetAdder(s, e, AdderDone)
  }

  predicate CanAdderResume(s: State, e: nat) {
    e in s.adders && s.adders[e].AdderWon?
  }

  function StepAdderResume(s: State, e: nat): State
    requires CanAdderResume(s, e)
  {
    MakeRunnable(SetAdder(s, e, AdderDone), e)
  }

  // ---------- the timer thread ----------

  predicate CanFire(s: State, id: TimerId) {
    id in s.timers && s.timers[id].st.Pending?
  }

  function StepFire(s: State, id: TimerId): State
    requires CanFire(s, id)
  {
    s.(timers := s.timers[id := s.timers[id].(st := Firing)])
  }

  predicate CanTimerResume(s: State, id: TimerId) {
    id in s.timers && s.timers[id].st.Firing?
  }

  /** ready_to_run_from_timer_thread reads the SleepArgs on the stack of the sleeper. */
  function StepTimerResume(s: State, id: TimerId): State
    requires CanTimerResume(s, id)
  {
    MakeRunnable(s.(timers := s.timers[id := s.timers[id].(st := Gone)]), s.timers[id].ep)
  }

  // ---------- interrupt ----------

  predicate CanTake(s: State, a: Agent) {
    a in s.interrupters && s.interrupters[a].Idle? && s.lock == None
  }

  /** interrupt_and_consume_waiters: only one interrupter gets the timer... */
  function StepTake(s: State, a: Agent): State {
    if !s.sameVersion then s
    else
      s.(currentSleep := None, interrupters := s.interrupters[a := Flagging(s.currentSleep)], lock := Some(a),
         taker := if s.currentSleep.Some? then Some(a) else s.taker)
  }

  predicate CanFlag(s: State, a: Agent) {
    a in s.interrupters && s.interrupters[a].Flagging?
  }

  /** ...and stores the flag. */
  function StepFlag(s: State, a: Agent): State
    requires CanFlag(s, a)
  {
    var found := s.interrupters[a].found;
    s.(interrupted := true, lock := None,
       interrupters := s.interrupters[a := if found.Some? then Took(found.value) else Idle])
  }

  predicate CanUnschedule(s: State, a: Agent) {
    a in s.interrupters && s.interrupters[a].Took? && s.interrupters[a].id in s.timers
  }

  function StepUnschedule(s: State, a: Agent): State
    requires CanUnschedule(s, a)
  {
    var id := s.interrupters[a].id;
    var e := s.timers[id].ep;
    if s.timers[id].st.Pending? then
      s.(timers := s.timers[id := s.timers[id].(st := Gone)], interrupters := s.interrupters[a := Won(e)],
         claims := s.claims[e := ByInterrupter(a)])
    else s.(interrupters := s.interrupters[a := Idle])
  }

  predicate CanInterruptResume(s: State, a: Agent) {
    a in s.interrupters && s.interrupters[a].Won?
  }

  function StepInterruptResume(s: State, a: Agent): State
    requires CanInterruptResume(s, a)
  {
    MakeRunnable(s.(interrupters := s.interrupters[a := Idle]), s.interrupters[a].ep)
  }

  // ---------- runs ----------

  predicate Enabled(s: State, e: Event) {
    match e
    case GoToSleep => CanGoToSleep(s)
    case Schedule(e, ok, id) => CanSchedule(s, e, id)
    case Publish(e) => CanPublish(s, e)
    case AdderUnschedule(e) => CanAdderUnschedule(s, e)
    case AdderResume(e) => CanAdderResume(s, e)
    case Fire(id) => CanFire(s, id)
    case TimerResume(id) => CanTimerResume(s, id)
    case Take(a) => CanTake(s, a)
    case Flag(a) => CanFlag(s, a)
    case Unschedule(a) => CanUnschedule(s, a)
    case InterruptResume(a) => CanInterruptResume(s, a)
    case Resume => CanResume(s)
    case ClearSleep => s.sleeper.Returning?
    case Check => s.sleeper.Checking?
    case EndTask => s.sleeper.Awake? && s.lock == None
  }

  function Step(s: State, e: Event): State
    requires Enabled(s, e)
  {
    match e
    case GoToSleep => StepGoToSleep(s)
    case Schedule(e, ok, id) => StepSchedule(s, e, ok, id)
    case Publish(e) => StepPublish(s, e)
    case AdderUnschedule(e) => StepAdderUnschedule(s, e)
    case AdderResume(e) => StepAdderResume(s, e)
    case Fire(id) => StepFire(s, id)
    case TimerResume(id) => StepTimerResume(s, id)
    case Take(a) => StepTake(s, a)
    case Flag(a) => StepFlag(s, a)
    case Unschedule(a) => StepUnschedule(s, a)
    case InterruptResume(a) => StepInterruptResume(s, a)
    case Resume => s.(sleeper := Returning)
    case ClearSleep => StepClearSleep(s)
    case Check => StepCheck(s)
    case EndTask => s.(sameVersion := false)
  }

  predicate Executable(s: State, es: seq<Event>)
    decreases |es|
  {
    es != [] ==> Enabled(s, es[0]) && Executable(Step(s, es[0]), es[1..])
  }

  function After(s: State, es: seq<Event>): State
    requires Executable(s, es)
    decreases |es|
  {
    if es == [] then s else After(Step(s, es[0]), es[1..])
  }

  ghost predicate Init(s: State) {
    && s.ep == 0 && s.sleeper.Awake? && s.sameVersion && s.currentSleep == None && s.lock == None
    && !s.overwritten && s.taker == None
    && s.timers == map[] && s.adders == map[] && s.claims == map[] && s.resumes == map[]
    && (forall a {:trigger s.interrupters[a]} :: a in s.interrupters ==> s.interrupters[a].Idle?)
  }

  // ---------- the invariant ----------

  /** The claim on an episode, and what its holder is doing. */
  ghost predicate ClaimOk(s: State, e: nat)
    requires e in s.claims
  {
    match s.claims[e]
    case ByAdder => e in s.adders && (s.adders[e].Scheduling? || s.adders[e].AdderWon?)
    case ByTimer(id) => id in s.timers && s.timers[id].ep == e && !s.timers[id].st.Gone?
    case ByInterrupter(a) => a in s.interrupters && s.interrupters[a] == Won(e)
    case Nobody => true
  }

  ghost predicate EpisodeOk(s: State, e: nat)
    requires e in s.claims
  {
    && 0 < e <= s.ep && e in s.adders && e in s.resumes
    && s.resumes[e] == (if s.claims[e].Nobody? then 1 else 0)
    && (e < s.ep ==> s.claims[e].Nobody?)
    && (!s.sleeper.Asleep? ==> s.claims[e].Nobody?)
  }

  ghost predicate OwnTimer(s: State, e: nat, id: TimerId)
    requires e in s.claims
  {
    id in s.timers && s.timers[id].ep == e && (s.claims[e].ByTimer? ==> s.claims[e].id == id)
  }

  ghost predicate AdderOk(s: State, e: nat)
    requires e in s.adders
  {
    && e in s.claims
    && match s.adders[e]
       case Scheduling => s.claims[e].ByAdder?
       case AdderWon => s.claims[e].ByAdder?
       case Publishing(id) => OwnTimer(s, e, id)
       case Unscheduling(id) => OwnTimer(s, e, id)
       case AdderDone => true
  }

  ghost predicate TimerOk(s: State, id: TimerId)
    requires id in s.timers
  {
    var e := s.timers[id].ep;
    e in s.claims && (!s.timers[id].st.Gone? ==> s.claims[e] == ByTimer(id))
  }

  ghost predicate InterrupterOk(s: State, a: Agent)
    requires a in s.interrupters
  {
    match s.interrupters[a]
    case Idle => s.lock != Some(a)
    case Flagging(found) => s.lock == Some(a) && (found.Some? ==> found.value in s.timers)
    case Took(id) => s.lock != Some(a) && id in s.timers
    case Won(e) => s.lock != Some(a) && e in s.claims && s.claims[e] == ByInterrupter(a)
  }

  predicate HasTimer(r: Interrupter, id: TimerId) {
    r == Took(id) || r == Flagging(Some(id))
  }

  /** No interrupter knows the timer, and the next one will not find it. */
  ghost predicate Unknown(s: State, id: TimerId) {
    && s.currentSleep != Some(id)
    && (forall a {:trigger s.interrupters[a]} :: a in s.interrupters ==> !HasTimer(s.interrupters[a], id))
  }

  /** A timer that is still to be published is known to its callback only. */
  ghost predicate UnpublishedOk(s: State, e: nat)
    requires e in s.adders
  {
    s.adders[e].Publishing? || s.adders[e].Unscheduling? ==> Unknown(s, s.adders[e].id)
  }

  /** The task sleeps, its timer is pending, and its callback is done. */
  ghost predicate Quiet(s: State, id: TimerId) {
    && s.sleeper.Asleep? && s.ep in s.claims && s.claims[s.ep] == ByTimer(id)
    && id in s.timers && s.timers[id].st.Pending? && CallbackDone(s)
  }

  /** Then an interrupter has its timer, or the next one will find it, unless `current_sleep` was overwritten. */
  ghost predicate QuietOk(s: State, id: TimerId) {
    Quiet(s, id) ==>
      if s.overwritten then Unknown(s, id)
      else if s.taker.Some? then
        && s.taker.value in s.interrupters && HasTimer(s.interrupters[s.taker.value], id)
        && s.currentSleep == None && (s.interrupted || s.lock == s.taker)
      else
        && !s.interrupted && s.currentSleep == Some(id) && s.lock == None
        && (forall a {:trigger s.interrupters[a]} :: a in s.interrupters ==> !HasTimer(s.interrupters[a], id))
  }

  ghost predicate Inv(s: State) {
    && (s.sleeper.Asleep? || s.sleeper.Returning? || s.sleeper.Checking? ==> 0 < s.ep)
    && (forall e: nat {:trigger e in s.claims} :: 0 < e <= s.ep ==> e in s.claims)
    && (s.currentSleep.Some? ==> s.currentSleep.value in s.timers)
    && (!s.sameVersion ==> s.sleeper.Awake?)
    && (s.overwritten ==> CallbackDone(s))
    && (forall e {:trigger ClaimOk(s, e)} :: e in s.claims ==> ClaimOk(s, e))
    && (forall e {:trigger EpisodeOk(s, e)} :: e in s.claims ==> EpisodeOk(s, e))
    && (forall e {:trigger AdderOk(s, e)} :: e in s.adders ==> AdderOk(s, e))
    && (forall id {:trigger TimerOk(s, id)} :: id in s.timers ==> TimerOk(s, id))
    && (forall a {:trigger InterrupterOk(s, a)} :: a in s.interrupters ==> InterrupterOk(s, a))
    && (forall e {:trigger UnpublishedOk(s, e)} :: e in s.adders ==> UnpublishedOk(s, e))
    && (forall id {:trigger QuietOk(s, id)} :: QuietOk(s, id))
  }

  lemma InitInv(s: State)
    requires Init(s)
    ensures Inv(s)
  {
    forall a | a in s.interrupters ensures InterrupterOk(s, a) { assert s.interrupters[a].Idle?; }
  }

  /** Whoever holds the claim holds it on the episode in which the task sleeps. */
  lemma ClaimIsCurrent(s: State, e: nat)
    requires Inv(s) && e in s.claims && !s.claims[e].Nobody?
    ensures e == s.ep && s.sleeper.Asleep? && e in s.resumes && s.resumes[e] == 0
  {
    assert EpisodeOk(s, e);
  }

  lemma GoToSleepInv(s: State)
    requires Inv(s) && CanGoToSleep(s)
    ensures Inv(StepGoToSleep(s))
  {
    var s' := StepGoToSleep(s);
    assert s.ep + 1 in s.claims ==> EpisodeOk(s, s.ep + 1);
    assert s.ep + 1 in s.adders ==> AdderOk(s, s.ep + 1);
    forall i | i in s'.claims ensures ClaimOk(s', i) && EpisodeOk(s', i) {
      assert i in s.claims ==> ClaimOk(s, i) && EpisodeOk(s, i);
    }
    forall i | i in s'.adders ensures AdderOk(s', i) { assert i in s.adders ==> AdderOk(s, i); }
    forall i | i in s'.timers ensures TimerOk(s', i) { assert i in s.timers ==> TimerOk(s, i); }
    forall i | i in s'.interrupters ensures InterrupterOk(s', i) { assert InterrupterOk(s, i); }
    forall i | i in s'.adders ensures UnpublishedOk(s', i) { assert i in s.adders ==> UnpublishedOk(s, i); }
    forall i ensures QuietOk(s', i) { assert QuietOk(s, i); }
  }

  lemma NewTimerUnknown(s: State, id: TimerId)
    requires Inv(s) && id !in s.timers
    ensures Unknown(s, id)
  {
    forall a | a in s.interrupters ensures !HasTimer(s.interrupters[a], id) { assert InterrupterOk(s, a); }
  }

  lemma ScheduleUnpublished(s: State, e: nat, ok: bool, id: TimerId, i: nat)
    requires CanSchedule(s, e, id) && Unknown(s, id) && (i in s.adders ==> UnpublishedOk(s, i))
    requires i in StepSchedule(s, e, ok, id).adders
    ensures UnpublishedOk(StepSchedule(s, e, ok, id), i)
  {}

  lemma ScheduleInv(s: State, e: nat, ok: bool, id: TimerId)
    requires Inv(s) && CanSchedule(s, e, id)
    ensures Inv(StepSchedule(s, e, ok, id))
  {
    var s' := StepSchedule(s, e, ok, id);
    assert AdderOk(s, e);
    ClaimIsCurrent(s, e);
    NewTimerUnknown(s, id);
    forall i | i in s'.claims ensures ClaimOk(s', i) && EpisodeOk(s', i) {
      assert i in s.claims ==> ClaimOk(s, i) && EpisodeOk(s, i);
    }
    forall i | i in s'.adders ensures AdderOk(s', i) { assert i in s.adders ==> AdderOk(s, i); }
    forall i | i in s'.timers ensures TimerOk(s', i) { assert i in s.timers ==> TimerOk(s, i); }
    forall i | i in s'.interrupters ensures InterrupterOk(s', i) { assert InterrupterOk(s, i); }
    forall i | i in s'.adders ensures UnpublishedOk(s', i) {
      assert i in s.adders ==> UnpublishedOk(s, i);
      ScheduleUnpublished(s, e, ok, id, i);
    }
    forall i ensures QuietOk(s', i) { assert QuietOk(s, i); }
  }

  /** Two callbacks do not have the same timer, since timers know their episode. */
  lemma PublishUnpublished(s: State, e: nat, i: nat)
    requires CanPublish(s, e) && i in s.adders && UnpublishedOk(s, i) && AdderOk(s, e) && AdderOk(s, i)
    ensures UnpublishedOk(StepPublish(s, e), i)
  {
    if s.adders[i].Publishing? || s.adders[i].Unscheduling? {
      assert i != e ==> s.adders[i].id != s.adders[e].id;
    }
  }

  /** The callback of the present episode makes its timer known. */
  lemma PublishOwnQuiet(s: State, i: TimerId)
    requires CanPublish(s, s.ep) && UnpublishedOk(s, s.ep) && AdderOk(s, s.ep) && (s.overwritten ==> CallbackDone(s))
    ensures QuietOk(StepPublish(s, s.ep), i)
  {}

  /** That of an earlier one overwrites it, if it can store at all. */
  lemma PublishEarlierQuiet(s: State, e: nat, i: TimerId)
    requires CanPublish(s, e) && e != s.ep && QuietOk(s, i) && AdderOk(s, e)
    requires s.ep in s.claims ==> ClaimOk(s, s.ep)
    ensures QuietOk(StepPublish(s, e), i)
  {
    if Quiet(StepPublish(s, e), i) { assert Quiet(s, i); }
  }

  lemma PublishInv(s: State, e: nat)
    requires Inv(s) && CanPublish(s, e)
    ensures Inv(StepPublish(s, e))
  {
    var s' := StepPublish(s, e);
    assert AdderOk(s, e) && UnpublishedOk(s, e);
    assert EpisodeOk(s, e);
    assert s.ep in s.claims ==> ClaimOk(s, s.ep);
    forall i | i in s'.claims ensures ClaimOk(s', i) && EpisodeOk(s', i) {
      assert i in s.claims ==> ClaimOk(s, i) && EpisodeOk(s, i);
    }
    forall i | i in s'.adders ensures AdderOk(s', i) { assert i in s.adders ==> AdderOk(s, i); }
    forall i | i in s'.timers ensures TimerOk(s', i) { assert i in s.timers ==> TimerOk(s, i); }
    forall i | i in s'.interrupters ensures InterrupterOk(s', i) { assert InterrupterOk(s, i); }
    forall i | i in s'.adders ensures UnpublishedOk(s', i) {
      assert AdderOk(s, i) && UnpublishedOk(s, i);
      PublishUnpublished(s, e, i);
    }
    forall i ensures QuietOk(s', i) {
      assert QuietOk(s, i);
      if e == s.ep { PublishOwnQuiet(s, i); } else { PublishEarlierQuiet(s, e, i); }
    }
  }

  lemma AdderUnscheduleQuiet(s: State, e: nat, i: TimerId)
    requires CanAdderUnschedule(s, e) && QuietOk(s, i) && AdderOk(s, e)
    ensures QuietOk(StepAdderUnschedule(s, e), i)
  {}

  lemma AdderUnscheduleClaim(s: State, e: nat, i: nat)
    requires CanAdderUnschedule(s, e) && TimerOk(s, s.adders[e].id) && AdderOk(s, e)
    requires i in StepAdderUnschedule(s, e).claims && i in s.claims && ClaimOk(s, i) && EpisodeOk(s, i)
    ensures ClaimOk(StepAdderUnschedule(s, e), i) && EpisodeOk(StepAdderUnschedule(s, e), i)
  {}

  lemma AdderUnscheduleWinsInv(s: State, e: nat)
    requires Inv(s) && CanAdderUnschedule(s, e) && s.timers[s.adders[e].id].st.Pending?
    ensures Inv(StepAdderUnschedule(s, e))
  {
    var s' := StepAdderUnschedule(s, e);
    assert AdderOk(s, e) && TimerOk(s, s.adders[e].id);
    forall i | i in s'.claims ensures ClaimOk(s', i) && EpisodeOk(s', i) {
      assert i in s.claims ==> ClaimOk(s, i) && EpisodeOk(s, i);
      AdderUnscheduleClaim(s, e, i);
    }
    forall i | i in s'.adders ensures AdderOk(s', i) { assert i in s.adders ==> AdderOk(s, i); }
    forall i | i in s'.timers ensures TimerOk(s', i) { assert i in s.timers ==> TimerOk(s, i); }
    forall i | i in s'.interrupters ensures InterrupterOk(s', i) { assert InterrupterOk(s, i); }
    forall i | i in s'.adders ensures UnpublishedOk(s', i) { assert i in s.adders ==> UnpublishedOk(s, i); }
    forall i ensures QuietOk(s', i) {
      assert QuietOk(s, i);
      AdderUnscheduleQuiet(s, e, i);
    }
  }

  lemma AdderUnscheduleLateInv(s: State, e: nat)
    requires Inv(s) && CanAdderUnschedule(s, e) && !s.timers[s.adders[e].id].st.Pending?
    ensures Inv(StepAdderUnschedule(s, e))
  {
    var s' := StepAdderUnschedule(s, e);
    assert AdderOk(s, e) && TimerOk(s, s.adders[e].id);
    forall i | i in s'.claims ensures ClaimOk(s', i) && EpisodeOk(s', i) {
      assert i in s.claims ==> ClaimOk(s, i) && EpisodeOk(s, i);
      AdderUnscheduleClaim(s, e, i);
    }
    forall i | i in s'.adders ensures AdderOk(s', i) { assert i in s.adders ==> AdderOk(s, i); }
    forall i | i in s'.timers ensures TimerOk(s', i) { assert i in s.timers ==> TimerOk(s, i); }
    forall i | i in s'.interrupters ensures InterrupterOk(s', i) { assert InterrupterOk(s, i); }
    forall i | i in s'.adders ensures UnpublishedOk(s', i) { assert i in s.adders ==> UnpublishedOk(s, i); }
    forall i ensures QuietOk(s', i) {
      assert QuietOk(s, i);
      AdderUnscheduleQuiet(s, e, i);
    }
  }

  lemma AdderUnscheduleInv(s: State, e: nat)
    requires Inv(s) && CanAdderUnschedule(s, e)
    ensures Inv(StepAdderUnschedule(s, e))
  {
    if s.timers[s.adders[e].id].st.Pending? { AdderUnscheduleWinsInv(s, e); } else { AdderUnscheduleLateInv(s, e); }
  }

  lemma AdderResumeInv(s: State, e: nat)
    requires Inv(s) && CanAdderResume(s, e)
    ensures Inv(StepAdderResume(s, e))
  {
    var s' := StepAdderResume(s, e);
    assert AdderOk(s, e);
    ClaimIsCurrent(s, e);
    forall i | i in s'.claims ensures ClaimOk(s', i) && EpisodeOk(s', i) {
      assert i in s.claims ==> ClaimOk(s, i) && EpisodeOk(s, i);
    }
    forall i | i in s'.adders ensures AdderOk(s', i) { assert i in s.adders ==> AdderOk(s, i); }
    forall i | i in s'.timers ensures TimerOk(s', i) { assert i in s.timers ==> TimerOk(s, i); }
    forall i | i in s'.interrupters ensures InterrupterOk(s', i) { assert InterrupterOk(s, i); }
    forall i | i in s'.adders ensures UnpublishedOk(s', i) { assert i in s.adders ==> UnpublishedOk(s, i); }
    forall i ensures QuietOk(s', i) { assert QuietOk(s, i); }
  }

  lemma FireInv(s: State, id: TimerId)
    requires Inv(s) && CanFire(s, id)
    ensures Inv(StepFire(s, id))
  {
    var s' := StepFire(s, id);
    forall i | i in s'.claims ensures ClaimOk(s', i) && EpisodeOk(s', i) {
      assert i in s.claims ==> ClaimOk(s, i) && EpisodeOk(s, i);
    }
    forall i | i in s'.adders ensures AdderOk(s', i) { assert i in s.adders ==> AdderOk(s, i); }
    forall i | i in s'.timers ensures TimerOk(s', i) { assert i in s.timers ==> TimerOk(s, i); }
    forall i | i in s'.interrupters ensures InterrupterOk(s', i) { assert InterrupterOk(s, i); }
    forall i | i in s'.adders ensures UnpublishedOk(s', i) { assert i in s.adders ==> UnpublishedOk(s, i); }
    forall i ensures QuietOk(s', i) { assert QuietOk(s, i); }
  }

  lemma TimerResumeInv(s: State, id: TimerId)
    requires Inv(s) && CanTimerResume(s, id)
    ensures Inv(StepTimerResume(s, id))
  {
    var s' := StepTimerResume(s, id);
    assert TimerOk(s, id);
    ClaimIsCurrent(s, s.timers[id].ep);
    forall i | i in s'.claims ensures ClaimOk(s', i) && EpisodeOk(s', i) {
      assert i in s.claims ==> ClaimOk(s, i) && EpisodeOk(s, i);
    }
    forall i | i in s'.adders ensures AdderOk(s', i) { assert i in s.adders ==> AdderOk(s, i); }
    forall i | i in s'.timers ensures TimerOk(s', i) { assert i in s.timers ==> TimerOk(s, i); }
    forall i | i in s'.interrupters ensures InterrupterOk(s', i) { assert InterrupterOk(s, i); }
    forall i | i in s'.adders ensures UnpublishedOk(s', i) { assert i in s.adders ==> UnpublishedOk(s, i); }
    forall i ensures QuietOk(s', i) { assert QuietOk(s, i); }
  }

  lemma TakeUnpublished(s: State, a: Agent, i: nat)
    requires CanTake(s, a) && i in s.adders && UnpublishedOk(s, i)
    ensures UnpublishedOk(StepTake(s, a), i)
  {}

  lemma TakeQuiet(s: State, a: Agent, i: TimerId)
    requires CanTake(s, a) && QuietOk(s, i)
    ensures QuietOk(StepTake(s, a), i)
  {
    if Quiet(StepTake(s, a), i) { assert Quiet(s, i); }
  }

  lemma TakeInv(s: State, a: Agent)
    requires Inv(s) && CanTake(s, a)
    ensures Inv(StepTake(s, a))
  {
    var s' := StepTake(s, a);
    forall i | i in s'.claims ensures ClaimOk(s', i) && EpisodeOk(s', i) {
      assert i in s.claims ==> ClaimOk(s, i) && EpisodeOk(s, i);
    }
    forall i | i in s'.adders ensures AdderOk(s', i) { assert i in s.adders ==> AdderOk(s, i); }
    forall i | i in s'.timers ensures TimerOk(s', i) { assert i in s.timers ==> TimerOk(s, i); }
    forall i | i in s'.interrupters ensures InterrupterOk(s', i) { assert InterrupterOk(s, i); }
    forall i | i in s'.adders ensures UnpublishedOk(s', i) {
      assert UnpublishedOk(s, i);
      TakeUnpublished(s, a, i);
    }
    forall i ensures QuietOk(s', i) {
      assert QuietOk(s, i);
      TakeQuiet(s, a, i);
    }
  }

  lemma FlagInv(s: State, a: Agent)
    requires Inv(s) && CanFlag(s, a)
    ensures Inv(StepFlag(s, a))
  {
    var s' := StepFlag(s, a);
    assert InterrupterOk(s, a);
    forall i | i in s'.claims ensures ClaimOk(s', i) && EpisodeOk(s', i) {
      assert i in s.claims ==> ClaimOk(s, i) && EpisodeOk(s, i);
    }
    forall i | i in s'.adders ensures AdderOk(s', i) { assert i in s.adders ==> AdderOk(s, i); }
    forall i | i in s'.timers ensures TimerOk(s', i) { assert i in s.timers ==> TimerOk(s, i); }
    forall i | i in s'.interrupters ensures InterrupterOk(s', i) { assert InterrupterOk(s, i); }
    forall i | i in s'.adders ensures UnpublishedOk(s', i) { assert i in s.adders ==> UnpublishedOk(s, i); }
    forall i ensures QuietOk(s', i) { assert QuietOk(s, i); }
  }

  lemma UnscheduleQuiet(s: State, a: Agent, i: TimerId)
    requires CanUnschedule(s, a) && QuietOk(s, i) && TimerOk(s, s.interrupters[a].id)
    ensures QuietOk(StepUnschedule(s, a), i)
  {}

  lemma UnscheduleClaim(s: State, a: Agent, i: nat)
    requires CanUnschedule(s, a) && TimerOk(s, s.interrupters[a].id) && i in StepUnschedule(s, a).claims
    requires i in s.claims && ClaimOk(s, i) && EpisodeOk(s, i)
    ensures ClaimOk(StepUnschedule(s, a), i) && EpisodeOk(StepUnschedule(s, a), i)
  {}

  lemma UnscheduleWinsInv(s: State, a: Agent)
    requires Inv(s) && CanUnschedule(s, a) && s.timers[s.interrupters[a].id].st.Pending?
    ensures Inv(StepUnschedule(s, a))
  {
    var s' := StepUnschedule(s, a);
    assert TimerOk(s, s.interrupters[a].id);
    forall i | i in s'.claims ensures ClaimOk(s', i) && EpisodeOk(s', i) {
      assert i in s.claims ==> ClaimOk(s, i) && EpisodeOk(s, i);
      UnscheduleClaim(s, a, i);
    }
    forall i | i in s'.adders ensures AdderOk(s', i) { assert i in s.adders ==> AdderOk(s, i); }
    forall i | i in s'.timers ensures TimerOk(s', i) { assert i in s.timers ==> TimerOk(s, i); }
    forall i | i in s'.interrupters ensures InterrupterOk(s', i) { assert InterrupterOk(s, i); }
    forall i | i in s'.adders ensures UnpublishedOk(s', i) { assert i in s.adders ==> UnpublishedOk(s, i); }
    forall i ensures QuietOk(s', i) {
      assert QuietOk(s, i);
      UnscheduleQuiet(s, a, i);
    }
  }

  lemma UnscheduleLateInv(s: State, a: Agent)
    requires Inv(s) && CanUnschedule(s, a) && !s.timers[s.interrupters[a].id].st.Pending?
    ensures Inv(StepUnschedule(s, a))
  {
    var s' := StepUnschedule(s, a);
    assert TimerOk(s, s.interrupters[a].id);
    forall i | i in s'.claims ensures ClaimOk(s', i) && EpisodeOk(s', i) {
      assert i in s.claims ==> ClaimOk(s, i) && EpisodeOk(s, i);
      UnscheduleClaim(s, a, i);
    }
    forall i | i in s'.adders ensures AdderOk(s', i) { assert i in s.adders ==> AdderOk(s, i); }
    forall i | i in s'.timers ensures TimerOk(s', i) { assert i in s.timers ==> TimerOk(s, i); }
    forall i | i in s'.interrupters ensures InterrupterOk(s', i) { assert InterrupterOk(s, i); }
    forall i | i in s'.adders ensures UnpublishedOk(s', i) { assert i in s.adders ==> UnpublishedOk(s, i); }
    forall i ensures QuietOk(s', i) {
      assert QuietOk(s, i);
      UnscheduleQuiet(s, a, i);
    }
  }

  lemma UnscheduleInv(s: State, a: Agent)
    requires Inv(s) && CanUnschedule(s, a)
    ensures Inv(StepUnschedule(s, a))
  {
    if s.timers[s.interrupters[a].id].st.Pending? { UnscheduleWinsInv(s, a); } else { UnscheduleLateInv(s, a); }
  }

  lemma InterruptResumeInv(s: State, a: Agent)
    requires Inv(s) && CanInterruptResume(s, a)
    ensures Inv(StepInterruptResume(s, a))
  {
    var s' := StepInterruptResume(s, a);
    assert InterrupterOk(s, a);
    ClaimIsCurrent(s, s.interrupters[a].ep);
    forall i | i in s'.claims ensures ClaimOk(s', i) && EpisodeOk(s', i) {
      assert i in s.claims ==> ClaimOk(s, i) && EpisodeOk(s, i);
    }
    forall i | i in s'.adders ensures AdderOk(s', i) { assert i in s.adders ==> AdderOk(s, i); }
    forall i | i in s'.timers ensures TimerOk(s', i) { assert i in s.timers ==> TimerOk(s, i); }
    forall i | i in s'.interrupters ensures InterrupterOk(s', i) { assert InterrupterOk(s, i); }
    forall i | i in s'.adders ensures UnpublishedOk(s', i) { assert i in s.adders ==> UnpublishedOk(s, i); }
    forall i ensures QuietOk(s', i) { assert QuietOk(s, i); }
  }

  lemma SleeperInv(s: State, e: Event)
    requires Inv(s) && Enabled(s, e) && (e.Resume? || e.ClearSleep? || e.Check? || e.EndTask?)
    ensures Inv(Step(s, e))
  {
    var s' := Step(s, e);
    forall i | i in s'.claims ensures ClaimOk(s', i) && EpisodeOk(s', i) {
      assert ClaimOk(s, i) && EpisodeOk(s, i);
    }
    forall i | i in s'.adders ensures AdderOk(s', i) { assert AdderOk(s, i); }
    forall i | i in s'.timers ensures TimerOk(s', i) { assert TimerOk(s, i); }
    forall i | i in s'.interrupters ensures InterrupterOk(s', i) { assert InterrupterOk(s, i); }
    forall i | i in s'.adders ensures UnpublishedOk(s', i) { assert i in s.adders ==> UnpublishedOk(s, i); }
    forall i ensures QuietOk(s', i) { assert QuietOk(s, i); }
  }

  lemma StepInv(s: State, e: Event)
    requires Inv(s) && Enabled(s, e)
    ensures Inv(Step(s, e))
  {
    match e {
      case GoToSleep => GoToSleepInv(s);
      case Schedule(e, ok, id) => ScheduleInv(s, e, ok, id);
      case Publish(e) => PublishInv(s, e);
      case AdderUnschedule(e) => AdderUnscheduleInv(s, e);
      case AdderResume(e) => AdderResumeInv(s, e);
      case Fire(id) => FireInv(s, id);
      case TimerResume(id) => TimerResumeInv(s, id);
      case Take(a) => TakeInv(s, a);
      case Flag(a) => FlagInv(s, a);
      case Unschedule(a) => UnscheduleInv(s, a);
      case InterruptResume(a) => InterruptResumeInv(s, a);
      case _ => SleeperInv(s, e);
    }
  }
}
