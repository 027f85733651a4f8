/** Runs of the butex protocol in which a deadline or an interrupt goes unnoticed. */
module ButexScenes {
  import opened Wrappers
  import opened ButexModel
  import opened ButexInvariant
  import opened ButexTheorems

  /** One butex, one waiter, one task, one other thread. */
  function Scene(x: Butex, r: Waiter, task: Task, g: Agent): State {
    State(map[0 := x], map[0 := r], map[1 := task], map[0 := g], {})
  }

  lemma SceneSet(x: Butex, r: Waiter, task: Task, g: Agent, x2: Butex, r2: Waiter, task2: Task, g2: Agent)
    ensures SetButex(Scene(x, r, task, g), 0, x2) == Scene(x2, r, task, g)
    ensures SetWaiter(Scene(x, r, task, g), 0, r2) == Scene(x, r2, task, g)
    ensures SetTask(Scene(x, r, task, g), 1, task2) == Scene(x, r, task2, g)
    ensures SetAgent(Scene(x, r, task, g), 0, g2) == Scene(x, r, task, g2)
  {
    assert map[0 := x][0 := x2] == map[0 := x2];
    assert map[0 := r][0 := r2] == map[0 := r2];
    assert map[1 := task][1 := task2] == map[1 := task2];
    assert map[0 := g][0 := g2] == map[0 := g2];
  }

  /** Task 1 in its wait on butex 0 for value 0. */
  function Wait(timer: Timer, pc: Pc, early: bool, deaf: bool): Waiter {
    Waiter(Some(1), false, 0, 0, timer != NoTimer, None, timer != NoTimer, timer, Ready, pc, 0, Unclaimed, early, deaf,
           false)
  }

  function Free(): Butex {
    Butex(0, [], None)
  }

  function Held(): Butex {
    Butex(0, [], Some(0))
  }

  /** Thread 0 is idle, or has exchanged `current_waiter` too early and holds the version lock. */
  function Other(early: bool): Agent {
    if early then Flagging(1, None) else IDLE
  }

  function Holder(early: bool): Option<AgentId> {
    if early then Some(0) else None
  }

  function Unpublished(flagging: bool): Task {
    Task(None, false, Some(0), None, Holder(flagging))
  }

  function Published1(flagging: bool): Task {
    Task(Some(0), false, Some(0), None, Holder(flagging))
  }

  lemma Begun(timed: bool)
    ensures var timer := if timed then Armed else NoTimer;
            Reachable(Scene(Free(), Wait(timer, Preparing, false, false), Unpublished(false), IDLE))
  {
    var s := State(map[0 := Free()], map[], map[1 := Task(None, false, None, None, None)], map[0 := IDLE], {});
    var e := BeginBthread(0, 1, 0, 0, timed);
    assert Init(s) && Executable(s, []) && After(s, []) == s;
    ReachableStep(s, e);
    assert s.waiters[0 := Step(s, e).waiters[0]] == map[0 := Step(s, e).waiters[0]];
    assert s.tasks[1 := Step(s, e).tasks[1]] == map[1 := Step(s, e).tasks[1]];
  }

  lemma DoPublish(timer: Timer, early: bool, f: bool)
    requires Reachable(Scene(Free(), Wait(timer, Preparing, early, false), Unpublished(f), Other(f)))
    ensures Reachable(Scene(Free(), Wait(timer, Published, early, false), Published1(f), Other(f)))
  {
    var r, r2 := Wait(timer, Preparing, early, false), Wait(timer, Published, early, false);
    SceneSet(Free(), r, Unpublished(f), Other(f), Free(), r2, Published1(f), Other(f));
    SceneSet(Free(), r2, Unpublished(f), Other(f), Free(), r2, Published1(f), Other(f));
    ReachableStep(Scene(Free(), r, Unpublished(f), Other(f)), Publish(0));
  }

  lemma DoSwitch(timer: Timer, early: bool, f: bool)
    requires Reachable(Scene(Free(), Wait(timer, Published, early, false), Published1(f), Other(f)))
    ensures Reachable(Scene(Free(), Wait(timer, Suspended, early, false), Published1(f), Other(f)))
  {
    var r, r2 := Wait(timer, Published, early, false), Wait(timer, Suspended, early, false);
    SceneSet(Free(), r, Published1(f), Other(f), Free(), r2, Published1(f), Other(f));
    ReachableStep(Scene(Free(), r, Published1(f), Other(f)), SwitchAway(0));
  }

  lemma DoCheckValue(timer: Timer, early: bool, f: bool)
    requires Reachable(Scene(Free(), Wait(timer, Suspended, early, false), Published1(f), Other(f)))
    ensures Reachable(Scene(Held(), Wait(timer, CheckInterrupt, early, false), Published1(f), Other(f)))
  {
    var r, r2 := Wait(timer, Suspended, early, false), Wait(timer, CheckInterrupt, early, false);
    SceneSet(Free(), r, Published1(f), Other(f), Held(), r2, Published1(f), Other(f));
    SceneSet(Held(), r, Published1(f), Other(f), Held(), r2, Published1(f), Other(f));
    ReachableStep(Scene(Free(), r, Published1(f), Other(f)), CheckValue(0));
  }

  lemma DoCheckFlag(timer: Timer, early: bool, f: bool)
    requires Reachable(Scene(Held(), Wait(timer, CheckInterrupt, early, false), Published1(f), Other(f)))
    ensures Reachable(Scene(Held(), Wait(timer, Queueing, early, false), Published1(f), Other(f)))
  {
    var r, r2 := Wait(timer, CheckInterrupt, early, false), Wait(timer, Queueing, early, false);
    SceneSet(Held(), r, Published1(f), Other(f), Held(), r2, Published1(f), Other(f));
    ReachableStep(Scene(Held(), r, Published1(f), Other(f)), CheckFlag(0));
  }

  lemma WalkToQueueing(timer: Timer, early: bool, f: bool)
    requires Reachable(Scene(Free(), Wait(timer, Preparing, early, false), Unpublished(f), Other(f)))
    ensures Reachable(Scene(Held(), Wait(timer, Queueing, early, false), Published1(f), Other(f)))
  {
    DoPublish(timer, early, f);
    DoSwitch(timer, early, f);
    DoCheckValue(timer, early, f);
    DoCheckFlag(timer, early, f);
  }

  lemma DoEnqueue(timer: Timer, early: bool, deaf: bool, task: Task, g: Agent)
    requires Reachable(Scene(Held(), Wait(timer, Queueing, early, deaf), task, g))
    ensures Reachable(Scene(Butex(0, [0], None), Wait(timer, Parked, early, deaf).(container := Some(0)), task, g))
  {
    var s := Scene(Held(), Wait(timer, Queueing, early, deaf), task, g);
    var x2, r2 := Butex(0, [0], None), Wait(timer, Parked, early, deaf).(container := Some(0));
    SceneSet(Held(), Wait(timer, Queueing, early, deaf), task, g, x2, r2, task, g);
    SceneSet(x2, Wait(timer, Queueing, early, deaf), task, g, x2, r2, task, g);
    assert [] + [0] == [0];
    ReachableStep(s, Enqueue(0));
  }

  function Early(timer: Timer, early: bool): State {
    Scene(Free(), Wait(timer, Preparing, early, false), Unpublished(false), IDLE)
  }

  lemma EarlyStep(timer: Timer, early: bool, timer2: Timer, early2: bool, e: Event)
    requires Reachable(Early(timer, early)) && timer != NoTimer && timer2 != NoTimer
    requires Enabled(Early(timer, early), e)
    requires Step(Early(timer, early), e) == SetWaiter(Early(timer, early), 0, Wait(timer2, Preparing, early2, false))
    ensures Reachable(Early(timer2, early2))
  {
    SceneSet(Free(), Wait(timer, Preparing, early, false), Unpublished(false), IDLE,
             Free(), Wait(timer2, Preparing, early2, false), Unpublished(false), IDLE);
    ReachableStep(Early(timer, early), e);
  }

  lemma FireEarly()
    requires Reachable(Early(Armed, false))
    ensures Reachable(Early(Firing(LoadContainer), false))
  {
    EarlyStep(Armed, false, Firing(LoadContainer), false, TimerStart(0));
  }

  lemma LoadEarly()
    requires Reachable(Early(Firing(LoadContainer), false))
    ensures Reachable(Early(Firing(Finished), true))
  {
    EarlyStep(Firing(LoadContainer), false, Firing(Finished), true, TimerErase(0));
  }

  lemma ExpireEarly()
    requires Reachable(Early(Firing(Finished), true))
    ensures Reachable(Early(Expired, true))
  {
    EarlyStep(Firing(Finished), true, Expired, true, TimerEnd(0));
  }

  /** The timer callback runs to its end before the waiter is queued: the waiter is then queued with
      no deadline left. */
  lemma DeadlineCanBeMissed() returns (z: State)
    ensures Reachable(z) && Queued(z, 0, 0) && 0 in z.waiters && z.waiters[0].sleepId && z.waiters[0].timer == Expired
  {
    Begun(true);
    FireEarly();
    LoadEarly();
    ExpireEarly();
    WalkToQueueing(Expired, true, false);
    DoEnqueue(Expired, true, false, Published1(false), IDLE);
    z := Scene(Butex(0, [0], None), Wait(Expired, Parked, true, false).(container := Some(0)), Published1(false), IDLE);
  }

  // ---------- an interrupt between the flag check and the container store ----------

  function Taken(): Task {
    Task(None, true, Some(0), Some(0), None)
  }

  /** The interrupter has taken the waiter and not yet stored the flag. */
  function TakenUnflagged(): Task {
    Task(None, false, Some(0), Some(0), Some(0))
  }

  /** The interrupter is done. */
  function Flagged(): Task {
    Task(Some(0), true, Some(0), None, None)
  }

  lemma DoInterruptTake()
    requires Reachable(Scene(Held(), Wait(NoTimer, Queueing, false, false), Published1(false), IDLE))
    ensures Reachable(Scene(Held(), Wait(NoTimer, Queueing, false, false), TakenUnflagged(), Flagging(1, Some(0))))
  {
    var r := Wait(NoTimer, Queueing, false, false);
    var task, g := TakenUnflagged(), Flagging(1, Some(0));
    SceneSet(Held(), r, Published1(false), IDLE, Held(), r, task, g);
    SceneSet(Held(), r, Published1(false), g, Held(), r, task, g);
    ReachableStep(Scene(Held(), r, Published1(false), IDLE), InterruptTake(0, 1));
  }

  lemma DoInterruptFlag()
    requires Reachable(Scene(Held(), Wait(NoTimer, Queueing, false, false), TakenUnflagged(), Flagging(1, Some(0))))
    ensures Reachable(Scene(Held(), Wait(NoTimer, Queueing, false, false), Taken(), Erasing(1, 0, LoadContainer)))
  {
    var r := Wait(NoTimer, Queueing, false, false);
    var task, g := TakenUnflagged(), Flagging(1, Some(0));
    SceneSet(Held(), r, task, g, Held(), r, Taken(), g);
    SceneSet(Held(), r, Taken(), g, Held(), r, Taken(), Erasing(1, 0, LoadContainer));
    ReachableStep(Scene(Held(), r, task, g), InterruptFlag(0));
  }

  lemma DoInterruptLoad()
    requires Reachable(Scene(Held(), Wait(NoTimer, Queueing, false, false), Taken(), Erasing(1, 0, LoadContainer)))
    ensures Reachable(Scene(Held(), Wait(NoTimer, Queueing, false, true), Taken(), PuttingBack(1, 0)))
  {
    var r, r2 := Wait(NoTimer, Queueing, false, false), Wait(NoTimer, Queueing, false, true);
    var g, g2 := Erasing(1, 0, LoadContainer), PuttingBack(1, 0);
    SceneSet(Held(), r, Taken(), g, Held(), r2, Taken(), g2);
    SceneSet(Held(), r2, Taken(), g, Held(), r2, Taken(), g2);
    ReachableStep(Scene(Held(), r, Taken(), g), InterruptErase(0));
  }

  lemma DoPutBack()
    requires Reachable(Scene(Held(), Wait(NoTimer, Queueing, false, true), Taken(), PuttingBack(1, 0)))
    ensures Reachable(Scene(Held(), Wait(NoTimer, Queueing, false, true), Flagged(), IDLE))
  {
    var r, task2 := Wait(NoTimer, Queueing, false, true), Flagged();
    SceneSet(Held(), r, Taken(), PuttingBack(1, 0), Held(), r, task2, IDLE);
    SceneSet(Held(), r, task2, PuttingBack(1, 0), Held(), r, task2, IDLE);
    ReachableStep(Scene(Held(), r, Taken(), PuttingBack(1, 0)), PutBack(0));
  }

  /** The interrupter finds no container and puts the waiter back; the waiter, which has already looked
      at the flag, is queued all the same, and nobody is left to wake it. */
  lemma InterruptCanBeMissed() returns (z: State)
    ensures Reachable(z) && Queued(z, 0, 0) && 1 in z.tasks && z.tasks[1].interrupted
    ensures 0 in z.waiters && z.waiters[0].deaf && !z.waiters[0].late
    ensures forall a: AgentId :: a in z.agents ==> z.agents[a] == IDLE
  {
    Begun(false);
    WalkToQueueing(NoTimer, false, false);
    DoInterruptTake();
    DoInterruptFlag();
    DoInterruptLoad();
    DoPutBack();
    var task := Flagged();
    DoEnqueue(NoTimer, false, true, task, IDLE);
    z := Scene(Butex(0, [0], None), Wait(NoTimer, Parked, false, true).(container := Some(0)), task, IDLE);
  }

  // ---------- an interrupt that begins before the waiter is published ----------

  lemma DoTakeNobody()
    requires Reachable(Scene(Free(), Wait(NoTimer, Preparing, false, false), Unpublished(false), IDLE))
    ensures Reachable(Scene(Free(), Wait(NoTimer, Preparing, false, false), Unpublished(true), Flagging(1, None)))
  {
    var r := Wait(NoTimer, Preparing, false, false);
    SceneSet(Free(), r, Unpublished(false), IDLE, Free(), r, Unpublished(true), Flagging(1, None));
    SceneSet(Free(), r, Unpublished(false), Flagging(1, None), Free(), r, Unpublished(true), Flagging(1, None));
    ReachableStep(Scene(Free(), r, Unpublished(false), IDLE), InterruptTake(0, 1));
  }

  lemma DoFlagLate()
    requires var r := Wait(NoTimer, Parked, false, false).(container := Some(0));
             Reachable(Scene(Butex(0, [0], None), r, Published1(true), Flagging(1, None)))
    ensures var r := Wait(NoTimer, Parked, false, false).(container := Some(0), late := true);
            Reachable(Scene(Butex(0, [0], None), r, Flagged(), IDLE))
  {
    var x, r := Butex(0, [0], None), Wait(NoTimer, Parked, false, false).(container := Some(0));
    var r2, task2 := r.(late := true), Flagged();
    SceneSet(x, r, Published1(true), Flagging(1, None), x, r2, task2, IDLE);
    SceneSet(x, r2, Published1(true), Flagging(1, None), x, r2, task2, IDLE);
    SceneSet(x, r2, task2, Flagging(1, None), x, r2, task2, IDLE);
    ReachableStep(Scene(x, r, Published1(true), Flagging(1, None)), InterruptFlag(0));
  }

  /** The interrupter exchanges `current_waiter` before the waiter is published and stores the flag after
      the waiter has looked at it: it found nobody to erase, and nobody loaded a container early. */
  lemma InterruptCanComeTooEarly() returns (z: State)
    ensures Reachable(z) && Queued(z, 0, 0) && 1 in z.tasks && z.tasks[1].interrupted
    ensures 0 in z.waiters && !z.waiters[0].deaf && z.waiters[0].late
    ensures forall a: AgentId :: a in z.agents ==> z.agents[a] == IDLE
  {
    Begun(false);
    DoTakeNobody();
    WalkToQueueing(NoTimer, false, true);
    DoEnqueue(NoTimer, false, false, Published1(true), Flagging(1, None));
    DoFlagLate();
    z := Scene(Butex(0, [0], None), Wait(NoTimer, Parked, false, false).(container := Some(0), late := true),
               Flagged(), IDLE);
  }
}
