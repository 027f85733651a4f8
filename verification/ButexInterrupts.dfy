/** When interrupting a task that waits on a butex ends the wait. */
module ButexInterrupts {
  import opened Wrappers
  import opened ButexModel
  import opened ButexInvariant
  import opened ButexWaiting
  import opened ButexWaking
  import opened ButexTheorems

  /** An interrupter that has taken the waiter and is still to find it in a list. */
  predicate WillErase(g: Agent, w: WaiterId) {
    match g
    case Flagging(_, found) => found == Some(w)
    case Erasing(_, v, step) => v == w && step != MakeReady && step != Finished
    case _ => false
  }

  /** The interrupter that took the waiter of task `x` will erase it. */
  predicate TakerErases(s: State, x: Task, w: WaiterId) {
    x.taker.Some? && x.taker.value in s.agents && WillErase(s.agents[x.taker.value], w)
  }

  ghost predicate InterruptOk(s: State, t: TaskId)
    requires t in s.tasks
  {
    var x := s.tasks[t];
    x.active.Some? && x.active.value in s.waiters ==>
      var w, r := x.active.value, s.waiters[x.active.value];
      && (x.taker.Some? && !Leaving(r.pc) ==>
            x.interrupted || (x.taker.value in s.agents && s.agents[x.taker.value].Flagging?))
      && (x.interrupted && !r.deaf && !r.late && Committed(r) ==> TakerErases(s, x, w))
      && (TakerErases(s, x, w) ==> !r.deaf && !r.late)
  }

  /** `r2` gives an interrupter no more to do than `r`, and has the same history. */
  predicate Quieter(r: Waiter, r2: Waiter) {
    && (Committed(r2) ==> Committed(r)) && r2.deaf == r.deaf && r2.late == r.late
    && (Leaving(r.pc) ==> Leaving(r2.pc))
  }

  /** Steps in which neither the task nor its taker takes part. */
  lemma QuietStep(s: State, s': State, t: TaskId)
    requires t in s.tasks && TaskOk(s, t) && InterruptOk(s, t) && t in s'.tasks
    requires s'.tasks[t].active == s.tasks[t].active && s'.tasks[t].taker == s.tasks[t].taker
    requires s'.tasks[t].interrupted == s.tasks[t].interrupted
    requires s.tasks[t].active.Some? && s.tasks[t].active.value in s'.waiters ==>
               Quieter(s.waiters[s.tasks[t].active.value], s'.waiters[s.tasks[t].active.value])
    requires s.tasks[t].taker.Some? ==>
               var a := s.tasks[t].taker.value; a in s'.agents && s'.agents[a] == s.agents[a]
    ensures InterruptOk(s', t)
  {}

  lemma RecordQuieter(r: Waiter, e: Event)
    requires RecordStep(e) && RecordGuard(r, e) && PhaseOk(r)
    ensures Quieter(r, RecordAfter(r, e))
  {}

  lemma RecordQuiet(s: State, e: Event, t: TaskId)
    requires Inv(s) && t in s.tasks && InterruptOk(s, t)
    requires RecordStep(e) && e.w in s.waiters && RecordGuard(s.waiters[e.w], e)
    ensures InterruptOk(SetWaiter(s, e.w, RecordAfter(s.waiters[e.w], e)), t)
  {
    assert TaskOk(s, t);
    assert WaiterOk(s, e.w);
    RecordQuieter(s.waiters[e.w], e);
    QuietStep(s, SetWaiter(s, e.w, RecordAfter(s.waiters[e.w], e)), t);
  }

  lemma CheckValueQuiet(s: State, w: WaiterId, t: TaskId)
    requires Inv(s) && t in s.tasks && InterruptOk(s, t) && CanCheckValue(s, w)
    ensures InterruptOk(StepCheckValue(s, w), t)
  {
    assert TaskOk(s, t);
    assert WaiterOk(s, w);
    QuietStep(s, StepCheckValue(s, w), t);
  }

  lemma CheckFlagQuiet(s: State, w: WaiterId, t: TaskId)
    requires Inv(s) && t in s.tasks && InterruptOk(s, t) && CanCheckFlag(s, w)
    ensures InterruptOk(StepCheckFlag(s, w), t)
  {
    assert TaskOk(s, t);
    assert WaiterOk(s, w);
    if s.tasks[t].active != Some(w) || s.tasks[t].interrupted {
      QuietStep(s, StepCheckFlag(s, w), t);
    }
  }

  lemma EnqueueQuiet(s: State, w: WaiterId, t: TaskId)
    requires Inv(s) && t in s.tasks && InterruptOk(s, t) && CanEnqueue(s, w)
    ensures InterruptOk(StepEnqueue(s, w), t)
  {
    assert TaskOk(s, t);
    assert WaiterOk(s, w);
    QuietStep(s, StepEnqueue(s, w), t);
  }

  lemma EraseSelfFrame(s: State, w: WaiterId)
    requires CanEraseSelf(s, w)
    ensures var s' := StepEraseSelf(s, w);
            && s'.tasks == s.tasks && s'.agents == s.agents && w in s'.waiters
            && s'.waiters == s.waiters[w := s'.waiters[w]] && Quieter(s.waiters[w], s'.waiters[w])
  {}

  lemma EraseSelfQuiet(s: State, w: WaiterId, t: TaskId)
    requires Inv(s) && t in s.tasks && InterruptOk(s, t) && CanEraseSelf(s, w)
    ensures InterruptOk(StepEraseSelf(s, w), t)
  {
    assert TaskOk(s, t);
    assert WaiterOk(s, w);
    EraseSelfFrame(s, w);
    QuietStep(s, StepEraseSelf(s, w), t);
  }

  lemma TimerEraseFrame(s: State, w: WaiterId)
    requires CanTimerErase(s, w) && PhaseOk(s.waiters[w]) && TimerOk(s.waiters[w])
    ensures var s' := StepTimerErase(s, w);
            && s'.tasks == s.tasks && s'.agents == s.agents && w in s'.waiters
            && s'.waiters == s.waiters[w := s'.waiters[w]] && Quieter(s.waiters[w], s'.waiters[w])
  {}

  lemma TimerEraseQuiet(s: State, w: WaiterId, t: TaskId)
    requires Inv(s) && t in s.tasks && InterruptOk(s, t) && CanTimerErase(s, w)
    ensures InterruptOk(StepTimerErase(s, w), t)
  {
    assert TaskOk(s, t);
    assert WaiterOk(s, w);
    TimerEraseFrame(s, w);
    QuietStep(s, StepTimerErase(s, w), t);
  }

  lemma BeginQuiet(s: State, w: WaiterId, r: Waiter, t: TaskId)
    requires Inv(s) && t in s.tasks && InterruptOk(s, t) && BeginFrame(s, w, r)
    ensures InterruptOk(StepBegin(s, w, r), t)
  {
    assert TaskOk(s, t);
  }

  lemma PublishQuiet(s: State, w: WaiterId, t: TaskId)
    requires Inv(s) && t in s.tasks && InterruptOk(s, t) && CanPublish(s, w)
    ensures InterruptOk(StepPublish(s, w), t)
  {
    assert TaskOk(s, t);
    assert WaiterOk(s, w);
  }

  lemma DeclineQuiet(s: State, w: WaiterId, t: TaskId)
    requires Inv(s) && t in s.tasks && InterruptOk(s, t) && CanDecline(s, w)
    ensures InterruptOk(StepDecline(s, w), t)
  {
    assert TaskOk(s, t);
    assert WaiterOk(s, w);
  }

  lemma SpinTakeQuietAt(s: State, w: WaiterId, t: TaskId)
    requires t in s.tasks && TaskOk(s, t) && InterruptOk(s, t) && CanSpinTake(s, w) && WaiterOk(s, w)
    ensures InterruptOk(StepSpinTake(s, w), t)
  {}

  lemma SpinTakeQuiet(s: State, w: WaiterId, t: TaskId)
    requires Inv(s) && t in s.tasks && InterruptOk(s, t) && CanSpinTake(s, w)
    ensures InterruptOk(StepSpinTake(s, w), t)
  {
    assert TaskOk(s, t);
    assert WaiterOk(s, w);
    SpinTakeQuietAt(s, w, t);
  }

  lemma ClearFlagQuiet(s: State, w: WaiterId, t: TaskId)
    requires Inv(s) && t in s.tasks && InterruptOk(s, t) && CanClearFlag(s, w)
    ensures InterruptOk(StepClearFlag(s, w), t)
  {
    assert TaskOk(s, t);
    assert WaiterOk(s, w);
  }

  /** A waker is never the taker of a waiter, and taking waiters out commits nobody. */
  lemma TakeFromQuiet(s: State, a: AgentId, b: ButexId, out: seq<WaiterId>, rest: seq<WaiterId>, plan: seq<Op>,
                      t: TaskId)
    requires Inv(s) && t in s.tasks && InterruptOk(s, t) && b in s.butexes
    requires a in s.agents && (s.agents[a].Busy? || s.agents[a].Stored?)
    ensures InterruptOk(TakeFrom(s, a, b, out, rest, plan), t)
  {
    assert TaskOk(s, t);
    QuietStep(s, TakeFrom(s, a, b, out, rest, plan), t);
  }

  lemma MoveQuiet(s: State, b: ButexId, m: ButexId, q: seq<WaiterId>, t: TaskId)
    requires t in s.tasks && TaskOk(s, t) && InterruptOk(s, t) && b in s.butexes && m in s.butexes && b != m
    requires forall w {:trigger w in q} :: w in q ==> w in s.waiters && s.waiters[w].container == Some(b)
    ensures InterruptOk(MoveAll(s, b, m, q), t)
  {
    QuietStep(s, MoveAll(s, b, m, q), t);
  }

  lemma RequeueQuiet(s: State, a: AgentId, b: ButexId, m: ButexId, t: TaskId)
    requires Inv(s) && t in s.tasks && InterruptOk(s, t) && CanRequeue(s, a, b, m)
    ensures InterruptOk(StepRequeue(s, a, b, m), t)
  {
    var q := s.butexes[b].queue;
    if q != [] {
      var plan := OnePlan(q[0] in s.waiters && s.waiters[q[0]].pthread, q[0]);
      var s1 := TakeFrom(s, a, b, [q[0]], q[1..], plan);
      TakeFromQuiet(s, a, b, [q[0]], q[1..], plan, t);
      TakeFirstOk(s, a, b);
      TakeFromInv(s, a, b, [q[0]], q[1..], plan);
      assert TaskOk(s1, t);
      assert ButexOk(s1, b);
      MoveQuiet(s1, b, m, q[1..], t);
    }
  }

  lemma WorkQuiet(s: State, a: AgentId, t: TaskId)
    requires Inv(s) && t in s.tasks && InterruptOk(s, t) && CanWork(s, a)
    ensures InterruptOk(StepWork(s, a), t)
  {
    assert TaskOk(s, t);
    assert AgentOk(s, a);
    assert s.agents[a].todo[0] in s.agents[a].todo;
    assert WaiterOk(s, s.agents[a].todo[0].w);
    QuietStep(s, StepWork(s, a), t);
  }

  lemma StoreQuiet(s: State, a: AgentId, b: ButexId, v: int, t: TaskId)
    requires Inv(s) && t in s.tasks && InterruptOk(s, t) && CanStore(s, a, b)
    ensures InterruptOk(StepStore(s, a, b, v), t)
  {
    assert TaskOk(s, t);
    QuietStep(s, StepStore(s, a, b, v), t);
  }

  /** An idle agent takes the waiter of `u`. */
  lemma TakeQuietAt(s: State, a: AgentId, u: TaskId, t: TaskId)
    requires t in s.tasks && TaskOk(s, t) && InterruptOk(s, t) && CanInterruptTake(s, a, u)
    requires s.tasks[t].active.Some? ==> WaiterOk(s, s.tasks[t].active.value)
    requires u in s.tasks && TaskOk(s, u) && (s.tasks[u].current.Some? ==> WaiterOk(s, s.tasks[u].current.value))
    ensures InterruptOk(StepInterruptTake(s, a, u), t)
  {}

  lemma InterruptTakeQuiet(s: State, a: AgentId, u: TaskId, t: TaskId)
    requires Inv(s) && t in s.tasks && InterruptOk(s, t) && CanInterruptTake(s, a, u)
    ensures InterruptOk(StepInterruptTake(s, a, u), t)
  {
    assert TaskOk(s, t) && TaskOk(s, u);
    if s.tasks[t].active.Some? { assert WaiterOk(s, s.tasks[t].active.value); }
    if s.tasks[u].current.Some? { assert WaiterOk(s, s.tasks[u].current.value); }
    TakeQuietAt(s, a, u, t);
  }

  /** The flag of another task, whose wait is another waiter. */
  lemma FlagQuietElsewhere(s: State, a: AgentId, t: TaskId)
    requires CanInterruptFlag(s, a) && AgentOk(s, a) && s.agents[a].t != t && TaskOk(s, s.agents[a].t)
    requires t in s.tasks && TaskOk(s, t) && InterruptOk(s, t)
    ensures InterruptOk(StepInterruptFlag(s, a), t)
  {}

  /** The version lock keeps a second interrupter out between the exchange and the flag. */
  lemma FlagQuietHere(s: State, a: AgentId)
    requires CanInterruptFlag(s, a) && AgentOk(s, a) && TaskOk(s, s.agents[a].t) && InterruptOk(s, s.agents[a].t)
    requires s.tasks[s.agents[a].t].active.Some? ==> WaiterOk(s, s.tasks[s.agents[a].t].active.value)
    requires s.tasks[s.agents[a].t].taker.Some? ==> AgentOk(s, s.tasks[s.agents[a].t].taker.value)
    ensures InterruptOk(StepInterruptFlag(s, a), s.agents[a].t)
  {}

  lemma InterruptFlagQuiet(s: State, a: AgentId, t: TaskId)
    requires Inv(s) && t in s.tasks && InterruptOk(s, t) && CanInterruptFlag(s, a)
    ensures InterruptOk(StepInterruptFlag(s, a), t)
  {
    assert AgentOk(s, a);
    assert TaskOk(s, t) && TaskOk(s, s.agents[a].t);
    if s.agents[a].t != t {
      FlagQuietElsewhere(s, a, t);
    } else {
      if s.tasks[t].active.Some? { assert WaiterOk(s, s.tasks[t].active.value); }
      if s.tasks[t].taker.Some? { assert AgentOk(s, s.tasks[t].taker.value); }
      FlagQuietHere(s, a);
    }
  }

  /** An interrupter of another task. */
  lemma EraseQuietElsewhere(s: State, a: AgentId, t: TaskId)
    requires t in s.tasks && TaskOk(s, t) && InterruptOk(s, t) && CanInterruptErase(s, a)
    requires AgentOk(s, a) && s.agents[a].t != t
    ensures InterruptOk(StepInterruptErase(s, a), t)
  {
    QuietStep(s, StepInterruptErase(s, a), t);
  }

  lemma EraseQuietAt(s: State, a: AgentId, t: TaskId)
    requires t in s.tasks && TaskOk(s, t) && InterruptOk(s, t) && CanInterruptErase(s, a)
    requires AgentOk(s, a) && WaiterOk(s, s.agents[a].w) && s.agents[a].t == t
    ensures InterruptOk(StepInterruptErase(s, a), t)
  {}

  lemma InterruptEraseQuiet(s: State, a: AgentId, t: TaskId)
    requires Inv(s) && t in s.tasks && InterruptOk(s, t) && CanInterruptErase(s, a)
    ensures InterruptOk(StepInterruptErase(s, a), t)
  {
    assert TaskOk(s, t);
    assert AgentOk(s, a);
    assert WaiterOk(s, s.agents[a].w);
    if s.agents[a].t == t { EraseQuietAt(s, a, t); } else { EraseQuietElsewhere(s, a, t); }
  }

  lemma PutBackQuiet(s: State, a: AgentId, t: TaskId)
    requires Inv(s) && t in s.tasks && InterruptOk(s, t) && CanPutBack(s, a)
    ensures t in StepPutBack(s, a).tasks && InterruptOk(StepPutBack(s, a), t)
  {
    assert TaskOk(s, t);
    assert AgentOk(s, a);
  }

  lemma WakeQuiet(s: State, a: AgentId, b: ButexId, t: TaskId)
    requires Inv(s) && t in s.tasks && InterruptOk(s, t) && CanWake(s, a, b)
    ensures InterruptOk(StepWake(s, a, b), t)
  {
    var q := s.butexes[b].queue;
    if q != [] {
      TakeFromQuiet(s, a, b, [q[0]], q[1..], OnePlan(q[0] in s.waiters && s.waiters[q[0]].pthread, q[0]), t);
    }
  }

  lemma WakeAllQuiet(s: State, a: AgentId, b: ButexId, t: TaskId)
    requires Inv(s) && t in s.tasks && InterruptOk(s, t) && CanWakeAll(s, a, b)
    ensures InterruptOk(StepWakeAll(s, a, b), t)
  {
    var q := s.butexes[b].queue;
    TakeFromQuiet(s, a, b, q, [], AllPlan(Pthreads(s.waiters, q), Bthreads(s.waiters, q)), t);
  }

  lemma WakeExceptQuiet(s: State, a: AgentId, b: ButexId, x: TaskId, t: TaskId)
    requires Inv(s) && t in s.tasks && InterruptOk(s, t) && CanWake(s, a, b)
    ensures InterruptOk(StepWakeExcept(s, a, b, x), t)
  {
    var q := s.butexes[b].queue;
    var out := Dropped(s.waiters, q, x);
    TakeFromQuiet(s, a, b, out, Kept(s.waiters, q, x),
                  ExceptPlan(Pthreads(s.waiters, out), Bthreads(s.waiters, out)), t);
  }

  lemma EnteringStep(s: State, e: Event, t: TaskId)
    requires Inv(s) && t in s.tasks && InterruptOk(s, t) && Enabled(s, e)
    requires e.BeginBthread? || e.BeginPthread? || e.Publish? || e.CheckValue? || e.CheckFlag? || e.Decline?
    ensures t in Step(s, e).tasks && InterruptOk(Step(s, e), t)
  {
    match e {
      case BeginBthread(w, u, b, expected, timed) =>
        BeginQuiet(s, w, FreshWaiter(Some(u), false, b, expected, timed), t);
      case BeginPthread(w, task, b, expected, timed) =>
        BeginQuiet(s, w, FreshWaiter(task, true, b, expected, timed), t);
      case Publish(w) => PublishQuiet(s, w, t);
      case CheckValue(w) => CheckValueQuiet(s, w, t);
      case CheckFlag(w) => CheckFlagQuiet(s, w, t);
      case Decline(w) => DeclineQuiet(s, w, t);
    }
  }

  lemma LeavingStep(s: State, e: Event, t: TaskId)
    requires Inv(s) && t in s.tasks && InterruptOk(s, t) && Enabled(s, e)
    requires e.Enqueue? || e.EraseSelf? || e.TimerErase? || e.SpinTake? || e.ClearFlag?
    ensures t in Step(s, e).tasks && InterruptOk(Step(s, e), t)
  {
    match e {
      case Enqueue(w) => EnqueueQuiet(s, w, t);
      case EraseSelf(w) => EraseSelfQuiet(s, w, t);
      case TimerErase(w) => TimerEraseQuiet(s, w, t);
      case SpinTake(w) => SpinTakeQuiet(s, w, t);
      case ClearFlag(w) => ClearFlagQuiet(s, w, t);
    }
  }

  lemma WakingStep(s: State, e: Event, t: TaskId)
    requires Inv(s) && t in s.tasks && InterruptOk(s, t) && Enabled(s, e)
    requires e.Wake? || e.WakeAll? || e.WakeExcept? || e.Requeue? || e.Work? || e.Store?
    ensures t in Step(s, e).tasks && InterruptOk(Step(s, e), t)
  {
    match e {
      case Wake(a, b) => WakeQuiet(s, a, b, t);
      case WakeAll(a, b) => WakeAllQuiet(s, a, b, t);
      case WakeExcept(a, b, x) => WakeExceptQuiet(s, a, b, x, t);
      case Requeue(a, b, m) => RequeueQuiet(s, a, b, m, t);
      case Work(a) => WorkQuiet(s, a, t);
      case Store(a, b, v) => StoreQuiet(s, a, b, v, t);
    }
  }

  lemma InterruptingStep(s: State, e: Event, t: TaskId)
    requires Inv(s) && t in s.tasks && InterruptOk(s, t) && Enabled(s, e)
    requires e.InterruptTake? || e.InterruptFlag? || e.InterruptErase? || e.PutBack?
    ensures t in Step(s, e).tasks && InterruptOk(Step(s, e), t)
  {
    match e {
      case InterruptTake(a, u) => InterruptTakeQuiet(s, a, u, t);
      case InterruptFlag(a) => InterruptFlagQuiet(s, a, t);
      case InterruptErase(a) => InterruptEraseQuiet(s, a, t);
      case PutBack(a) => PutBackQuiet(s, a, t);
    }
  }

  lemma InterruptStep(s: State, e: Event, t: TaskId)
    requires Inv(s) && t in s.tasks && InterruptOk(s, t) && Enabled(s, e)
    ensures t in Step(s, e).tasks && InterruptOk(Step(s, e), t)
  {
    if RecordStep(e) { RecordQuiet(s, e, t); }
    else if e.Enqueue? || e.EraseSelf? || e.TimerErase? || e.SpinTake? || e.ClearFlag? { LeavingStep(s, e, t); }
    else if e.Wake? || e.WakeAll? || e.WakeExcept? || e.Requeue? || e.Work? || e.Store? { WakingStep(s, e, t); }
    else if e.InterruptTake? || e.InterruptFlag? || e.InterruptErase? || e.PutBack? { InterruptingStep(s, e, t); }
    else { EnteringStep(s, e, t); }
  }

  lemma {:induction false} RunInterruptOk(s: State, es: seq<Event>, t: TaskId)
    requires Inv(s) && t in s.tasks && InterruptOk(s, t) && Executable(s, es)
    ensures t in After(s, es).tasks && InterruptOk(After(s, es), t)
    decreases |es|
  {
    if es != [] {
      StepInv(s, es[0]);
      InterruptStep(s, es[0], t);
      RunInterruptOk(Step(s, es[0]), es[1..], t);
    }
  }

  /** A task whose wait is queued while its interrupted flag is set is about to be erased by an
      interrupter, except exactly when the last interrupter that had the waiter loaded the container
      between the waiter's flag check and its container store, or when one that had found no waiter
      stored the flag after that check. */
  lemma InterruptReachesWaiterIff(z: State, b: ButexId, w: WaiterId, t: TaskId)
    requires Reachable(z) && Queued(z, b, w) && w in z.waiters && z.waiters[w].task == Some(t)
    requires t in z.tasks && z.tasks[t].interrupted
    ensures (exists a: AgentId :: a in z.agents && WillErase(z.agents[a], w)) <==>
            !z.waiters[w].deaf && !z.waiters[w].late
  {
    var s, es :| Init(s) && Executable(s, es) && After(s, es) == z;
    InitInv(s);
    TasksKept(s, es);
    RunInterruptOk(s, es, t);
    ReachableInv(z);
    OneList(z, w);
    assert WaiterOk(z, w);
    assert TaskOk(z, t);
    if a: AgentId :| a in z.agents && WillErase(z.agents[a], w) {
      assert AgentOk(z, a);
      assert TakerErases(z, z.tasks[t], w);
    }
  }

  lemma {:induction false} TasksKept(s: State, es: seq<Event>)
    requires Inv(s) && Executable(s, es)
    ensures After(s, es).tasks.Keys == s.tasks.Keys
    decreases |es|
  {
    if es != [] {
      StepInv(s, es[0]);
      TasksKept(Step(s, es[0]), es[1..]);
      StepTasks(s, es[0]);
    }
  }

  lemma InterrupterTasks(s: State, e: Event)
    requires Inv(s) && Enabled(s, e) && (e.InterruptTake? || e.InterruptFlag? || e.InterruptErase? || e.PutBack?)
    ensures Step(s, e).tasks.Keys == s.tasks.Keys
  {
    if e.PutBack? || e.InterruptFlag? { assert AgentOk(s, e.a); }
  }

  lemma StepTasks(s: State, e: Event)
    requires Inv(s) && Enabled(s, e)
    ensures Step(s, e).tasks.Keys == s.tasks.Keys
  {
    if e.InterruptTake? || e.InterruptFlag? || e.InterruptErase? || e.PutBack? {
      InterrupterTasks(s, e);
    } else {
      OtherTasks(s, e);
    }
  }

  lemma OtherTasks(s: State, e: Event)
    requires Enabled(s, e) && !(e.InterruptTake? || e.InterruptFlag? || e.InterruptErase? || e.PutBack?)
    ensures Step(s, e).tasks.Keys == s.tasks.Keys
  {}
}
