/** What the shared words of the butex protocol hold, the value stored last and pending interruptions, and what
    a wait returns. */
module ButexHistory {
  import opened Wrappers
  import opened ButexModel
  import opened ButexInvariant
  import opened ButexTheorems
  import opened ButexReasons

  // ---------- the value ----------

  /** The value of butex `b` after a run: the last one stored, if any was. */
  function LastStored(es: seq<Event>, b: ButexId, value: int): int {
    if es == [] then value
    else LastStored(es[1..], b, if es[0].Store? && es[0].b == b then es[0].v else value)
  }

  lemma ListsKeepValue(s: State, e: Event, b: ButexId)
    requires Enabled(s, e) && b in s.butexes
    requires Takes(e) || e.CheckValue? || e.CheckFlag? || e.Enqueue?
    ensures b in Step(s, e).butexes && Step(s, e).butexes[b].value == s.butexes[b].value
  {}

  lemma ErasersKeepValue(s: State, e: Event, b: ButexId)
    requires Enabled(s, e) && b in s.butexes && (e.EraseSelf? || e.TimerErase? || e.InterruptErase?)
    ensures b in Step(s, e).butexes && Step(s, e).butexes[b].value == s.butexes[b].value
  {}

  lemma StepValue(s: State, e: Event, b: ButexId)
    requires Enabled(s, e) && b in s.butexes
    ensures b in Step(s, e).butexes
    ensures Step(s, e).butexes[b].value == if e.Store? && e.b == b then e.v else s.butexes[b].value
  {
    if Takes(e) || e.CheckValue? || e.CheckFlag? || e.Enqueue? { ListsKeepValue(s, e, b); }
    else if e.EraseSelf? || e.TimerErase? || e.InterruptErase? { ErasersKeepValue(s, e, b); }
  }

  /** So a waiter is compared with the value that was stored last. */
  lemma {:induction false} ValueIsLastStored(s: State, es: seq<Event>, b: ButexId)
    requires Executable(s, es) && b in s.butexes
    ensures b in After(s, es).butexes && After(s, es).butexes[b].value == LastStored(es, b, s.butexes[b].value)
    decreases |es|
  {
    if es != [] {
      StepValue(s, es[0], b);
      ValueIsLastStored(Step(s, es[0]), es[1..], b);
    }
  }

  // ---------- the interrupted flag ----------

  /** Event `e` stores the flag of task `t`. */
  predicate SetsFlag(s: State, e: Event, t: TaskId) {
    e.InterruptFlag? && e.a in s.agents && s.agents[e.a].Flagging? && s.agents[e.a].t == t
  }

  /** A wait of task `t` consumes an interruption: a pthread that saw the flag, or any wait at its end. */
  predicate ClearsFlag(s: State, e: Event, t: TaskId) {
    (e.Decline? || e.ClearFlag?) && e.w in s.waiters && s.waiters[e.w].task == Some(t)
  }

  /** Whether task `t` has an interruption pending after a run, if it was `pending` before. */
  function PendingAfter(s: State, es: seq<Event>, t: TaskId, pending: bool): bool
    requires Executable(s, es)
    decreases |es|
  {
    if es == [] then pending
    else
      PendingAfter(Step(s, es[0]), es[1..], t,
                   if SetsFlag(s, es[0], t) then true else if ClearsFlag(s, es[0], t) then false else pending)
  }

  predicate OfWaiter(e: Event) {
    e.BeginBthread? || e.BeginPthread? || e.Publish? || e.Decline? || e.SpinTake? || e.ClearFlag?
  }

  predicate OfInterrupter(e: Event) {
    e.Store? || e.InterruptTake? || e.InterruptFlag? || e.PutBack?
  }

  lemma WaitersKeepFlag(s: State, e: Event, t: TaskId)
    requires Enabled(s, e) && t in s.tasks && OfWaiter(e)
    ensures t in Step(s, e).tasks
    ensures Step(s, e).tasks[t].interrupted == (!ClearsFlag(s, e, t) && s.tasks[t].interrupted)
  {}

  lemma InterruptersKeepFlag(s: State, e: Event, t: TaskId)
    requires Enabled(s, e) && t in s.tasks && OfInterrupter(e)
    ensures t in Step(s, e).tasks
    ensures Step(s, e).tasks[t].interrupted == (SetsFlag(s, e, t) || s.tasks[t].interrupted)
  {}

  lemma TakersKeepTasks(s: State, e: Event)
    requires Enabled(s, e) && Takes(e)
    ensures Step(s, e).tasks == s.tasks
  {
    match e {
      case Wake(a, b) => assert StepWake(s, a, b).tasks == s.tasks;
      case WakeAll(a, b) => assert StepWakeAll(s, a, b).tasks == s.tasks;
      case WakeExcept(a, b, x) => assert StepWakeExcept(s, a, b, x).tasks == s.tasks;
      case Requeue(a, b, m) => assert StepRequeue(s, a, b, m).tasks == s.tasks;
    }
  }

  lemma ChecksKeepTasks(s: State, e: Event)
    requires Enabled(s, e) && (e.CheckValue? || e.CheckFlag? || e.Enqueue? || e.Work?)
    ensures Step(s, e).tasks == s.tasks
  {
    match e {
      case CheckValue(w) => assert StepCheckValue(s, w).tasks == s.tasks;
      case CheckFlag(w) => assert StepCheckFlag(s, w).tasks == s.tasks;
      case Enqueue(w) => assert StepEnqueue(s, w).tasks == s.tasks;
      case Work(a) => assert StepWork(s, a).tasks == s.tasks;
    }
  }

  lemma ErasersKeepTasks(s: State, e: Event)
    requires Enabled(s, e) && (e.EraseSelf? || e.TimerErase? || e.InterruptErase?)
    ensures Step(s, e).tasks == s.tasks
  {
    match e {
      case EraseSelf(w) => assert StepEraseSelf(s, w).tasks == s.tasks;
      case TimerErase(w) => assert StepTimerErase(s, w).tasks == s.tasks;
      case InterruptErase(a) => assert StepInterruptErase(s, a).tasks == s.tasks;
    }
  }

  lemma OthersKeepTasks(s: State, e: Event)
    requires Enabled(s, e) && !OfWaiter(e) && !OfInterrupter(e)
    ensures Step(s, e).tasks == s.tasks
  {
    if Takes(e) { TakersKeepTasks(s, e); }
    else if e.CheckValue? || e.CheckFlag? || e.Enqueue? || e.Work? { ChecksKeepTasks(s, e); }
    else if e.EraseSelf? || e.TimerErase? || e.InterruptErase? { ErasersKeepTasks(s, e); }
  }

  lemma FlagStep(s: State, e: Event, t: TaskId)
    requires Enabled(s, e) && t in s.tasks
    ensures t in Step(s, e).tasks
    ensures Step(s, e).tasks[t].interrupted ==
            if SetsFlag(s, e, t) then true else if ClearsFlag(s, e, t) then false else s.tasks[t].interrupted
  {
    if OfWaiter(e) { WaitersKeepFlag(s, e, t); }
    else if OfInterrupter(e) { InterruptersKeepFlag(s, e, t); }
    else { OthersKeepTasks(s, e); }
  }

  /** In every run an interruption is remembered, whether the task waits or not, until a wait consumes it, and
      is then gone. */
  lemma {:induction false} FlagIsPending(s: State, es: seq<Event>, t: TaskId)
    requires Executable(s, es) && t in s.tasks
    ensures t in After(s, es).tasks
    ensures After(s, es).tasks[t].interrupted == PendingAfter(s, es, t, s.tasks[t].interrupted)
    decreases |es|
  {
    if es != [] {
      FlagStep(s, es[0], t);
      FlagIsPending(Step(s, es[0]), es[1..], t);
    }
  }

  // ---------- what a wait returns ----------

  datatype Answer = Ok | TimedOutAnswer | WouldBlock | Interrupt

  /** The end of butex_wait: what a bthread finds in its waiter, and then the flag, which it clears. */
  function AnswerOf(r: Waiter, interrupted: bool): Answer {
    if r.wstate == TimedOut then TimedOutAnswer
    else if r.wstate == Unmatched then WouldBlock
    else if interrupted then Interrupt
    else Ok
  }

  lemma AnswerFits(r: Waiter, xs: seq<Reason>, interrupted: bool)
    requires Consistent(r) && Fits(r, xs) && r.pc == Clearing && !r.pthread
    ensures |xs| == 1
    ensures AnswerOf(r, interrupted) ==
            if xs == [DeadlinePassed] then TimedOutAnswer
            else if xs == [SawOtherValue] then WouldBlock
            else if interrupted then Interrupt else Ok
  {
    assert xs == [xs[0]];
  }

  /** In every run butex_wait returns ETIMEDOUT to a bthread exactly if its deadline ended the wait, EWOULDBLOCK
      exactly if it found another value, and otherwise EINTR exactly if an interruption is pending. */
  lemma AnswerIsReason(s: State, es: seq<Event>, w: WaiterId)
    requires Init(s) && Executable(s, es) && Enabled(After(s, es), ClearFlag(w))
    requires var r := After(s, es).waiters[w]; !r.pthread && r.task.Some? && r.task.value in s.tasks
    ensures var r, xs := After(s, es).waiters[w], Reasons(s, es, w);
            var pending := PendingAfter(s, es, r.task.value, s.tasks[r.task.value].interrupted);
            && r.task.value in After(s, es).tasks
            && AnswerOf(r, After(s, es).tasks[r.task.value].interrupted) ==
               if xs == [DeadlinePassed] then TimedOutAnswer
               else if xs == [SawOtherValue] then WouldBlock
               else if pending then Interrupt else Ok
  {
    var r := After(s, es).waiters[w];
    RunFromInit(s, es, w);
    FlagIsPending(s, es, r.task.value);
    AnswerFits(r, Reasons(s, es, w), After(s, es).tasks[r.task.value].interrupted);
  }
}
