/** The butex protocol as a state machine: wait, the three wakes, requeue, timers and interrupters.

    One transition is one atomic access of the source, or one region under `waiter_lock` whose
    intermediate states no other access can see. Where another thread accesses a field without the lock
    the region is split, and the lock stays held between its steps: erasing loads `container` without
    `waiter_lock`, and waiters publish themselves and read the interrupted flag without `version_lock`. */
module ButexModel {
  import opened Wrappers

  type ButexId = nat
  type WaiterId = nat
  type TaskId = nat
  type AgentId = nat

  /** ButexBthreadWaiter::waiter_state. */
  datatype WaiterState = Ready | Unmatched | TimedOut | Interrupted

  /** Where a call of erase_from_butex stands. */
  datatype EraseStep =
    | LoadContainer
    | LockList(b: ButexId)
    | MakeReady
    | Finished

  /** The TimerThread task of a waiter with a deadline. */
  datatype Timer = NoTimer | Armed | Firing(step: EraseStep) | Expired | Cancelled

  /** History: who took the waiter out of its list and so owes it a wake-up. */
  datatype Claim =
    | Unclaimed
    | ByCallback
    | ByWaker(a: AgentId)
    | ByTimer
    | ByInterrupter(a: AgentId)
    | ByItself
    | Woken

  /** The waiting thread. `Suspended` to `Rescheduling` run in wait_for_butex on another stack. */
  datatype Pc =
    | Preparing
    | Published
    | Suspended
    | CheckInterrupt
    | Queueing
    | Unqueued
    | Rescheduling
    | Parked
    | SelfErase(step: EraseStep)
    | Recheck
    | Runnable
    | Unsleeping
    | Declined
    | Taking
    | Clearing
    | Returned

  /** Not yet in the list: the container is still NULL. */
  predicate BeforeQueue(pc: Pc) {
    pc == Preparing || pc == Published || pc == Suspended || pc == CheckInterrupt || pc == Queueing
  }

  /** An on-stack ButexBthreadWaiter or ButexPthreadWaiter; `readied` counts pushes of its tid to
      a run queue, or stores to its `sig`; `timed` tells whether it has a deadline. `early`, `deaf` and
      `late` are history: the timer callback loaded the container before the waiter was queued; the last
      interrupter that had the waiter did so after the waiter had looked at the interrupted flag; an
      interrupter that came before the waiter was published stored the flag after the waiter had looked at
      it. */
  datatype Waiter = Waiter(
    task: Option<TaskId>,
    pthread: bool,
    expected: int,
    target: ButexId,
    timed: bool,
    container: Option<ButexId>,
    sleepId: bool,
    timer: Timer,
    wstate: WaiterState,
    pc: Pc,
    readied: nat,
    claim: Claim,
    early: bool,
    deaf: bool,
    late: bool)

  /** What a waker still has to do to the waiters it took out. */
  datatype Op = Unsleep(w: WaiterId) | Rouse(w: WaiterId)

  /** A thread calling the wake, requeue and interrupt functions, or changing a butex value. `Flagging`
      has exchanged `current_waiter` under the version lock and is still to store the flag. */
  datatype Agent =
    | Busy(todo: seq<Op>)
    | Stored(b: ButexId)
    | Flagging(t: TaskId, found: Option<WaiterId>)
    | Erasing(t: TaskId, w: WaiterId, step: EraseStep)
    | PuttingBack(t: TaskId, w: WaiterId)

  const IDLE := Busy([])

  datatype Butex = Butex(value: int, queue: seq<WaiterId>, holder: Option<WaiterId>)

  /** The parts of TaskMeta used here; `lock` is the holder of `version_lock`. `active` and `taker` are
      history: the wait the task is in, and the interrupter that took `current`. */
  datatype Task = Task(
    current: Option<WaiterId>,
    interrupted: bool,
    active: Option<WaiterId>,
    taker: Option<AgentId>,
    lock: Option<AgentId>)

  /** `disciplined` butexes are changed only by a store followed by wake_all and are never a
      requeue target. */
  datatype State = State(
    butexes: map<ButexId, Butex>,
    waiters: map<WaiterId, Waiter>,
    tasks: map<TaskId, Task>,
    agents: map<AgentId, Agent>,
    disciplined: set<ButexId>)

  datatype Event =
    | BeginBthread(w: WaiterId, t: TaskId, b: ButexId, expected: int, timed: bool)
    | BeginPthread(w: WaiterId, task: Option<TaskId>, b: ButexId, expected: int, timed: bool)
    | Publish(w: WaiterId)
    | SwitchAway(w: WaiterId)
    | CheckValue(w: WaiterId)
    | CheckFlag(w: WaiterId)
    | Decline(w: WaiterId)
    | Enqueue(w: WaiterId)
    | CallbackUnsleep(w: WaiterId)
    | CallbackReady(w: WaiterId)
    | SeeSignal(w: WaiterId)
    | Timeout(w: WaiterId)
    | EraseSelf(w: WaiterId)
    | RecheckSignal(w: WaiterId)
    | TimerStart(w: WaiterId)
    | TimerErase(w: WaiterId)
    | TimerEnd(w: WaiterId)
    | Resume(w: WaiterId)
    | SpinUnsleep(w: WaiterId)
    | SpinTake(w: WaiterId)
    | ClearFlag(w: WaiterId)
    | Wake(a: AgentId, b: ButexId)
    | WakeAll(a: AgentId, b: ButexId)
    | WakeExcept(a: AgentId, b: ButexId, excluded: TaskId)
    | Requeue(a: AgentId, b: ButexId, m: ButexId)
    | Work(a: AgentId)
    | Store(a: AgentId, b: ButexId, v: int)
    | InterruptTake(a: AgentId, t: TaskId)
    | InterruptFlag(a: AgentId)
    | InterruptErase(a: AgentId)
    | PutBack(a: AgentId)

  // ---------- record updates ----------

  function SetWaiter(s: State, w: WaiterId, r: Waiter): State {
    s.(waiters := s.waiters[w := r])
  }

  function SetButex(s: State, b: ButexId, x: Butex): State {
    s.(butexes := s.butexes[b := x])
  }

  function SetTask(s: State, t: TaskId, x: Task): State {
    s.(tasks := s.tasks[t := x])
  }

  function SetAgent(s: State, a: AgentId, x: Agent): State {
    s.(agents := s.agents[a := x])
  }

  /** The waiter's tid is pushed to a run queue, or its signal is stored. */
  function Roused(r: Waiter): Waiter {
    r.(readied := r.readied + 1, claim := Woken, pc := if r.pthread then r.pc else Runnable)
  }

  /** unsleep_if_necessary: TimerThread::unschedule removes a pending task, reports a running one
      by a positive result, and finds nothing otherwise. */
  function Unslept(r: Waiter): Waiter {
    if !r.sleepId || r.timer.Firing? then r
    else r.(sleepId := false, timer := if r.timer.Armed? then Cancelled else r.timer)
  }

  function Without(q: seq<WaiterId>, w: WaiterId): seq<WaiterId> {
    if q == [] then [] else if q[0] == w then q[1..] else [q[0]] + Without(q[1..], w)
  }

  /** The history an erase leaves behind when it finds the container NULL. */
  function Missed(r: Waiter, who: Claim): Waiter {
    r.(early := r.early || (who.ByTimer? && BeforeQueue(r.pc)),
       deaf := r.deaf || (who.ByInterrupter? && r.pc == Queueing))
  }

  /** Where erase_from_butex goes next. */
  function NextStep(r: Waiter, step: EraseStep): EraseStep {
    match step
    case LoadContainer => if r.container.Some? then LockList(r.container.value) else Finished
    case LockList(b) => if r.container == Some(b) then MakeReady else LoadContainer
    case MakeReady => Finished
    case Finished => Finished
  }

  /** The waiter after one step of erase_from_butex on behalf of `who`. */
  function ErasedRecord(r: Waiter, step: EraseStep, who: Claim, state: WaiterState): Waiter {
    match step
    case LoadContainer => if r.container == None then Missed(r, who) else r
    case LockList(b) =>
      if r.container == Some(b) then
        r.(container := None, claim := who, wstate := if r.pthread then r.wstate else state)
      else r
    case MakeReady => Roused(r)
    case Finished => r
  }

  predicate Unlinks(r: Waiter, step: EraseStep) {
    step.LockList? && r.container == Some(step.b)
  }

  /** One step of erase_from_butex turns the record of `w` into `r2`, and unlinks it if the container
      still names the locked list. */
  function ApplyErase(s: State, w: WaiterId, step: EraseStep, r2: Waiter): State
    requires w in s.waiters && (step.LockList? ==> step.b in s.butexes)
  {
    if Unlinks(s.waiters[w], step) then
      SetWaiter(SetButex(s, step.b, s.butexes[step.b].(queue := Without(s.butexes[step.b].queue, w))), w, r2)
    else
      SetWaiter(s, w, r2)
  }

  // ---------- wake plans ----------

  function Bthreads(ws: map<WaiterId, Waiter>, q: seq<WaiterId>): seq<WaiterId> {
    if q == [] then []
    else if q[0] in ws && !ws[q[0]].pthread then [q[0]] + Bthreads(ws, q[1..])
    else Bthreads(ws, q[1..])
  }

  function Pthreads(ws: map<WaiterId, Waiter>, q: seq<WaiterId>): seq<WaiterId> {
    if q == [] then []
    else if q[0] in ws && ws[q[0]].pthread then [q[0]] + Pthreads(ws, q[1..])
    else Pthreads(ws, q[1..])
  }

  function Signals(q: seq<WaiterId>): seq<Op> {
    if q == [] then [] else [Rouse(q[0])] + Signals(q[1..])
  }

  /** Popping from the tail, each waiter is unslept and then pushed to the run queue. */
  function TailFirst(q: seq<WaiterId>): seq<Op> {
    if q == [] then []
    else [Unsleep(q[|q| - 1]), Rouse(q[|q| - 1])] + TailFirst(q[..|q| - 1])
  }

  /** After butex_wake or butex_requeue took out `w`. */
  function OnePlan(pthread: bool, w: WaiterId): seq<Op> {
    if pthread then [Rouse(w)] else [Unsleep(w), Rouse(w)]
  }

  /** After butex_wake_all: pthreads first; the first bthread is unslept at once but switched to last. */
  function AllPlan(pthreads: seq<WaiterId>, bthreads: seq<WaiterId>): seq<Op> {
    Signals(pthreads) +
    (if bthreads == [] then []
     else [Unsleep(bthreads[0])] + TailFirst(bthreads[1..]) + [Rouse(bthreads[0])])
  }

  /** After butex_wake_except. */
  function ExceptPlan(pthreads: seq<WaiterId>, bthreads: seq<WaiterId>): seq<Op> {
    Signals(pthreads) + TailFirst(bthreads)
  }

  /** The waiters of `q` that wake_except leaves queued. */
  function Kept(ws: map<WaiterId, Waiter>, q: seq<WaiterId>, excluded: TaskId): seq<WaiterId> {
    if q == [] then []
    else if q[0] in ws && !ws[q[0]].pthread && ws[q[0]].task == Some(excluded)
    then [q[0]] + Kept(ws, q[1..], excluded)
    else Kept(ws, q[1..], excluded)
  }

  function Dropped(ws: map<WaiterId, Waiter>, q: seq<WaiterId>, excluded: TaskId): seq<WaiterId> {
    if q == [] then []
    else if q[0] in ws && !ws[q[0]].pthread && ws[q[0]].task == Some(excluded)
    then Dropped(ws, q[1..], excluded)
    else [q[0]] + Dropped(ws, q[1..], excluded)
  }

  /** The container of every waiter of `q` is cleared and `a` now holds them. */
  function TakenOut(ws: map<WaiterId, Waiter>, q: seq<WaiterId>, a: AgentId): map<WaiterId, Waiter> {
    map w | w in ws :: if w in q then ws[w].(container := None, claim := ByWaker(a)) else ws[w]
  }

  /** The container of every waiter of `q` now names `m`. */
  function MovedTo(ws: map<WaiterId, Waiter>, q: seq<WaiterId>, m: ButexId): map<WaiterId, Waiter> {
    map w | w in ws :: if w in q then ws[w].(container := Some(m)) else ws[w]
  }

  // ---------- transitions ----------

  predicate FreeList(s: State, b: ButexId) {
    b in s.butexes && s.butexes[b].holder == None
  }

  predicate AtPc(s: State, w: WaiterId, pc: Pc) {
    w in s.waiters && s.waiters[w].pc == pc
  }

  predicate EraseEnabled(s: State, step: EraseStep) {
    match step
    case LockList(b) => FreeList(s, b)
    case Finished => false
    case _ => true
  }

  predicate IsIdle(s: State, a: AgentId) {
    a in s.agents && s.agents[a] == IDLE
  }

  /** The steps that change nothing but the waiter's own record. */
  predicate RecordStep(e: Event) {
    e.SwitchAway? || e.CallbackUnsleep? || e.CallbackReady? || e.SeeSignal? || e.Timeout? || e.RecheckSignal? ||
    e.TimerStart? || e.TimerEnd? || e.Resume? || e.SpinUnsleep?
  }

  predicate RecordGuard(r: Waiter, e: Event)
    requires RecordStep(e)
  {
    match e
    case SwitchAway(_) => r.pc == Published && !r.pthread
    case CallbackUnsleep(_) => r.pc == Unqueued
    case CallbackReady(_) => r.pc == Rescheduling
    case SeeSignal(_) => r.pc == Parked && r.pthread && r.readied > 0
    case Timeout(_) => r.pc == Parked && r.pthread && r.timed
    case RecheckSignal(_) => r.pc == Recheck
    case TimerStart(_) => r.timer.Armed?
    case TimerEnd(_) => r.timer == Firing(Finished)
    case Resume(_) => r.pc == Runnable
    case SpinUnsleep(_) => r.pc == Unsleeping
  }

  predicate HasTask(s: State, w: WaiterId)
    requires w in s.waiters
  {
    s.waiters[w].task.Some? ==> s.waiters[w].task.value in s.tasks
  }

  predicate CanBegin(s: State, w: WaiterId, task: Option<TaskId>, b: ButexId) {
    && w !in s.waiters && b in s.butexes
    && (task.Some? ==> task.value in s.tasks && s.tasks[task.value].active == None)
  }

  predicate CanPublish(s: State, w: WaiterId) {
    AtPc(s, w, Preparing) && HasTask(s, w)
  }

  predicate CanCheckValue(s: State, w: WaiterId) {
    && w in s.waiters && s.waiters[w].pc == (if s.waiters[w].pthread then Published else Suspended)
    && FreeList(s, s.waiters[w].target)
  }

  predicate CanCheckFlag(s: State, w: WaiterId) {
    AtPc(s, w, CheckInterrupt) && s.waiters[w].target in s.butexes && HasTask(s, w)
  }

  predicate CanDecline(s: State, w: WaiterId) {
    AtPc(s, w, Declined) && HasTask(s, w)
  }

  predicate CanEnqueue(s: State, w: WaiterId) {
    AtPc(s, w, Queueing) && s.waiters[w].target in s.butexes
  }

  predicate CanEraseSelf(s: State, w: WaiterId) {
    w in s.waiters && s.waiters[w].pc.SelfErase? && EraseEnabled(s, s.waiters[w].pc.step)
  }

  predicate CanTimerErase(s: State, w: WaiterId) {
    w in s.waiters && s.waiters[w].timer.Firing? && EraseEnabled(s, s.waiters[w].timer.step)
  }

  predicate CanSpinTake(s: State, w: WaiterId) {
    AtPc(s, w, Taking) && HasTask(s, w)
  }

  predicate CanClearFlag(s: State, w: WaiterId) {
    AtPc(s, w, Clearing) && HasTask(s, w)
  }

  predicate CanWake(s: State, a: AgentId, b: ButexId) {
    IsIdle(s, a) && FreeList(s, b)
  }

  predicate CanWakeAll(s: State, a: AgentId, b: ButexId) {
    a in s.agents && (s.agents[a] == IDLE || s.agents[a] == Stored(b)) && FreeList(s, b)
  }

  predicate CanRequeue(s: State, a: AgentId, b: ButexId, m: ButexId) {
    IsIdle(s, a) && b != m && FreeList(s, b) && FreeList(s, m) && m !in s.disciplined
  }

  predicate CanWork(s: State, a: AgentId) {
    a in s.agents && s.agents[a].Busy? && s.agents[a].todo != [] && s.agents[a].todo[0].w in s.waiters
  }

  predicate CanStore(s: State, a: AgentId, b: ButexId) {
    IsIdle(s, a) && b in s.butexes
  }

  predicate CanInterruptTake(s: State, a: AgentId, t: TaskId) {
    && IsIdle(s, a) && t in s.tasks && s.tasks[t].lock == None
    && (s.tasks[t].current.Some? ==> s.tasks[t].current.value in s.waiters)
  }

  predicate CanInterruptFlag(s: State, a: AgentId) {
    a in s.agents && s.agents[a].Flagging? && s.agents[a].t in s.tasks
  }

  predicate CanInterruptErase(s: State, a: AgentId) {
    a in s.agents && s.agents[a].Erasing? && s.agents[a].w in s.waiters && EraseEnabled(s, s.agents[a].step)
  }

  predicate CanPutBack(s: State, a: AgentId) {
    a in s.agents && s.agents[a].PuttingBack? && s.agents[a].t in s.tasks && s.tasks[s.agents[a].t].lock == None
  }

  predicate Enabled(s: State, e: Event) {
    if RecordStep(e) then e.w in s.waiters && RecordGuard(s.waiters[e.w], e)
    else
      match e
      case BeginBthread(w, t, b, expected, timed) => CanBegin(s, w, Some(t), b)
      case BeginPthread(w, task, b, expected, timed) => CanBegin(s, w, task, b)
      case Publish(w) => CanPublish(s, w)
      case CheckValue(w) => CanCheckValue(s, w)
      case CheckFlag(w) => CanCheckFlag(s, w)
      case Decline(w) => CanDecline(s, w)
      case Enqueue(w) => CanEnqueue(s, w)
      case EraseSelf(w) => CanEraseSelf(s, w)
      case TimerErase(w) => CanTimerErase(s, w)
      case SpinTake(w) => CanSpinTake(s, w)
      case ClearFlag(w) => CanClearFlag(s, w)
      case Wake(a, b) => CanWake(s, a, b)
      case WakeAll(a, b) => CanWakeAll(s, a, b)
      case WakeExcept(a, b, excluded) => CanWake(s, a, b)
      case Requeue(a, b, m) => CanRequeue(s, a, b, m)
      case Work(a) => CanWork(s, a)
      case Store(a, b, v) => CanStore(s, a, b)
      case InterruptTake(a, t) => CanInterruptTake(s, a, t)
      case InterruptFlag(a) => CanInterruptFlag(s, a)
      case InterruptErase(a) => CanInterruptErase(s, a)
      case PutBack(a) => CanPutBack(s, a)
  }

  function RecordAfter(r: Waiter, e: Event): Waiter
    requires RecordStep(e)
  {
    match e
    case SwitchAway(_) => r.(pc := Suspended)
    case CallbackUnsleep(_) => Unslept(r).(pc := Rescheduling)
    case CallbackReady(_) => Roused(r)
    case SeeSignal(_) => r.(pc := Taking)
    case Timeout(_) => r.(pc := SelfErase(LoadContainer))
    case RecheckSignal(_) => r.(pc := if r.readied > 0 then Taking else Parked)
    case TimerStart(_) => r.(timer := Firing(LoadContainer))
    case TimerEnd(_) => r.(timer := Expired)
    case Resume(_) => r.(pc := Unsleeping)
    case SpinUnsleep(_) => if r.sleepId && r.timer.Firing? then r else Unslept(r).(pc := Taking)
  }

  /** A bthread's deadline is a TimerThread task, a pthread's the timeout of its futex_wait. */
  function FreshWaiter(task: Option<TaskId>, pthread: bool, b: ButexId, expected: int, timed: bool): Waiter {
    var sleeps := timed && !pthread;
    Waiter(task, pthread, expected, b, timed, None, sleeps, if sleeps then Armed else NoTimer, Ready, Preparing, 0,
           Unclaimed, false, false, false)
  }

  function StepBegin(s: State, w: WaiterId, r: Waiter): State
    requires r.task.Some? ==> r.task.value in s.tasks
  {
    var s1 := SetWaiter(s, w, r);
    if r.task.Some? then SetTask(s1, r.task.value, s.tasks[r.task.value].(active := Some(w))) else s1
  }

  function StepPublish(s: State, w: WaiterId): State
    requires CanPublish(s, w)
  {
    var r := s.waiters[w];
    var s1 := SetWaiter(s, w, r.(pc := Published));
    if r.task.Some? then SetTask(s1, r.task.value, s.tasks[r.task.value].(current := Some(w))) else s1
  }

  /** Under the lock: the value decides, and the lock is kept only on the way to the list. */
  function StepCheckValue(s: State, w: WaiterId): State
    requires CanCheckValue(s, w)
  {
    var r := s.waiters[w];
    var x := s.butexes[r.target];
    if x.value == r.expected && r.wstate == Ready then
      SetWaiter(SetButex(s, r.target, x.(holder := Some(w))), w, r.(pc := CheckInterrupt))
    else if r.pthread then
      SetWaiter(s, w, r.(pc := Taking))
    else
      SetWaiter(s, w, r.(pc := Unqueued, claim := ByCallback,
                         wstate := if x.value != r.expected then Unmatched else r.wstate))
  }

  function StepCheckFlag(s: State, w: WaiterId): State
    requires CanCheckFlag(s, w)
  {
    var r := s.waiters[w];
    if r.task.Some? && s.tasks[r.task.value].interrupted then
      SetWaiter(SetButex(s, r.target, s.butexes[r.target].(holder := None)), w,
                if r.pthread then r.(pc := Declined) else r.(pc := Unqueued, claim := ByCallback))
    else
      SetWaiter(s, w, r.(pc := Queueing))
  }

  function StepDecline(s: State, w: WaiterId): State
    requires CanDecline(s, w)
  {
    var r := s.waiters[w];
    var s1 := SetWaiter(s, w, r.(pc := Taking));
    if r.task.Some? then SetTask(s1, r.task.value, s.tasks[r.task.value].(interrupted := false)) else s1
  }

  function StepEnqueue(s: State, w: WaiterId): State
    requires CanEnqueue(s, w)
  {
    var r := s.waiters[w];
    var x := s.butexes[r.target];
    SetWaiter(SetButex(s, r.target, x.(queue := x.queue + [w], holder := None)), w,
              r.(pc := Parked, container := Some(r.target)))
  }

  function PcAfterErase(next: EraseStep): Pc {
    match next
    case MakeReady => Taking
    case Finished => Recheck
    case _ => SelfErase(next)
  }

  /** wait_pthread erases itself without a wake-up. */
  function StepEraseSelf(s: State, w: WaiterId): State
    requires CanEraseSelf(s, w)
  {
    var r := s.waiters[w];
    var step := r.pc.step;
    ApplyErase(s, w, step, ErasedRecord(r, step, ByItself, TimedOut).(pc := PcAfterErase(NextStep(r, step))))
  }

  function StepTimerErase(s: State, w: WaiterId): State
    requires CanTimerErase(s, w)
  {
    var r := s.waiters[w];
    var step := r.timer.step;
    ApplyErase(s, w, step, ErasedRecord(r, step, ByTimer, TimedOut).(timer := Firing(NextStep(r, step))))
  }

  function StepSpinTake(s: State, w: WaiterId): State
    requires CanSpinTake(s, w)
  {
    var r := s.waiters[w];
    if r.task == None then SetWaiter(s, w, r.(pc := Returned))
    else if s.tasks[r.task.value].current == None then s
    else SetTask(SetWaiter(s, w, r.(pc := Clearing)), r.task.value, s.tasks[r.task.value].(current := None))
  }

  function StepClearFlag(s: State, w: WaiterId): State
    requires CanClearFlag(s, w)
  {
    var r := s.waiters[w];
    var s1 := SetWaiter(s, w, r.(pc := Returned));
    if r.task.Some? then SetTask(s1, r.task.value, s.tasks[r.task.value].(interrupted := false, active := None)) else s1
  }

  /** Waiters `out` leave the list of `b`, which keeps `rest`; agent `a` then works through `plan`. */
  function TakeFrom(s: State, a: AgentId, b: ButexId, out: seq<WaiterId>, rest: seq<WaiterId>, plan: seq<Op>): State
    requires b in s.butexes
  {
    SetAgent(SetButex(s, b, s.butexes[b].(queue := rest)).(waiters := TakenOut(s.waiters, out, a)), a, Busy(plan))
  }

  function StepWake(s: State, a: AgentId, b: ButexId): State
    requires CanWake(s, a, b)
  {
    var q := s.butexes[b].queue;
    if q == [] then s
    else TakeFrom(s, a, b, [q[0]], q[1..], OnePlan(q[0] in s.waiters && s.waiters[q[0]].pthread, q[0]))
  }

  function StepWakeAll(s: State, a: AgentId, b: ButexId): State
    requires CanWakeAll(s, a, b)
  {
    var q := s.butexes[b].queue;
    TakeFrom(s, a, b, q, [], AllPlan(Pthreads(s.waiters, q), Bthreads(s.waiters, q)))
  }

  function StepWakeExcept(s: State, a: AgentId, b: ButexId, excluded: TaskId): State
    requires CanWake(s, a, b)
  {
    var q := s.butexes[b].queue;
    var out := Dropped(s.waiters, q, excluded);
    TakeFrom(s, a, b, out, Kept(s.waiters, q, excluded), ExceptPlan(Pthreads(s.waiters, out), Bthreads(s.waiters, out)))
  }

  /** Everything queued on `b` moves to the end of the list of `m`. */
  function MoveAll(s: State, b: ButexId, m: ButexId, q: seq<WaiterId>): State
    requires b in s.butexes && m in s.butexes && b != m
  {
    SetButex(SetButex(s, b, s.butexes[b].(queue := [])), m, s.butexes[m].(queue := s.butexes[m].queue + q))
      .(waiters := MovedTo(s.waiters, q, m))
  }

  function StepRequeue(s: State, a: AgentId, b: ButexId, m: ButexId): State
    requires CanRequeue(s, a, b, m)
  {
    var q := s.butexes[b].queue;
    if q == [] then s
    else
      var s1 := TakeFrom(s, a, b, [q[0]], q[1..], OnePlan(q[0] in s.waiters && s.waiters[q[0]].pthread, q[0]));
      MoveAll(s1, b, m, q[1..])
  }

  function StepWork(s: State, a: AgentId): State
    requires CanWork(s, a)
  {
    var todo := s.agents[a].todo;
    var w := todo[0].w;
    SetAgent(SetWaiter(s, w, if todo[0].Unsleep? then Unslept(s.waiters[w]) else Roused(s.waiters[w])),
             a, Busy(todo[1..]))
  }

  function StepStore(s: State, a: AgentId, b: ButexId, v: int): State
    requires CanStore(s, a, b)
  {
    var s1 := SetButex(s, b, s.butexes[b].(value := v));
    if b in s.disciplined then SetAgent(s1, a, Stored(b)) else s1
  }

  /** current_waiter.exchange(NULL), with the version lock taken. */
  function StepInterruptTake(s: State, a: AgentId, t: TaskId): State
    requires CanInterruptTake(s, a, t)
  {
    var x := s.tasks[t];
    var s1 := SetAgent(s, a, Flagging(t, x.current));
    if x.current == None then SetTask(s1, t, x.(lock := Some(a)))
    else
      var w := x.current.value;
      SetTask(SetWaiter(s1, w, s.waiters[w].(deaf := false, late := false)), t,
              x.(lock := Some(a), current := None, taker := Some(a)))
  }

  /** A waiter that is in a list, or on its way there past the flag check. */
  predicate Committed(r: Waiter) {
    r.pc == Queueing || r.container.Some?
  }

  /** The flag is stored for nobody that was found, but for a wait that has begun meanwhile. */
  predicate FlagsLate(s: State, x: Task, found: Option<WaiterId>) {
    && found == None && x.taker == None && x.active.Some?
    && x.active.value in s.waiters && Committed(s.waiters[x.active.value])
  }

  /** `interrupted = true`, and the version lock is released. */
  function StepInterruptFlag(s: State, a: AgentId): State
    requires CanInterruptFlag(s, a)
  {
    var Flagging(t, found) := s.agents[a];
    var x := s.tasks[t];
    var s1 :=
      if FlagsLate(s, x, found) then SetWaiter(s, x.active.value, s.waiters[x.active.value].(late := true)) else s;
    SetAgent(SetTask(s1, t, x.(interrupted := true, lock := None)), a,
             if found == None then IDLE else Erasing(t, found.value, LoadContainer))
  }

  function StepInterruptErase(s: State, a: AgentId): State
    requires CanInterruptErase(s, a)
  {
    var g := s.agents[a];
    var r := s.waiters[g.w];
    var next := NextStep(r, g.step);
    SetAgent(ApplyErase(s, g.w, g.step, ErasedRecord(r, g.step, ByInterrupter(a), Interrupted)), a,
             if next == Finished then PuttingBack(g.t, g.w) else Erasing(g.t, g.w, next))
  }

  function StepPutBack(s: State, a: AgentId): State
    requires CanPutBack(s, a)
  {
    var g := s.agents[a];
    SetAgent(SetTask(s, g.t, s.tasks[g.t].(current := Some(g.w), taker := None)), a, IDLE)
  }

  function Step(s: State, e: Event): State
    requires Enabled(s, e)
  {
    if RecordStep(e) then SetWaiter(s, e.w, RecordAfter(s.waiters[e.w], e))
    else
      match e
      case BeginBthread(w, t, b, expected, timed) => StepBegin(s, w, FreshWaiter(Some(t), false, b, expected, timed))
      case BeginPthread(w, task, b, expected, timed) => StepBegin(s, w, FreshWaiter(task, true, b, expected, timed))
      case Publish(w) => StepPublish(s, w)
      case CheckValue(w) => StepCheckValue(s, w)
      case CheckFlag(w) => StepCheckFlag(s, w)
      case Decline(w) => StepDecline(s, w)
      case Enqueue(w) => StepEnqueue(s, w)
      case EraseSelf(w) => StepEraseSelf(s, w)
      case TimerErase(w) => StepTimerErase(s, w)
      case SpinTake(w) => StepSpinTake(s, w)
      case ClearFlag(w) => StepClearFlag(s, w)
      case Wake(a, b) => StepWake(s, a, b)
      case WakeAll(a, b) => StepWakeAll(s, a, b)
      case WakeExcept(a, b, excluded) => StepWakeExcept(s, a, b, excluded)
      case Requeue(a, b, m) => StepRequeue(s, a, b, m)
      case Work(a) => StepWork(s, a)
      case Store(a, b, v) => StepStore(s, a, b, v)
      case InterruptTake(a, t) => StepInterruptTake(s, a, t)
      case InterruptFlag(a) => StepInterruptFlag(s, a)
      case InterruptErase(a) => StepInterruptErase(s, a)
      case PutBack(a) => StepPutBack(s, a)
  }
}
