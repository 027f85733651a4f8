/** The M:N scheduler of TaskGroup: where each task is, whose stack runs, and what the one-slot
    "remained" callback of each group is to do after the switch. */
module Sched {
  import opened Wrappers

  type Tid = nat
  type Stack = nat

  /** STACK_TYPE_MAIN, STACK_TYPE_PTHREAD, and the types whose stacks come from a pool. */
  datatype StackType = Main | Pthread | Pooled(size: nat)

  /** Lists of tasks: run queues, remote queues, waiters of a butex, pending timers, and the tasks that a
      thread has taken out of such a list and not yet passed on. */
  datatype Box = Rq(g: nat) | Remote(g: nat) | Butex(b: nat) | Timers | Hand(a: nat)

  /** History: where the task is. `Home` is a main task that its group has switched away from, `Left` a
      task that the callback of group `g` is still to deal with. */
  datatype Place = Free | Home(g: nat) | Cur(g: nat) | Next(g: nat) | Left(g: nat) | In(box: Box)

  /** What set_remained left to do once the task is off its stack. */
  datatype Remained =
    | NoCallback
    | ReadyToRun(t: Tid)
    | WaitForButex(t: Tid, b: nat)
    | AddSleepEvent(t: Tid)
    | ReleaseLastContext(t: Tid)

  /** Between set_remained and the switch the group still runs on the old stack: first no task is picked,
      then one is; after the switch the callback runs. `ending` tells ending_sched from sched. */
  datatype Phase = Running | Leaving(ending: bool) | Picked(next: Tid, ending: bool) | Landing

  /** `exec` is the stack the worker's processor runs on. */
  datatype Group = Group(mainTid: Tid, mainStack: Stack, cur: Tid, phase: Phase, remained: Remained, exec: Stack)

  datatype Task = Task(place: Place, kind: StackType, stack: Option<Stack>)

  /** History: to whom a stack was given. */
  datatype Owner = InPool | GivenTo(t: Tid) | MainOf(g: nat)

  datatype State = State(
    groups: seq<Group>,
    tasks: map<Tid, Task>,
    boxes: map<Box, seq<Tid>>,
    stacks: map<Stack, Owner>)

  datatype Event =
    | CreateLocal(g: nat, t: Tid, kind: StackType)
    | CreateRemote(h: nat, t: Tid, kind: StackType)
    | StartForeground(g: nat, t: Tid, kind: StackType)
    | Yield(g: nat)
    | WaitOn(g: nat, b: nat)
    | SleepOn(g: nat)
    | End(g: nat)
    | Exchange(g: nat, a: nat, i: nat)
    | Pick(g: nat, box: Box, i: nat)
    | PickMain(g: nat)
    | Switch(g: nat, x: Option<Stack>)
    | Land(g: nat, ready: bool)
    | Move(from: Box, i: nat, to: Box)

  // ---------- pieces of a step ----------

  function SetGroup(s: State, g: nat, r: Group): State
    requires g < |s.groups|
  {
    s.(groups := s.groups[g := r])
  }

  function SetPlace(s: State, t: Tid, p: Place): State
    requires t in s.tasks
  {
    s.(tasks := s.tasks[t := s.tasks[t].(place := p)])
  }

  function Without(q: seq<Tid>, i: nat): seq<Tid>
    requires i < |q|
  {
    q[..i] + q[i + 1..]
  }

  function Put(s: State, t: Tid, box: Box): State
    requires t in s.tasks && box in s.boxes
  {
    SetPlace(s, t, In(box)).(boxes := s.boxes[box := s.boxes[box] + [t]])
  }

  function TakeOut(s: State, box: Box, i: nat, p: Place): State
    requires box in s.boxes && i < |s.boxes[box]| && s.boxes[box][i] in s.tasks
  {
    SetPlace(s, s.boxes[box][i], p).(boxes := s.boxes[box := Without(s.boxes[box], i)])
  }

  predicate Has(s: State, box: Box, i: nat) {
    box in s.boxes && i < |s.boxes[box]| && s.boxes[box][i] in s.tasks
  }

  predicate OnMainStack(s: State, g: nat)
    requires g < |s.groups|
  {
    s.groups[g].cur in s.tasks && s.tasks[s.groups[g].cur].stack == Some(s.groups[g].mainStack)
  }

  /** A task that may suspend: it runs, and not on the main stack (is_current_pthread_task). */
  predicate CanSuspend(s: State, g: nat) {
    g < |s.groups| && s.groups[g].phase.Running? && s.groups[g].cur in s.tasks && !OnMainStack(s, g)
  }

  // ---------- starting tasks ----------

  /** get_resource hands out a slot that is free. */
  predicate CanCreate(s: State, t: Tid, kind: StackType) {
    t in s.tasks && s.tasks[t].place.Free? && !kind.Main?
  }

  function Fresh(s: State, t: Tid, kind: StackType): State
    requires CanCreate(s, t, kind)
  {
    s.(tasks := s.tasks[t := s.tasks[t].(kind := kind)])
  }

  predicate CanCreateIn(s: State, t: Tid, kind: StackType, box: Box) {
    CanCreate(s, t, kind) && box in s.boxes
  }

  function StepCreate(s: State, t: Tid, kind: StackType, box: Box): State
    requires CanCreateIn(s, t, kind, box)
  {
    Put(Fresh(s, t, kind), t, box)
  }

  /** The caller is left to ready_to_run_in_worker, and the new task is run at once. */
  predicate CanStartForeground(s: State, g: nat, t: Tid, kind: StackType) {
    CanSuspend(s, g) && CanCreate(s, t, kind)
  }

  function StepStartForeground(s: State, g: nat, t: Tid, kind: StackType): State
    requires CanStartForeground(s, g, t, kind)
  {
    var r := s.groups[g];
    SetGroup(SetPlace(Fresh(s, t, kind), t, Next(g)), g,
             r.(phase := Picked(t, false), remained := ReadyToRun(r.cur)))
  }

  // ---------- leaving the processor ----------

  /** set_remained, for a task that suspends itself and lets sched find the next one. */
  function StepLeave(s: State, g: nat, remained: Remained, ending: bool): State
    requires g < |s.groups|
  {
    SetGroup(s, g, s.groups[g].(phase := Leaving(ending), remained := remained))
  }

  /** The function of the task returned. */
  predicate CanEnd(s: State, g: nat) {
    && g < |s.groups| && s.groups[g].phase.Running? && s.groups[g].cur in s.tasks
    && s.groups[g].cur != s.groups[g].mainTid
  }

  /** TaskGroup::exchange: a thread that holds a task leaves its own and runs that one. */
  predicate CanExchange(s: State, g: nat, a: nat, i: nat) {
    CanSuspend(s, g) && Has(s, Hand(a), i)
  }

  function StepExchange(s: State, g: nat, a: nat, i: nat): State
    requires CanExchange(s, g, a, i)
  {
    var r := s.groups[g];
    var t := s.boxes[Hand(a)][i];
    SetGroup(TakeOut(s, Hand(a), i, Next(g)), g, r.(phase := Picked(t, false), remained := ReadyToRun(r.cur)))
  }

  /** sched, ending_sched and wait_task take a task from a queue: the group's own, or any other. */
  predicate CanPick(s: State, g: nat, box: Box, i: nat) {
    && g < |s.groups| && Has(s, box, i) && (box.Rq? || box.Remote?)
    && (s.groups[g].phase.Leaving? || (s.groups[g].phase.Running? && s.groups[g].cur == s.groups[g].mainTid))
  }

  function StepPick(s: State, g: nat, box: Box, i: nat): State
    requires CanPick(s, g, box, i)
  {
    var r := s.groups[g];
    var t := s.boxes[box][i];
    SetGroup(TakeOut(s, box, i, Next(g)), g, r.(phase := Picked(t, r.phase.Leaving? && r.phase.ending)))
  }

  /** Nothing was found: the main task is next. */
  predicate CanPickMain(s: State, g: nat) {
    && g < |s.groups| && s.groups[g].phase.Leaving? && s.groups[g].mainTid in s.tasks
    && s.groups[g].mainTid != s.groups[g].cur
  }

  function StepPickMain(s: State, g: nat): State
    requires CanPickMain(s, g)
  {
    var r := s.groups[g];
    SetGroup(SetPlace(s, r.mainTid, Next(g)), g, r.(phase := Picked(r.mainTid, r.phase.ending)))
  }

  // ---------- the switch ----------

  /** get_stack: a stack from the pool or a new one; none for pthread tasks, or out of memory. */
  predicate CanGet(s: State, kind: StackType, x: Option<Stack>) {
    x.Some? ==> kind.Pooled? && (x.value in s.stacks ==> s.stacks[x.value] == InPool)
  }

  predicate CanSwitch(s: State, g: nat, x: Option<Stack>) {
    && g < |s.groups| && s.groups[g].phase.Picked?
    && s.groups[g].cur in s.tasks && s.groups[g].phase.next in s.tasks
    && s.tasks[s.groups[g].cur].stack.Some?
    && CanGet(s, s.tasks[s.groups[g].phase.next].kind, x)
  }

  /** ending_sched passes the stack on when both tasks want the same type. */
  predicate Transfers(s: State, g: nat, x: Option<Stack>)
    requires CanSwitch(s, g, x)
  {
    var r := s.groups[g];
    && r.phase.ending && s.tasks[r.phase.next].stack == None
    && s.tasks[r.phase.next].kind == s.tasks[r.cur].kind
  }

  /** The next task with the stack that it will run on. */
  function Equipped(s: State, g: nat, x: Option<Stack>): Task
    requires CanSwitch(s, g, x)
  {
    var r := s.groups[g];
    var m := s.tasks[r.phase.next];
    if m.stack.Some? then m
    else if Transfers(s, g, x) then m.(stack := s.tasks[r.cur].stack)
    else if x.Some? then m.(stack := x)
    else m.(stack := Some(r.mainStack), kind := Pthread)
  }

  /** The task that is left keeps its stack until the callback runs, unless it passed it on. */
  function Parted(s: State, g: nat, x: Option<Stack>): Task
    requires CanSwitch(s, g, x)
  {
    var r := s.groups[g];
    var m := s.tasks[r.cur];
    m.(place := if r.cur == r.mainTid then Home(g) else Left(g), stack := if Transfers(s, g, x) then None else m.stack)
  }

  function Owners(s: State, g: nat, x: Option<Stack>): map<Stack, Owner>
    requires CanSwitch(s, g, x)
  {
    var r := s.groups[g];
    if s.tasks[r.phase.next].stack.Some? then s.stacks
    else if Transfers(s, g, x) then
      if s.tasks[r.cur].kind.Pooled? then s.stacks[s.tasks[r.cur].stack.value := GivenTo(r.phase.next)] else s.stacks
    else if x.Some? then s.stacks[x.value := GivenTo(r.phase.next)]
    else s.stacks
  }

  /** sched_to: the rest of ending_sched or sched_to(tid), `_cur_meta = next_meta`, and jump_stack. */
  function StepSwitch(s: State, g: nat, x: Option<Stack>): State
    requires CanSwitch(s, g, x)
  {
    var r := s.groups[g];
    var m := Equipped(s, g, x);
    s.(groups := s.groups[g := r.(cur := r.phase.next, phase := Landing, exec := m.stack.value)],
       tasks := s.tasks[r.cur := Parted(s, g, x)][r.phase.next := m.(place := Cur(g))],
       stacks := Owners(s, g, x))
  }

  // ---------- the callback ----------

  predicate CanLand(s: State, g: nat, ready: bool) {
    && g < |s.groups| && s.groups[g].phase.Landing?
    && var c := s.groups[g].remained;
       match c
       case NoCallback => true
       case ReadyToRun(t) => t in s.tasks && Rq(g) in s.boxes
       case WaitForButex(t, b) => t in s.tasks && (if ready then Rq(g) else Butex(b)) in s.boxes
       case AddSleepEvent(t) => t in s.tasks && (if ready then Rq(g) else Timers) in s.boxes
       case ReleaseLastContext(t) => t in s.tasks
  }

  /** return_stack, unless it was passed on or is the main stack; then return_resource. */
  function Released(s: State, t: Tid): State
    requires t in s.tasks
  {
    var m := s.tasks[t];
    s.(tasks := s.tasks[t := m.(place := Free, stack := None)],
       stacks := if !m.kind.Pthread? && m.stack.Some? then s.stacks[m.stack.value := InPool] else s.stacks)
  }

  /** `ready` says whether the waiter found the value changed, or no timer could be scheduled. */
  function StepLand(s: State, g: nat, ready: bool): State
    requires CanLand(s, g, ready)
  {
    var r := s.groups[g];
    var s1 := SetGroup(s, g, r.(phase := Running, remained := NoCallback));
    match r.remained
    case NoCallback => s1
    case ReadyToRun(t) => Put(s1, t, Rq(g))
    case WaitForButex(t, b) => Put(s1, t, if ready then Rq(g) else Butex(b))
    case AddSleepEvent(t) => Put(s1, t, if ready then Rq(g) else Timers)
    case ReleaseLastContext(t) => Released(s1, t)
  }

  // ---------- wakers, requeue, timers, remote pushes ----------

  /** A thread takes a task out of a butex or a timer, requeues it, or passes on one that it holds. */
  predicate Passes(from: Box, to: Box) {
    match from
    case Butex(_) => to.Hand? || to.Butex?
    case Timers => to.Hand?
    case Hand(_) => to.Rq? || to.Remote?
    case _ => false
  }

  predicate CanMove(s: State, from: Box, i: nat, to: Box) {
    Has(s, from, i) && to in s.boxes && Passes(from, to) && from != to
  }

  function StepMove(s: State, from: Box, i: nat, to: Box): State
    requires CanMove(s, from, i, to)
  {
    var t := s.boxes[from][i];
    Put(TakeOut(s, from, i, Free), t, to)
  }

  // ---------- runs ----------

  predicate Enabled(s: State, e: Event) {
    match e
    case CreateLocal(g, t, kind) => g < |s.groups| && s.groups[g].phase.Running? && CanCreateIn(s, t, kind, Rq(g))
    case CreateRemote(h, t, kind) => CanCreateIn(s, t, kind, Remote(h))
    case StartForeground(g, t, kind) => CanStartForeground(s, g, t, kind)
    case Yield(g) => CanSuspend(s, g)
    case WaitOn(g, b) => CanSuspend(s, g) && Butex(b) in s.boxes
    case SleepOn(g) => CanSuspend(s, g)
    case End(g) => CanEnd(s, g)
    case Exchange(g, a, i) => CanExchange(s, g, a, i)
    case Pick(g, box, i) => CanPick(s, g, box, i)
    case PickMain(g) => CanPickMain(s, g)
    case Switch(g, x) => CanSwitch(s, g, x)
    case Land(g, ready) => CanLand(s, g, ready)
    case Move(from, i, to) => CanMove(s, from, i, to)
  }

  function Step(s: State, e: Event): State
    requires Enabled(s, e)
  {
    match e
    case CreateLocal(g, t, kind) => StepCreate(s, t, kind, Rq(g))
    case CreateRemote(h, t, kind) => StepCreate(s, t, kind, Remote(h))
    case StartForeground(g, t, kind) => StepStartForeground(s, g, t, kind)
    case Yield(g) => StepLeave(s, g, ReadyToRun(s.groups[g].cur), false)
    case WaitOn(g, b) => StepLeave(s, g, WaitForButex(s.groups[g].cur, b), false)
    case SleepOn(g) => StepLeave(s, g, AddSleepEvent(s.groups[g].cur), false)
    case End(g) => StepLeave(s, g, ReleaseLastContext(s.groups[g].cur), true)
    case Exchange(g, a, i) => StepExchange(s, g, a, i)
    case Pick(g, box, i) => StepPick(s, g, box, i)
    case PickMain(g) => StepPickMain(s, g)
    case Switch(g, x) => StepSwitch(s, g, x)
    case Land(g, ready) => StepLand(s, g, ready)
    case Move(from, i, to) => StepMove(s, from, i, to)
  }

  predicate Executable(s: State, es: seq<Event>)
    decreases |es|
  {
    es != [] ==> Enabled(s, es[0]) && Executable(Step(s, es[0]), es[1..])
  }

  function After(s: State, es: seq<Event>): State
    requires Executable(s, es)
    decreases |es|
  {
    if es == [] then s else After(Step(s, es[0]), es[1..])
  }

  /** A new group runs its main task on its main stack. */
  predicate FreshGroup(s: State, g: nat)
    requires g < |s.groups|
  {
    var r := s.groups[g];
    && r.cur == r.mainTid && r.phase.Running? && r.remained.NoCallback? && r.exec == r.mainStack
    && r.mainTid in s.tasks && s.tasks[r.mainTid] == Task(Cur(g), Main, Some(r.mainStack))
    && r.mainStack in s.stacks && s.stacks[r.mainStack] == MainOf(g)
  }

  ghost predicate Init(s: State) {
    && (forall g: nat {:trigger FreshGroup(s, g)} :: g < |s.groups| ==> FreshGroup(s, g))
    && (forall t {:trigger s.tasks[t]} :: t in s.tasks ==>
          (s.tasks[t].place.Free? && s.tasks[t].stack == None && !s.tasks[t].kind.Main?)
          || (s.tasks[t].place.Cur? && s.tasks[t].place.g < |s.groups| && s.groups[s.tasks[t].place.g].mainTid == t))
    && (forall box {:trigger s.boxes[box]} :: box in s.boxes ==> s.boxes[box] == [])
    && (forall x {:trigger s.stacks[x]} :: x in s.stacks ==>
          || s.stacks[x].InPool?
          || (s.stacks[x].MainOf? && s.stacks[x].g < |s.groups| && s.groups[s.stacks[x].g].mainStack == x))
  }
}
