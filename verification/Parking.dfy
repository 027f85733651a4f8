/** How workers park and are signalled: TaskControl::signal_task, TaskGroup::steal_task and wait_task,
    and ParkingLot, over a fixed set of groups and with nobody calling stop. */
module Parking {
  import opened StealScan

  const PARKING_LOT_NUM := 4

  /** `_pending_signal` counts in steps of two in an `int`, so it repeats after this many signals. */
  const SIGNAL_MODULUS := 0x8000_0000

  /** Whatever a task is; the queues only move tasks around. */
  type Task = nat

  /** The `_rq` or the `_remote_rq` of group `g`. */
  datatype Queue = Rq(g: nat) | Remote(g: nat)

  /** A worker runs a task, or looks for one: in its own two queues, then after saving the state of its
      lot in both queues of every group. If it finds none it switches to its main task, where the callback
      left by the last task may still push (Idle), and then waits. */
  datatype Pc =
    | Busy
    | PopOwn
    | PopRemote
    | Save
    | ScanRq(i: nat)
    | ScanRemote(i: nat)
    | Idle
    | Wait
    | Blocked

  /** Worker `w` runs group `w`. `seed` is the value of `_steal_seed` when its current scan began. */
  datatype Worker = Worker(pc: Pc, saved: nat, seed: nat, offset: nat, lot: nat)

  /** A signal_task call: wake-ups still wanted, first lot, lots done, and whether the counter of the
      current lot was already increased. */
  datatype Call = Call(left: nat, start: nat, tried: nat, bumped: bool)

  /** `lots` are the numbers of signals so far, `quiet` the pushes that were not signalled yet. */
  datatype State = State(
    workers: seq<Worker>,
    queues: map<Queue, seq<Task>>,
    quiet: map<Queue, nat>,
    lots: seq<nat>,
    calls: map<nat, Call>)

  datatype Event =
    | Finish(w: nat)
    | TryOwn(w: nat)
    | TryRemote(w: nat)
    | SaveState(w: nat)
    | ScanOne(w: nat)
    | EndScan(w: nat)
    | Settle(w: nat)
    | EnterWait(w: nat)
    | Spurious(w: nat)
    | PushSignal(q: Queue, task: Task, c: nat, start: nat)
    | PushNoSignal(q: Queue, task: Task)
    | PushIgnoreSignal(q: Queue, task: Task)
    | Flush(q: Queue, c: nat, start: nat)
    | Bump(c: nat)
    | WakeOne(c: nat, w: nat)
    | WakeNone(c: nat)

  function SetPc(s: State, w: nat, pc: Pc): State
    requires w < |s.workers|
  {
    s.(workers := s.workers[w := s.workers[w].(pc := pc)])
  }

  // ---------- the worker ----------

  predicate At(s: State, w: nat) {
    && w < |s.workers| && s.workers[w].lot < |s.lots|
    && Rq(w) in s.queues && Remote(w) in s.queues
  }

  /** The task ends or suspends itself: sched looks for the next one. */
  predicate CanFinish(s: State, w: nat) {
    At(s, w) && s.workers[w].pc.Busy?
  }

  function StepFinish(s: State, w: nat): State
    requires CanFinish(s, w)
  {
    SetPc(s, w, PopOwn)
  }

  /** The owner pops the task it pushed last. */
  predicate CanTryOwn(s: State, w: nat) {
    At(s, w) && s.workers[w].pc.PopOwn?
  }

  function StepTryOwn(s: State, w: nat): State
    requires CanTryOwn(s, w)
  {
    var q := s.queues[Rq(w)];
    if q == [] then SetPc(s, w, PopRemote)
    else SetPc(s, w, Busy).(queues := s.queues[Rq(w) := q[..|q| - 1]])
  }

  /** The oldest task of queue `q` goes to worker `w`. */
  function Take(s: State, w: nat, q: Queue): State
    requires At(s, w) && q in s.queues && s.queues[q] != []
  {
    SetPc(s, w, Busy).(queues := s.queues[q := s.queues[q][1..]])
  }

  predicate CanTryRemote(s: State, w: nat) {
    At(s, w) && s.workers[w].pc.PopRemote?
  }

  function StepTryRemote(s: State, w: nat): State
    requires CanTryRemote(s, w)
  {
    if s.queues[Remote(w)] == [] then SetPc(s, w, Save) else Take(s, w, Remote(w))
  }

  /** `_last_pl_state = _pl->get_state()`. */
  predicate CanSaveState(s: State, w: nat) {
    At(s, w) && s.workers[w].pc.Save?
  }

  function StepSaveState(s: State, w: nat): State
    requires CanSaveState(s, w)
  {
    s.(workers := s.workers[w := s.workers[w].(pc := ScanRq(0), saved := s.lots[s.workers[w].lot])])
  }

  predicate Scanning(pc: Pc) {
    pc.ScanRq? || pc.ScanRemote?
  }

  /** The queue a scanning worker looks at. */
  function Target(n: nat, r: Worker): Queue
    requires n > 0 && Scanning(r.pc)
  {
    var g := Visited(r.seed, r.offset, r.pc.i, n);
    if r.pc.ScanRq? then Rq(g) else Remote(g)
  }

  predicate CanScanOne(s: State, w: nat) {
    && At(s, w) && Scanning(s.workers[w].pc) && s.workers[w].pc.i < |s.workers|
    && Target(|s.workers|, s.workers[w]) in s.queues
  }

  function StepScanOne(s: State, w: nat): State
    requires CanScanOne(s, w)
  {
    var r := s.workers[w];
    var q := Target(|s.workers|, r);
    if s.queues[q] != [] then
      var s1 := Take(s, w, q);
      s1.(workers := s1.workers[w := r.(pc := Busy, seed := SeedAfter(r.seed, r.offset, r.pc.i))])
    else SetPc(s, w, if r.pc.ScanRq? then ScanRemote(r.pc.i) else ScanRq(r.pc.i + 1))
  }

  /** Nothing found: sched switches to the main task. */
  predicate CanEndScan(s: State, w: nat) {
    At(s, w) && s.workers[w].pc == ScanRq(|s.workers|)
  }

  function StepEndScan(s: State, w: nat): State
    requires CanEndScan(s, w)
  {
    var r := s.workers[w];
    s.(workers := s.workers[w := r.(pc := Idle, seed := SeedAfter(r.seed, r.offset, |s.workers|))])
  }

  predicate CanSettle(s: State, w: nat) {
    At(s, w) && s.workers[w].pc.Idle?
  }

  function StepSettle(s: State, w: nat): State
    requires CanSettle(s, w)
  {
    SetPc(s, w, Wait)
  }

  /** futex_wait blocks while the counter equals the saved state, and returns at once otherwise. */
  predicate CanEnterWait(s: State, w: nat) {
    At(s, w) && s.workers[w].pc.Wait?
  }

  predicate LooksUnchanged(s: State, w: nat)
    requires At(s, w)
  {
    s.lots[s.workers[w].lot] % SIGNAL_MODULUS == s.workers[w].saved % SIGNAL_MODULUS
  }

  function StepEnterWait(s: State, w: nat): State
    requires CanEnterWait(s, w)
  {
    SetPc(s, w, if LooksUnchanged(s, w) then Blocked else PopRemote)
  }

  /** futex_wait may also return because of a system signal. */
  predicate CanSpurious(s: State, w: nat) {
    At(s, w) && s.workers[w].pc.Blocked?
  }

  function StepSpurious(s: State, w: nat): State
    requires CanSpurious(s, w)
  {
    SetPc(s, w, PopRemote)
  }

  // ---------- pushing ----------

  /** The owner of a run queue pushes while it runs a task or a callback; anybody pushes to a remote queue. */
  predicate CanPush(s: State, q: Queue) {
    && q in s.queues && q in s.quiet
    && (q.Rq? ==> q.g < |s.workers| && (s.workers[q.g].pc.Busy? || s.workers[q.g].pc.Idle?))
  }

  function Min(a: nat, b: nat): nat {
    if a < b then a else b
  }

  /** signal_task asks for at most two wake-ups. */
  function NewCall(num: nat, start: nat): Call {
    Call(Min(num, 2), start, 0, false)
  }

  predicate CanCall(s: State, c: nat, start: nat) {
    c !in s.calls && start < PARKING_LOT_NUM
  }

  /** ready_to_run(tid, false): the new push and all quiet ones are signalled together. */
  function StepPushSignal(s: State, q: Queue, task: Task, c: nat, start: nat): State
    requires CanPush(s, q)
  {
    s.(queues := s.queues[q := s.queues[q] + [task]], quiet := s.quiet[q := 0],
       calls := s.calls[c := NewCall(1 + s.quiet[q], start)])
  }

  function StepPushNoSignal(s: State, q: Queue, task: Task): State
    requires CanPush(s, q)
  {
    s.(queues := s.queues[q := s.queues[q] + [task]], quiet := s.quiet[q := s.quiet[q] + 1])
  }

  /** ready_to_run_in_worker_ignoresignal runs after a switch to another task, never the main task. */
  predicate CanPushIgnoreSignal(s: State, q: Queue) {
    CanPush(s, q) && q.Rq? && s.workers[q.g].pc.Busy?
  }

  function StepPushIgnoreSignal(s: State, q: Queue, task: Task): State
    requires CanPushIgnoreSignal(s, q)
  {
    s.(queues := s.queues[q := s.queues[q] + [task]])
  }

  /** flush_nosignal_tasks, called by the program or because a queue is full. */
  function StepFlush(s: State, q: Queue, c: nat, start: nat): State
    requires CanPush(s, q)
  {
    s.(quiet := s.quiet[q := 0], calls := s.calls[c := NewCall(s.quiet[q], start)])
  }

  // ---------- signalling ----------

  function LotAt(call: Call, k: nat): nat {
    (call.start + k) % PARKING_LOT_NUM
  }

  predicate CanBump(s: State, c: nat) {
    c in s.calls && !s.calls[c].bumped && LotAt(s.calls[c], s.calls[c].tried) < |s.lots|
  }

  /** `_pending_signal.fetch_add`. */
  function StepBump(s: State, c: nat): State
    requires CanBump(s, c)
  {
    var lot := LotAt(s.calls[c], s.calls[c].tried);
    s.(lots := s.lots[lot := s.lots[lot] + 1], calls := s.calls[c := s.calls[c].(bumped := true)])
  }

  /** The call goes on to the next lot unless it woke enough workers or tried all lots. */
  function Advance(s: State, c: nat, left: nat): State
    requires c in s.calls
  {
    var tried := s.calls[c].tried + 1;
    if left == 0 || tried >= PARKING_LOT_NUM then s.(calls := s.calls - {c})
    else s.(calls := s.calls[c := s.calls[c].(left := left, tried := tried, bumped := false)])
  }

  predicate SleepsIn(s: State, w: nat, lot: nat) {
    w < |s.workers| && s.workers[w].pc.Blocked? && s.workers[w].lot == lot
  }

  /** futex_wake(1) wakes a worker that is blocked in the lot. */
  predicate CanWakeOne(s: State, c: nat, w: nat) {
    c in s.calls && s.calls[c].bumped && s.calls[c].left > 0 && SleepsIn(s, w, LotAt(s.calls[c], s.calls[c].tried))
  }

  function StepWakeOne(s: State, c: nat, w: nat): State
    requires CanWakeOne(s, c, w)
  {
    Advance(SetPc(s, w, PopRemote), c, s.calls[c].left - 1)
  }

  /** ...and returns 0 only if there is none. */
  ghost predicate CanWakeNone(s: State, c: nat) {
    && c in s.calls && s.calls[c].bumped
    && (forall w: nat {:trigger SleepsIn(s, w, LotAt(s.calls[c], s.calls[c].tried))} ::
          !SleepsIn(s, w, LotAt(s.calls[c], s.calls[c].tried)))
  }

  function StepWakeNone(s: State, c: nat): State
    requires c in s.calls
  {
    Advance(s, c, s.calls[c].left)
  }

  // ---------- runs ----------

  ghost predicate Enabled(s: State, e: Event) {
    match e
    case Finish(w) => CanFinish(s, w)
    case TryOwn(w) => CanTryOwn(s, w)
    case TryRemote(w) => CanTryRemote(s, w)
    case SaveState(w) => CanSaveState(s, w)
    case ScanOne(w) => CanScanOne(s, w)
    case EndScan(w) => CanEndScan(s, w)
    case Settle(w) => CanSettle(s, w)
    case EnterWait(w) => CanEnterWait(s, w)
    case Spurious(w) => CanSpurious(s, w)
    case PushSignal(q, task, c, start) => CanPush(s, q) && CanCall(s, c, start)
    case PushNoSignal(q, task) => CanPush(s, q)
    case PushIgnoreSignal(q, task) => CanPushIgnoreSignal(s, q)
    case Flush(q, c, start) => CanPush(s, q) && CanCall(s, c, start) && s.quiet[q] > 0
    case Bump(c) => CanBump(s, c)
    case WakeOne(c, w) => CanWakeOne(s, c, w)
    case WakeNone(c) => CanWakeNone(s, c)
  }

  ghost function Step(s: State, e: Event): State
    requires Enabled(s, e)
  {
    match e
    case Finish(w) => StepFinish(s, w)
    case TryOwn(w) => StepTryOwn(s, w)
    case TryRemote(w) => StepTryRemote(s, w)
    case SaveState(w) => StepSaveState(s, w)
    case ScanOne(w) => StepScanOne(s, w)
    case EndScan(w) => StepEndScan(s, w)
    case Settle(w) => StepSettle(s, w)
    case EnterWait(w) => StepEnterWait(s, w)
    case Spurious(w) => StepSpurious(s, w)
    case PushSignal(q, task, c, start) => StepPushSignal(s, q, task, c, start)
    case PushNoSignal(q, task) => StepPushNoSignal(s, q, task)
    case PushIgnoreSignal(q, task) => StepPushIgnoreSignal(s, q, task)
    case Flush(q, c, start) => StepFlush(s, q, c, start)
    case Bump(c) => StepBump(s, c)
    case WakeOne(c, w) => StepWakeOne(s, c, w)
    case WakeNone(c) => StepWakeNone(s, c)
  }

  /** A worker starts in wait_task with a default-constructed state, whose value is 0. */
  predicate StartOk(r: Worker) {
    r.pc.Wait? && r.saved == 0 && r.lot < PARKING_LOT_NUM
  }

  ghost predicate Init(s: State) {
    && |s.workers| > 0 && (forall w :: 0 <= w < |s.workers| ==> StartOk(s.workers[w]))
    && (forall q {:trigger q in s.queues} {:trigger q in s.quiet} ::
          (q in s.queues <==> q.g < |s.workers|) && (q in s.quiet <==> q.g < |s.workers|))
    && (forall q {:trigger s.queues[q]} :: q in s.queues ==> s.queues[q] == [])
    && (forall q {:trigger s.quiet[q]} :: q in s.quiet ==> s.quiet[q] == 0)
    && s.lots == [0, 0, 0, 0] && s.calls == map[]
  }

  ghost predicate Executable(s: State, es: seq<Event>)
    decreases |es|
  {
    es != [] ==> Enabled(s, es[0]) && Executable(Step(s, es[0]), es[1..])
  }

  ghost function After(s: State, es: seq<Event>): State
    requires Executable(s, es)
    decreases |es|
  {
    if es == [] then s else After(Step(s, es[0]), es[1..])
  }
}
