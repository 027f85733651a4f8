/** Why a wait on a butex ends: every wait that returns has one reason, and the state left in the waiter
    tells which. */
module ButexReasons {
  import opened Wrappers
  import opened ButexModel
  import opened ButexInvariant
  import opened ButexTheorems

  // ---------- who is queued ----------

  /** In every reachable state, and for both kinds of waiter, the check under the lock sends the waiter on to
      the list exactly if the butex value is the one it expects, and then only it holds the lock. */
  lemma AdmittedIffMatches(z: State, w: WaiterId)
    requires Reachable(z) && Enabled(z, CheckValue(w))
    ensures var r, z' := z.waiters[w], Step(z, CheckValue(w));
            var matches := z.butexes[r.target].value == r.expected;
            && (z'.waiters[w].pc == CheckInterrupt <==> matches)
            && (z'.butexes[r.target].holder == Some(w) <==> matches)
            && (!matches ==> z'.waiters[w].pc == (if r.pthread then Taking else Unqueued) && FreeList(z', r.target))
            && (!matches && !r.pthread ==> z'.waiters[w].wstate == Unmatched)
  {
    ReachableInv(z);
    assert WaiterOk(z, w) && ButexOk(z, z.waiters[w].target);
  }

  predicate InterruptFlagged(z: State, r: Waiter) {
    r.task.Some? && r.task.value in z.tasks && z.tasks[r.task.value].interrupted
  }

  /** Past that, it goes on to be queued exactly if its task was not interrupted... */
  lemma QueuedIffNotInterrupted(z: State, w: WaiterId)
    requires Reachable(z) && Enabled(z, CheckFlag(w))
    ensures var r, z' := z.waiters[w], Step(z, CheckFlag(w));
            && (z'.waiters[w].pc == Queueing <==> !InterruptFlagged(z, r))
            && (z'.butexes[r.target].holder == Some(w) <==> !InterruptFlagged(z, r))
            && (InterruptFlagged(z, r) ==> z'.waiters[w].pc == (if r.pthread then Declined else Unqueued))
  {
    ReachableInv(z);
    assert WaiterOk(z, w);
  }

  /** ...and is then the last in the list. */
  lemma EnqueuedLast(z: State, w: WaiterId)
    requires Enabled(z, Enqueue(w))
    ensures var b, z' := z.waiters[w].target, Step(z, Enqueue(w));
            z'.butexes[b].queue == z.butexes[b].queue + [w] && FreeList(z', b) && z'.waiters[w].container == Some(b)
  {}

  // ---------- reasons ----------

  /** What keeps a waiter out of the list or takes it out. */
  datatype Reason = SawOtherValue | SawInterrupt | TakenBy(a: AgentId) | DeadlinePassed | InterruptedBy(a: AgentId)

  /** `w` was in a list and is no longer. */
  predicate LeavesList(s: State, s': State, w: WaiterId) {
    && w in s.waiters && s.waiters[w].container.Some?
    && w in s'.waiters && s'.waiters[w].container == None
  }

  predicate SeesOtherValue(s: State, w: WaiterId) {
    && w in s.waiters && s.waiters[w].target in s.butexes
    && s.butexes[s.waiters[w].target].value != s.waiters[w].expected
  }

  predicate SeesInterrupt(s: State, w: WaiterId) {
    w in s.waiters && InterruptFlagged(s, s.waiters[w])
  }

  /** The reason event `e` from `s` to `s'` gives waiter `w`, if any: the value it found, the flag it found, or
      who took it out of its list. */
  function ReasonOf(s: State, e: Event, s': State, w: WaiterId): seq<Reason> {
    match e
    case CheckValue(v) => if v == w && SeesOtherValue(s, w) then [SawOtherValue] else []
    case CheckFlag(v) => if v == w && SeesInterrupt(s, w) then [SawInterrupt] else []
    case Wake(a, _) => if LeavesList(s, s', w) then [TakenBy(a)] else []
    case WakeAll(a, _) => if LeavesList(s, s', w) then [TakenBy(a)] else []
    case WakeExcept(a, _, _) => if LeavesList(s, s', w) then [TakenBy(a)] else []
    case Requeue(a, _, _) => if LeavesList(s, s', w) then [TakenBy(a)] else []
    case TimerErase(v) => if v == w && LeavesList(s, s', w) then [DeadlinePassed] else []
    case EraseSelf(v) => if v == w && LeavesList(s, s', w) then [DeadlinePassed] else []
    case InterruptErase(a) => if LeavesList(s, s', w) then [InterruptedBy(a)] else []
    case _ => []
  }

  /** All reasons that a run gives waiter `w`. */
  function Reasons(s: State, es: seq<Event>, w: WaiterId): seq<Reason>
    requires Executable(s, es)
    decreases |es|
  {
    if es == [] then [] else ReasonOf(s, es[0], Step(s, es[0]), w) + Reasons(Step(s, es[0]), es[1..], w)
  }

  /** The state a bthread finds in its waiter. */
  function AnswerFor(x: Reason): WaiterState {
    match x
    case SawOtherValue => Unmatched
    case SawInterrupt => Ready
    case TakenBy(_) => Ready
    case DeadlinePassed => TimedOut
    case InterruptedBy(_) => Interrupted
  }

  /** Who is to rouse a waiter that has reason `x`; pthreads that were refused rouse themselves. */
  predicate ClaimFits(r: Waiter, x: Reason) {
    match x
    case SawOtherValue => r.claim == if r.pthread then Unclaimed else if r.readied == 0 then ByCallback else Woken
    case SawInterrupt => r.claim == if r.pthread then Unclaimed else if r.readied == 0 then ByCallback else Woken
    case TakenBy(a) => r.claim == ByWaker(a) || r.claim == Woken
    case DeadlinePassed => r.timed && if r.pthread then r.claim == ByItself else r.claim == ByTimer || r.claim == Woken
    case InterruptedBy(a) => r.claim == ByInterrupter(a) || r.claim == Woken
  }

  ghost predicate Fits(r: Waiter, xs: seq<Reason>) {
    && |xs| <= 1
    && (xs == [] <==> BeforeQueue(r.pc) || r.container.Some?)
    && (xs == [] ==> r.wstate == Ready && r.claim == Unclaimed)
    && (xs != [] ==> ClaimFits(r, xs[0]) && r.wstate == if r.pthread then Ready else AnswerFor(xs[0]))
    && (!r.timed ==> r.timer == NoTimer && !r.pc.SelfErase?)
  }

  // ---------- every event ----------

  /** What event `e` leaves of waiter `w` in `s'` fits the reasons it had with the one it gets. */
  ghost predicate StillFits(s: State, e: Event, s': State, w: WaiterId, xs: seq<Reason>) {
    w in s'.waiters && Fits(s'.waiters[w], xs + ReasonOf(s, e, s', w))
  }

  ghost predicate Consistent(r: Waiter) {
    PhaseOk(r) && TimerOk(r) && CountOk(r)
  }

  lemma NoReason(s: State, e: Event, s': State, w: WaiterId, xs: seq<Reason>)
    requires w in s'.waiters && Fits(s'.waiters[w], xs) && ReasonOf(s, e, s', w) == []
    ensures StillFits(s, e, s', w, xs)
  {
    assert xs + [] == xs;
  }

  lemma FirstReason(s: State, e: Event, s': State, w: WaiterId, xs: seq<Reason>, x: Reason)
    requires w in s'.waiters && xs == [] && Fits(s'.waiters[w], [x]) && ReasonOf(s, e, s', w) == [x]
    ensures StillFits(s, e, s', w, xs)
  {
    assert xs + [x] == [x];
  }

  lemma RecordFits(r: Waiter, e: Event, xs: seq<Reason>)
    requires RecordStep(e) && RecordGuard(r, e) && Consistent(r) && Fits(r, xs)
    ensures Fits(RecordAfter(r, e), xs)
  {}

  lemma OneChangeFits(s: State, e: Event, s': State, v: WaiterId, r2: Waiter, w: WaiterId, xs: seq<Reason>)
    requires w in s.waiters && s'.waiters == s.waiters[v := r2]
    requires if w == v then Fits(r2, xs) else Fits(s.waiters[w], xs)
    requires ReasonOf(s, e, s', w) == []
    ensures StillFits(s, e, s', w, xs)
  {
    NoReason(s, e, s', w, xs);
  }

  lemma RecordStepFits(s: State, e: Event, w: WaiterId, xs: seq<Reason>)
    requires RecordStep(e) && e.w in s.waiters && RecordGuard(s.waiters[e.w], e)
    requires w in s.waiters && Consistent(s.waiters[w]) && Fits(s.waiters[w], xs)
    ensures StillFits(s, e, SetWaiter(s, e.w, RecordAfter(s.waiters[e.w], e)), w, xs)
  {
    if e.w == w { RecordFits(s.waiters[w], e, xs); }
    OneChangeFits(s, e, SetWaiter(s, e.w, RecordAfter(s.waiters[e.w], e)), e.w, RecordAfter(s.waiters[e.w], e), w, xs);
  }

  /** The check under the lock, on the record. */
  lemma RefusedFits(r: Waiter, r2: Waiter, x: Reason, xs: seq<Reason>)
    requires Consistent(r) && Fits(r, xs) && BeforeQueue(r.pc) && (x == SawOtherValue || x == SawInterrupt)
    requires if r.pthread then r2 == r.(pc := r2.pc) && (r2.pc == Taking || r2.pc == Declined)
             else r2 == r.(pc := Unqueued, claim := ByCallback, wstate := AnswerFor(x))
    ensures xs == [] && Fits(r2, [x])
  {}

  lemma CheckValueFits(s: State, v: WaiterId, w: WaiterId, xs: seq<Reason>)
    requires CanCheckValue(s, v) && w in s.waiters && Consistent(s.waiters[w]) && Fits(s.waiters[w], xs)
    requires BeforeQueue(s.waiters[w].pc) ==> s.waiters[w].wstate == Ready
    ensures StillFits(s, CheckValue(v), StepCheckValue(s, v), w, xs)
  {
    var s' := StepCheckValue(s, v);
    if v == w && SeesOtherValue(s, w) {
      RefusedFits(s.waiters[w], s'.waiters[w], SawOtherValue, xs);
      FirstReason(s, CheckValue(v), s', w, xs, SawOtherValue);
    } else {
      NoReason(s, CheckValue(v), s', w, xs);
    }
  }

  lemma CheckFlagFits(s: State, v: WaiterId, w: WaiterId, xs: seq<Reason>)
    requires CanCheckFlag(s, v) && w in s.waiters && Consistent(s.waiters[w]) && Fits(s.waiters[w], xs)
    ensures StillFits(s, CheckFlag(v), StepCheckFlag(s, v), w, xs)
  {
    var s' := StepCheckFlag(s, v);
    if v == w && SeesInterrupt(s, w) {
      RefusedFits(s.waiters[w], s'.waiters[w], SawInterrupt, xs);
      FirstReason(s, CheckFlag(v), s', w, xs, SawInterrupt);
    } else {
      NoReason(s, CheckFlag(v), s', w, xs);
    }
  }

  predicate Unlinked(r: Waiter, r2: Waiter) {
    r.container.Some? && r2.container == None
  }

  /** `r2` is `r` after a step of an erase that would give reason `x`. */
  ghost predicate ErasedFits(r: Waiter, r2: Waiter, x: Reason, xs: seq<Reason>) {
    if Unlinked(r, r2) then xs == [] && Fits(r2, [x]) else Fits(r2, xs)
  }

  lemma SelfRecordFits(r: Waiter, xs: seq<Reason>)
    requires Consistent(r) && Fits(r, xs) && r.pc.SelfErase?
    ensures var r2 := ErasedRecord(r, r.pc.step, ByItself, TimedOut).(pc := PcAfterErase(NextStep(r, r.pc.step)));
            ErasedFits(r, r2, DeadlinePassed, xs)
  {}

  lemma TimerRecordFits(r: Waiter, xs: seq<Reason>)
    requires Consistent(r) && Fits(r, xs) && r.timer.Firing?
    ensures var step := r.timer.step;
            var r2 := ErasedRecord(r, step, ByTimer, TimedOut).(timer := Firing(NextStep(r, step)));
            ErasedFits(r, r2, DeadlinePassed, xs)
  {}

  lemma InterruptRecordFits(r: Waiter, step: EraseStep, a: AgentId, xs: seq<Reason>)
    requires Consistent(r) && Fits(r, xs) && (step == MakeReady ==> r.claim == ByInterrupter(a))
    ensures ErasedFits(r, ErasedRecord(r, step, ByInterrupter(a), Interrupted), InterruptedBy(a), xs)
  {}

  /** Event `e` is a step of an erase of `v`, and leaves its record as `r2`. */
  lemma ErasedStepFits(s: State, e: Event, s': State, v: WaiterId, r2: Waiter, x: Reason, w: WaiterId, xs: seq<Reason>)
    requires v in s.waiters && w in s.waiters && s'.waiters == s.waiters[v := r2]
    requires Fits(s.waiters[w], xs) && (w == v ==> ErasedFits(s.waiters[v], r2, x, xs))
    requires ReasonOf(s, e, s', w) == if w == v && Unlinked(s.waiters[v], r2) then [x] else []
    ensures StillFits(s, e, s', w, xs)
  {
    if w == v && Unlinked(s.waiters[v], r2) { FirstReason(s, e, s', w, xs, x); } else { NoReason(s, e, s', w, xs); }
  }

  lemma EraseSelfFits(s: State, v: WaiterId, w: WaiterId, xs: seq<Reason>)
    requires CanEraseSelf(s, v) && w in s.waiters && Consistent(s.waiters[w]) && Fits(s.waiters[w], xs)
    ensures StillFits(s, EraseSelf(v), StepEraseSelf(s, v), w, xs)
  {
    var r := s.waiters[v];
    var r2 := ErasedRecord(r, r.pc.step, ByItself, TimedOut).(pc := PcAfterErase(NextStep(r, r.pc.step)));
    if w == v { SelfRecordFits(r, xs); }
    ErasedStepFits(s, EraseSelf(v), StepEraseSelf(s, v), v, r2, DeadlinePassed, w, xs);
  }

  lemma TimerEraseFits(s: State, v: WaiterId, w: WaiterId, xs: seq<Reason>)
    requires CanTimerErase(s, v) && w in s.waiters && Consistent(s.waiters[w]) && Fits(s.waiters[w], xs)
    ensures StillFits(s, TimerErase(v), StepTimerErase(s, v), w, xs)
  {
    var r := s.waiters[v];
    var r2 := ErasedRecord(r, r.timer.step, ByTimer, TimedOut).(timer := Firing(NextStep(r, r.timer.step)));
    if w == v { TimerRecordFits(r, xs); }
    ErasedStepFits(s, TimerErase(v), StepTimerErase(s, v), v, r2, DeadlinePassed, w, xs);
  }

  lemma InterruptEraseFits(s: State, a: AgentId, w: WaiterId, xs: seq<Reason>)
    requires CanInterruptErase(s, a) && w in s.waiters && Consistent(s.waiters[w]) && Fits(s.waiters[w], xs)
    requires s.agents[a].w == w && s.agents[a].step == MakeReady ==> s.waiters[w].claim == ByInterrupter(a)
    ensures StillFits(s, InterruptErase(a), StepInterruptErase(s, a), w, xs)
  {
    var v, step := s.agents[a].w, s.agents[a].step;
    var r2 := ErasedRecord(s.waiters[v], step, ByInterrupter(a), Interrupted);
    if w == v { InterruptRecordFits(s.waiters[v], step, a, xs); }
    ErasedStepFits(s, InterruptErase(a), StepInterruptErase(s, a), v, r2, InterruptedBy(a), w, xs);
  }

  predicate PcMoves(p: Pc, q: Pc) {
    || (p == Preparing && q == Published) || (p == Declined && q == Taking) || (p == Clearing && q == Returned)
    || (p == Taking && (q == Clearing || q == Returned))
  }

  /** The wait goes through its own code, into the list and to its return. */
  predicate WalksOn(r: Waiter, r2: Waiter) {
    || (PcMoves(r.pc, r2.pc) && r2 == r.(pc := r2.pc))
    || (r.pc == Queueing && r2.container.Some? && r2 == r.(pc := Parked, container := r2.container))
  }

  /** Others mark it, move it from list to list, or rouse it. */
  predicate IsHandled(r: Waiter, r2: Waiter) {
    || r2 == r.(deaf := r2.deaf, late := r2.late)
    || (r.container.Some? && r2.container.Some? && r2 == r.(container := r2.container))
    || (r.claim.ByWaker? && (r2 == Unslept(r) || r2 == Roused(r)))
  }

  /** The record moves on without a reason. */
  predicate MovesOn(r: Waiter, r2: Waiter) {
    WalksOn(r, r2) || IsHandled(r, r2)
  }

  lemma WalkedFits(r: Waiter, r2: Waiter, xs: seq<Reason>)
    requires Consistent(r) && Fits(r, xs) && WalksOn(r, r2)
    ensures Fits(r2, xs)
  {}

  lemma HandledFits(r: Waiter, r2: Waiter, xs: seq<Reason>)
    requires Consistent(r) && Fits(r, xs) && IsHandled(r, r2)
    ensures Fits(r2, xs)
  {}

  lemma MovedFits(s: State, e: Event, s': State, w: WaiterId, xs: seq<Reason>)
    requires w in s.waiters && w in s'.waiters && Consistent(s.waiters[w]) && Fits(s.waiters[w], xs)
    requires MovesOn(s.waiters[w], s'.waiters[w]) && ReasonOf(s, e, s', w) == []
    ensures StillFits(s, e, s', w, xs)
  {
    if WalksOn(s.waiters[w], s'.waiters[w]) { WalkedFits(s.waiters[w], s'.waiters[w], xs); }
    else { HandledFits(s.waiters[w], s'.waiters[w], xs); }
    NoReason(s, e, s', w, xs);
  }

  predicate Moving(e: Event) {
    || e.BeginBthread? || e.BeginPthread? || e.Publish? || e.Decline? || e.Enqueue? || e.SpinTake? || e.ClearFlag?
    || e.Store? || e.InterruptTake? || e.InterruptFlag? || e.PutBack?
  }

  lemma BeginMoves(s: State, v: WaiterId, r: Waiter, w: WaiterId)
    requires v !in s.waiters && w in s.waiters && (r.task.Some? ==> r.task.value in s.tasks)
    ensures w in StepBegin(s, v, r).waiters && StepBegin(s, v, r).waiters[w] == s.waiters[w]
  {}

  lemma PcStepMoves(s: State, s': State, v: WaiterId, q: Pc, w: WaiterId)
    requires v in s.waiters && w in s.waiters && s'.waiters == s.waiters[v := s.waiters[v].(pc := q)]
    requires PcMoves(s.waiters[v].pc, q)
    ensures w in s'.waiters && MovesOn(s.waiters[w], s'.waiters[w])
  {}

  lemma SpinMoves(s: State, v: WaiterId, w: WaiterId)
    requires CanSpinTake(s, v) && w in s.waiters
    ensures w in StepSpinTake(s, v).waiters && MovesOn(s.waiters[w], StepSpinTake(s, v).waiters[w])
  {
    var s' := StepSpinTake(s, v);
    if s'.waiters != s.waiters { PcStepMoves(s, s', v, s'.waiters[v].pc, w); }
    else { assert MovesOn(s.waiters[w], s.waiters[w]); }
  }

  lemma EnqueueMoves(s: State, v: WaiterId, w: WaiterId)
    requires CanEnqueue(s, v) && w in s.waiters
    ensures w in StepEnqueue(s, v).waiters && MovesOn(s.waiters[w], StepEnqueue(s, v).waiters[w])
  {}

  lemma WaiterMoves(s: State, e: Event, w: WaiterId)
    requires Enabled(s, e) && w in s.waiters
    requires e.Publish? || e.Decline? || e.Enqueue? || e.SpinTake? || e.ClearFlag?
    ensures w in Step(s, e).waiters && MovesOn(s.waiters[w], Step(s, e).waiters[w])
  {
    match e {
      case Publish(v) => PcStepMoves(s, StepPublish(s, v), v, Published, w);
      case Decline(v) => PcStepMoves(s, StepDecline(s, v), v, Taking, w);
      case ClearFlag(v) => PcStepMoves(s, StepClearFlag(s, v), v, Returned, w);
      case SpinTake(v) => SpinMoves(s, v, w);
      case Enqueue(v) => EnqueueMoves(s, v, w);
    }
  }

  lemma MarkMoves(s: State, s': State, v: WaiterId, deaf: bool, late: bool, w: WaiterId)
    requires v in s.waiters && w in s.waiters && s'.waiters == s.waiters[v := s.waiters[v].(deaf := deaf, late := late)]
    ensures w in s'.waiters && MovesOn(s.waiters[w], s'.waiters[w])
  {}

  lemma TakeMoves(s: State, a: AgentId, t: TaskId, w: WaiterId)
    requires CanInterruptTake(s, a, t) && w in s.waiters
    ensures w in StepInterruptTake(s, a, t).waiters && MovesOn(s.waiters[w], StepInterruptTake(s, a, t).waiters[w])
  {
    var found := s.tasks[t].current;
    if found.Some? { MarkMoves(s, StepInterruptTake(s, a, t), found.value, false, false, w); }
    else { assert MovesOn(s.waiters[w], s.waiters[w]); }
  }

  lemma FlagMoves(s: State, a: AgentId, w: WaiterId)
    requires CanInterruptFlag(s, a) && w in s.waiters
    ensures w in StepInterruptFlag(s, a).waiters && MovesOn(s.waiters[w], StepInterruptFlag(s, a).waiters[w])
  {
    var Flagging(t, found) := s.agents[a];
    var x := s.tasks[t];
    if FlagsLate(s, x, found) {
      MarkMoves(s, StepInterruptFlag(s, a), x.active.value, s.waiters[x.active.value].deaf, true, w);
    } else {
      assert MovesOn(s.waiters[w], s.waiters[w]);
    }
  }

  lemma InterrupterMoves(s: State, e: Event, w: WaiterId)
    requires Enabled(s, e) && w in s.waiters
    requires e.Store? || e.InterruptTake? || e.InterruptFlag? || e.PutBack?
    ensures w in Step(s, e).waiters && MovesOn(s.waiters[w], Step(s, e).waiters[w])
  {
    if e.InterruptTake? { TakeMoves(s, e.a, e.t, w); }
    else if e.InterruptFlag? { FlagMoves(s, e.a, w); }
  }

  lemma MovingFits(s: State, e: Event, w: WaiterId, xs: seq<Reason>)
    requires Enabled(s, e) && Moving(e) && w in s.waiters && Consistent(s.waiters[w]) && Fits(s.waiters[w], xs)
    ensures StillFits(s, e, Step(s, e), w, xs)
  {
    if e.Store? || e.InterruptTake? || e.InterruptFlag? || e.PutBack? { InterrupterMoves(s, e, w); }
    else if e.BeginBthread? { BeginMoves(s, e.w, FreshWaiter(Some(e.t), false, e.b, e.expected, e.timed), w); }
    else if e.BeginPthread? { BeginMoves(s, e.w, FreshWaiter(e.task, true, e.b, e.expected, e.timed), w); }
    else { WaiterMoves(s, e, w); }
    MovedFits(s, e, Step(s, e), w, xs);
  }

  lemma WorkFits(s: State, a: AgentId, w: WaiterId, xs: seq<Reason>)
    requires CanWork(s, a) && w in s.waiters && Consistent(s.waiters[w]) && Fits(s.waiters[w], xs)
    requires s.agents[a].todo[0].w == w ==> s.waiters[w].claim == ByWaker(a)
    ensures StillFits(s, Work(a), StepWork(s, a), w, xs)
  {
    MovedFits(s, Work(a), StepWork(s, a), w, xs);
  }

  // ---------- wakes ----------

  predicate Takes(e: Event) {
    e.Wake? || e.WakeAll? || e.WakeExcept? || e.Requeue?
  }

  /** `w` is not concerned, is moved to another list, or is taken out of its list by `a`. */
  predicate TakenOrMoved(r: Waiter, r2: Waiter, a: AgentId) {
    || MovesOn(r, r2) || (r.container.Some? && r2 == r.(container := None, claim := ByWaker(a)))
  }

  lemma TakingFits(s: State, e: Event, s': State, w: WaiterId, xs: seq<Reason>)
    requires Takes(e) && w in s.waiters && w in s'.waiters && Consistent(s.waiters[w]) && Fits(s.waiters[w], xs)
    requires TakenOrMoved(s.waiters[w], s'.waiters[w], e.a)
    ensures StillFits(s, e, s', w, xs)
  {
    if LeavesList(s, s', w) { FirstReason(s, e, s', w, xs, TakenBy(e.a)); }
    else { MovedFits(s, e, s', w, xs); }
  }

  lemma OutTaken(s: State, a: AgentId, b: ButexId, out: seq<WaiterId>, rest: seq<WaiterId>, plan: seq<Op>, w: WaiterId)
    requires b in s.butexes && w in s.waiters && (w in out ==> s.waiters[w].container.Some?)
    ensures w in TakeFrom(s, a, b, out, rest, plan).waiters
    ensures TakenOrMoved(s.waiters[w], TakeFrom(s, a, b, out, rest, plan).waiters[w], a)
  {}

  lemma WakeTakes(s: State, a: AgentId, b: ButexId, w: WaiterId)
    requires CanWake(s, a, b) && w in s.waiters && (w in s.butexes[b].queue ==> s.waiters[w].container.Some?)
    ensures w in StepWake(s, a, b).waiters && TakenOrMoved(s.waiters[w], StepWake(s, a, b).waiters[w], a)
  {}

  lemma WakeAllTakes(s: State, a: AgentId, b: ButexId, w: WaiterId)
    requires CanWakeAll(s, a, b) && w in s.waiters && (w in s.butexes[b].queue ==> s.waiters[w].container.Some?)
    ensures w in StepWakeAll(s, a, b).waiters && TakenOrMoved(s.waiters[w], StepWakeAll(s, a, b).waiters[w], a)
  {
    var q := s.butexes[b].queue;
    OutTaken(s, a, b, q, [], AllPlan(Pthreads(s.waiters, q), Bthreads(s.waiters, q)), w);
  }

  lemma {:induction false} DroppedAreQueued(ws: map<WaiterId, Waiter>, q: seq<WaiterId>, x: TaskId, w: WaiterId)
    ensures w in Dropped(ws, q, x) ==> w in q
  {
    if q != [] { DroppedAreQueued(ws, q[1..], x, w); }
  }

  lemma WakeExceptTakes(s: State, a: AgentId, b: ButexId, x: TaskId, w: WaiterId)
    requires CanWake(s, a, b) && w in s.waiters && (w in s.butexes[b].queue ==> s.waiters[w].container.Some?)
    ensures w in StepWakeExcept(s, a, b, x).waiters
    ensures TakenOrMoved(s.waiters[w], StepWakeExcept(s, a, b, x).waiters[w], a)
  {
    var q := s.butexes[b].queue;
    var out := Dropped(s.waiters, q, x);
    DroppedAreQueued(s.waiters, q, x, w);
    OutTaken(s, a, b, out, Kept(s.waiters, q, x), ExceptPlan(Pthreads(s.waiters, out), Bthreads(s.waiters, out)), w);
  }

  lemma RequeueTakes(s: State, a: AgentId, b: ButexId, m: ButexId, w: WaiterId)
    requires CanRequeue(s, a, b, m) && w in s.waiters && NoDuplicates(s.butexes[b].queue)
    requires w in s.butexes[b].queue ==> s.waiters[w].container.Some?
    ensures w in StepRequeue(s, a, b, m).waiters && TakenOrMoved(s.waiters[w], StepRequeue(s, a, b, m).waiters[w], a)
  {
    var q := s.butexes[b].queue;
    if q != [] {
      assert q[0] !in q[1..];
      assert forall v :: v in q <==> v == q[0] || v in q[1..];
    }
  }

  lemma WakeFits(s: State, e: Event, w: WaiterId, xs: seq<Reason>)
    requires Enabled(s, e) && w in s.waiters && Fits(s.waiters[w], xs) && Takes(e) && Consistent(s.waiters[w])
    requires w in s.butexes[e.b].queue ==> s.waiters[w].container.Some?
    requires NoDuplicates(s.butexes[e.b].queue)
    ensures StillFits(s, e, Step(s, e), w, xs)
  {
    match e {
      case Wake(a, b) => WakeTakes(s, a, b, w);
      case WakeAll(a, b) => WakeAllTakes(s, a, b, w);
      case WakeExcept(a, b, x) => WakeExceptTakes(s, a, b, x, w);
      case Requeue(a, b, m) => RequeueTakes(s, a, b, m, w);
    }
    TakingFits(s, e, Step(s, e), w, xs);
  }

  lemma QueuedWaiter(s: State, b: ButexId, w: WaiterId)
    requires Inv(s) && b in s.butexes && w in s.waiters
    ensures w in s.butexes[b].queue ==> s.waiters[w].container.Some?
    ensures Consistent(s.waiters[w]) && NoDuplicates(s.butexes[b].queue)
  {
    assert WaiterOk(s, w) && ButexOk(s, b);
  }

  // ---------- every run ----------

  /** The steps of the waiter itself and of its timer callback. */
  lemma WaiterFits(s: State, e: Event, w: WaiterId, xs: seq<Reason>)
    requires Enabled(s, e) && w in s.waiters && Consistent(s.waiters[w]) && Fits(s.waiters[w], xs)
    requires BeforeQueue(s.waiters[w].pc) ==> s.waiters[w].wstate == Ready
    requires e.CheckValue? || e.CheckFlag? || e.EraseSelf? || e.TimerErase?
    ensures StillFits(s, e, Step(s, e), w, xs)
  {
    match e {
      case CheckValue(v) => CheckValueFits(s, v, w, xs);
      case CheckFlag(v) => CheckFlagFits(s, v, w, xs);
      case EraseSelf(v) => EraseSelfFits(s, v, w, xs);
      case TimerErase(v) => TimerEraseFits(s, v, w, xs);
    }
  }

  /** The steps of those that rouse it. */
  lemma AgentFits(s: State, e: Event, w: WaiterId, xs: seq<Reason>)
    requires Enabled(s, e) && w in s.waiters && Consistent(s.waiters[w]) && Fits(s.waiters[w], xs)
    requires (e.InterruptErase? || e.Work?) && AgentOk(s, e.a)
    ensures StillFits(s, e, Step(s, e), w, xs)
  {
    match e {
      case InterruptErase(a) => InterruptEraseFits(s, a, w, xs);
      case Work(a) =>
        assert s.agents[a].todo[0] in s.agents[a].todo;
        WorkFits(s, a, w, xs);
    }
  }

  lemma StepFits(s: State, e: Event, w: WaiterId, xs: seq<Reason>)
    requires Inv(s) && Enabled(s, e) && w in s.waiters && Fits(s.waiters[w], xs)
    ensures StillFits(s, e, Step(s, e), w, xs)
  {
    assert WaiterOk(s, w);
    if RecordStep(e) { RecordStepFits(s, e, w, xs); }
    else if Takes(e) { QueuedWaiter(s, e.b, w); WakeFits(s, e, w, xs); }
    else if Moving(e) { MovingFits(s, e, w, xs); }
    else if e.InterruptErase? || e.Work? { assert AgentOk(s, e.a); AgentFits(s, e, w, xs); }
    else { WaiterFits(s, e, w, xs); }
  }

  lemma TakersAddNobody(s: State, e: Event, w: WaiterId)
    requires Enabled(s, e) && Takes(e) && w !in s.waiters
    ensures w !in Step(s, e).waiters
  {}

  /** A waiter that does not exist yet gets no reason. */
  lemma NewFits(s: State, e: Event, w: WaiterId)
    requires Enabled(s, e) && w !in s.waiters
    ensures ReasonOf(s, e, Step(s, e), w) == []
    ensures w in Step(s, e).waiters ==> Fits(Step(s, e).waiters[w], [])
  {
    if Takes(e) { TakersAddNobody(s, e, w); }
    else { assert w in Step(s, e).waiters ==> (e.BeginBthread? || e.BeginPthread?) && e.w == w; }
  }

  lemma AppendAssoc<T>(a: seq<T>, b: seq<T>, c: seq<T>)
    ensures a + (b + c) == (a + b) + c
  {}

  lemma {:induction false} RunFits(s: State, es: seq<Event>, w: WaiterId, xs: seq<Reason>)
    requires Inv(s) && Executable(s, es) && (if w in s.waiters then Fits(s.waiters[w], xs) else xs == [])
    ensures w in After(s, es).waiters ==> Fits(After(s, es).waiters[w], xs + Reasons(s, es, w))
    decreases |es|
  {
    if es == [] {
      assert xs + [] == xs;
    } else {
      var s1 := Step(s, es[0]);
      var x := ReasonOf(s, es[0], s1, w);
      StepInv(s, es[0]);
      if w in s.waiters { StepFits(s, es[0], w, xs); } else { NewFits(s, es[0], w); }
      RunFits(s1, es[1..], w, xs + x);
      AppendAssoc(xs, x, Reasons(s1, es[1..], w));
    }
  }

  lemma RunFromInit(s: State, es: seq<Event>, w: WaiterId)
    requires Init(s) && Executable(s, es) && w in After(s, es).waiters
    ensures Fits(After(s, es).waiters[w], Reasons(s, es, w)) && Consistent(After(s, es).waiters[w])
    ensures Inv(After(s, es))
  {
    InitInv(s);
    RunInv(s, es);
    assert WaiterOk(After(s, es), w);
    RunFits(s, es, w, []);
    assert [] + Reasons(s, es, w) == Reasons(s, es, w);
  }

  /** Every wait has at most one reason to end, and has none as long as it is on its way to a list or in one.
      So a wait that returns was woken, has timed out, was interrupted, or saw another value or the flag: one
      of these, and once. It times out only if it has a deadline. */
  lemma OneReason(s: State, es: seq<Event>, w: WaiterId)
    requires Init(s) && Executable(s, es) && w in After(s, es).waiters
    ensures var r, xs := After(s, es).waiters[w], Reasons(s, es, w);
            && |xs| <= 1
            && (xs == [] <==> BeforeQueue(r.pc) || exists b: ButexId :: Queued(After(s, es), b, w))
            && (r.pc == Returned ==> |xs| == 1)
            && (xs == [DeadlinePassed] ==> r.timed)
  {
    RunFromInit(s, es, w);
    var z := After(s, es);
    assert WaiterOk(z, w);
    if z.waiters[w].container.Some? { assert Queued(z, z.waiters[w].container.value, w); }
    if b: ButexId :| Queued(z, b, w) { assert ButexOk(z, b); }
  }

  predicate FoundByItself(x: Reason) {
    x.SawOtherValue? || x.SawInterrupt? || x.DeadlinePassed?
  }

  /** The answer in a waiter whose wait has returned for reasons `xs`. */
  predicate Answered(r: Waiter, xs: seq<Reason>) {
    && |xs| == 1 && (!r.pthread ==> r.wstate == AnswerFor(xs[0]))
    && r.readied == if r.pthread && FoundByItself(xs[0]) then 0 else 1
  }

  lemma FitsAnswered(r: Waiter, xs: seq<Reason>)
    requires Consistent(r) && Fits(r, xs) && r.pc == Returned
    ensures Answered(r, xs)
  {}

  /** The state left in the waiter is the answer to that reason, and the tid is pushed, or the pthread
      signalled, for every reason but those that a pthread finds itself. */
  lemma AnswerTellsReason(s: State, es: seq<Event>, w: WaiterId)
    requires Init(s) && Executable(s, es) && w in After(s, es).waiters && After(s, es).waiters[w].pc == Returned
    ensures Answered(After(s, es).waiters[w], Reasons(s, es, w))
  {
    RunFromInit(s, es, w);
    FitsAnswered(After(s, es).waiters[w], Reasons(s, es, w));
  }
}
