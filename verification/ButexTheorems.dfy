/** What the butex protocol guarantees in every reachable state. */
module ButexTheorems {
  import opened Wrappers
  import opened ButexModel
  import opened ButexInvariant
  import opened ButexWaiting
  import opened ButexErasing
  import opened ButexWaking

  // ---------- every step, every run ----------

  lemma StepInv(s: State, e: Event)
    requires Inv(s) && Enabled(s, e)
    ensures Inv(Step(s, e))
  {
    if RecordStep(e) {
      RecordStepInv(s, e);
    } else {
      match e {
        case BeginBthread(w, t, b, expected, timed) => BeginInv(s, w, FreshWaiter(Some(t), false, b, expected, timed));
        case BeginPthread(w, task, b, expected, timed) => BeginInv(s, w, FreshWaiter(task, true, b, expected, timed));
        case Publish(w) => PublishInv(s, w);
        case CheckValue(w) => CheckValueInv(s, w);
        case CheckFlag(w) => CheckFlagInv(s, w);
        case Decline(w) => DeclineInv(s, w);
        case Enqueue(w) => EnqueueInv(s, w);
        case EraseSelf(w) => EraseSelfInv(s, w);
        case TimerErase(w) => TimerEraseInv(s, w);
        case SpinTake(w) => SpinTakeInv(s, w);
        case ClearFlag(w) => ClearFlagInv(s, w);
        case Wake(a, b) => WakeInv(s, a, b);
        case WakeAll(a, b) => WakeAllInv(s, a, b);
        case WakeExcept(a, b, excluded) => WakeExceptInv(s, a, b, excluded);
        case Requeue(a, b, m) => RequeueInv(s, a, b, m);
        case Work(a) => WorkInv(s, a);
        case Store(a, b, v) => StoreInv(s, a, b, v);
        case InterruptTake(a, t) => InterruptTakeInv(s, a, t);
        case InterruptFlag(a) => InterruptFlagInv(s, a);
        case InterruptErase(a) => InterruptEraseInv(s, a);
        case PutBack(a) => PutBackInv(s, a);
      }
    }
  }

  /** The events of `es` can happen one after the other from `s`. */
  predicate Executable(s: State, es: seq<Event>)
    decreases |es|
  {
    es != [] ==> Enabled(s, es[0]) && Executable(Step(s, es[0]), es[1..])
  }

  function After(s: State, es: seq<Event>): State
    requires Executable(s, es)
    decreases |es|
  {
    if es == [] then s else After(Step(s, es[0]), es[1..])
  }

  lemma {:induction false} RunInv(s: State, es: seq<Event>)
    requires Inv(s) && Executable(s, es)
    ensures Inv(After(s, es))
    decreases |es|
  {
    if es != [] {
      StepInv(s, es[0]);
      RunInv(Step(s, es[0]), es[1..]);
    }
  }

  /** `z` occurs in some run. */
  ghost predicate Reachable(z: State) {
    exists s, es :: Init(s) && Executable(s, es) && After(s, es) == z
  }

  lemma ReachableInv(z: State)
    requires Reachable(z)
    ensures Inv(z)
  {
    var s, es :| Init(s) && Executable(s, es) && After(s, es) == z;
    InitInv(s);
    RunInv(s, es);
  }

  lemma {:induction false} RunExtends(s: State, es: seq<Event>, e: Event)
    requires Executable(s, es) && Enabled(After(s, es), e)
    ensures Executable(s, es + [e]) && After(s, es + [e]) == Step(After(s, es), e)
    decreases |es|
  {
    if es == [] {
      assert es + [e] == [e];
    } else {
      RunExtends(Step(s, es[0]), es[1..], e);
      assert (es + [e])[1..] == es[1..] + [e];
    }
  }

  lemma ReachableStep(z: State, e: Event)
    requires Reachable(z) && Enabled(z, e)
    ensures Reachable(Step(z, e))
  {
    var s, es :| Init(s) && Executable(s, es) && After(s, es) == z;
    RunExtends(s, es, e);
    assert Init(s) && Executable(s, es + [e]) && After(s, es + [e]) == Step(z, e);
  }

  // ---------- single ownership ----------

  predicate Queued(z: State, b: ButexId, w: WaiterId) {
    b in z.butexes && w in z.butexes[b].queue
  }

  /** `a` took `w` out of a list and has not roused it yet. */
  ghost predicate HeldBy(z: State, a: AgentId, w: WaiterId) {
    a in z.agents && z.agents[a].Busy? && Rouse(w) in z.agents[a].todo
  }

  predicate HeldByInterrupter(z: State, a: AgentId, w: WaiterId) {
    a in z.agents && z.agents[a].Erasing? && z.agents[a].w == w && z.agents[a].step == MakeReady
  }

  /** The timer callback of `w` unlinked it and is about to make it runnable. */
  predicate HeldByTimer(z: State, w: WaiterId) {
    w in z.waiters && z.waiters[w].timer == Firing(MakeReady)
  }

  /** A waiter is in at most one list, at most once, exactly the one its container names. */
  lemma OneList(z: State, w: WaiterId)
    requires Reachable(z) && w in z.waiters
    ensures forall b: ButexId :: Queued(z, b, w) <==> z.waiters[w].container == Some(b)
    ensures forall b: ButexId :: b in z.butexes ==> NoDuplicates(z.butexes[b].queue)
  {
    ReachableInv(z);
    assert WaiterOk(z, w);
    forall b: ButexId | b in z.butexes ensures NoDuplicates(z.butexes[b].queue) { assert ButexOk(z, b); }
    forall b: ButexId ensures Queued(z, b, w) <==> z.waiters[w].container == Some(b) {
      if b in z.butexes { assert ButexOk(z, b); }
    }
  }

  lemma HolderIsClaim(z: State, a: AgentId, w: WaiterId)
    requires Inv(z) && w in z.waiters
    ensures HeldBy(z, a, w) ==> z.waiters[w].claim == ByWaker(a)
    ensures HeldByInterrupter(z, a, w) ==> z.waiters[w].claim == ByInterrupter(a)
    ensures HeldByTimer(z, w) ==> z.waiters[w].claim == ByTimer
  {
    if a in z.agents { assert AgentOk(z, a); }
    assert WaiterOk(z, w);
  }

  /** A waiter held by a waker, its timer callback or an interrupter is in no list and was not made
      runnable yet, and no second one holds it: no erase can reach a node on a private list. */
  lemma OneHolder(z: State, a: AgentId, c: AgentId, w: WaiterId)
    requires Reachable(z) && w in z.waiters
    ensures HeldBy(z, a, w) || HeldByInterrupter(z, a, w) || HeldByTimer(z, w) ==>
              z.waiters[w].container == None && z.waiters[w].readied == 0
    ensures (HeldBy(z, a, w) || HeldByInterrupter(z, a, w)) && (HeldBy(z, c, w) || HeldByInterrupter(z, c, w)) ==>
              a == c
    ensures !(HeldByTimer(z, w) && (HeldBy(z, a, w) || HeldByInterrupter(z, a, w)))
  {
    ReachableInv(z);
    HolderIsClaim(z, a, w);
    HolderIsClaim(z, c, w);
    assert WaiterOk(z, w);
  }

  /** Each wait makes its tid runnable at most once, and only after leaving every list. */
  lemma RousedAtMostOnce(z: State, w: WaiterId)
    requires Reachable(z) && w in z.waiters
    ensures z.waiters[w].readied <= 1
    ensures z.waiters[w].readied == 1 ==> forall b: ButexId :: !Queued(z, b, w)
  {
    ReachableInv(z);
    assert WaiterOk(z, w);
    OneList(z, w);
  }

  // ---------- lifetime of the on-stack waiter ----------

  /** The next step of agent `a` may read or write the waiter object. */
  ghost predicate MayTouch(z: State, a: AgentId, w: WaiterId) {
    a in z.agents &&
    match z.agents[a]
    case Busy(todo) => exists op :: op in todo && op.w == w
    case Stored(_) => false
    case Flagging(_, found) => found == Some(w)
    case Erasing(_, v, _) => v == w
    case PuttingBack(_, v) => v == w
  }

  lemma ToucherAlive(z: State, a: AgentId, w: WaiterId)
    requires Inv(z) && w in z.waiters && MayTouch(z, a, w)
    ensures z.waiters[w].pc != Returned && z.waiters[w].pc != Clearing
  {
    assert AgentOk(z, a);
    assert WaiterOk(z, w);
    if z.agents[a].Flagging? || z.agents[a].Erasing? || z.agents[a].PuttingBack? { assert TaskOk(z, z.agents[a].t); }
  }

  /** No waker, interrupter, timer callback, list or task refers to a waiter whose wait has returned,
      so nobody reads or writes it on a stack that has moved on. */
  lemma NoUseAfterReturn(z: State, w: WaiterId)
    requires Reachable(z) && w in z.waiters && z.waiters[w].pc == Returned
    ensures forall a: AgentId :: !MayTouch(z, a, w)
    ensures !z.waiters[w].timer.Firing? && z.waiters[w].timer != Armed
    ensures forall b: ButexId :: !Queued(z, b, w)
    ensures forall t: TaskId :: t in z.tasks ==> z.tasks[t].current != Some(w)
  {
    ReachableInv(z);
    assert WaiterOk(z, w);
    forall a: AgentId ensures !MayTouch(z, a, w) {
      if MayTouch(z, a, w) { ToucherAlive(z, a, w); }
    }
    OneList(z, w);
    forall t: TaskId | t in z.tasks ensures z.tasks[t].current != Some(w) { assert TaskOk(z, t); }
  }

  /** The two spins at the end of a wait close the gap: past the first no timer callback runs, past
      the second no interrupter has the waiter, and while the second spins an interrupter does. */
  lemma SpinsExcludeErasers(z: State, w: WaiterId)
    requires Reachable(z) && w in z.waiters
    ensures Leaving(z.waiters[w].pc) ==> !z.waiters[w].timer.Firing? && z.waiters[w].timer != Armed
    ensures z.waiters[w].pc == Clearing ==> forall a: AgentId :: !MayTouch(z, a, w)
    ensures z.waiters[w].pc == Taking && z.waiters[w].task.Some? ==>
              z.waiters[w].task.value in z.tasks &&
              (z.tasks[z.waiters[w].task.value].current == Some(w) || exists a: AgentId :: MayTouch(z, a, w))
  {
    ReachableInv(z);
    assert WaiterOk(z, w);
    forall a: AgentId | z.waiters[w].pc == Clearing ensures !MayTouch(z, a, w) {
      if MayTouch(z, a, w) { ToucherAlive(z, a, w); }
    }
    if z.waiters[w].pc == Taking && z.waiters[w].task.Some? {
      var t := z.waiters[w].task.value;
      assert TaskOk(z, t);
      if z.tasks[t].taker.Some? {
        assert MayTouch(z, z.tasks[t].taker.value, w);
      }
    }
  }

  // ---------- no lost wake-up ----------

  /** On a butex changed only by a store followed by wake_all, every queued waiter expects the
      current value, or some writer has stored and not yet entered its wake_all. */
  lemma NoLostWakeup(z: State, b: ButexId, w: WaiterId)
    requires Reachable(z) && Queued(z, b, w) && b in z.disciplined
    ensures w in z.waiters && (z.waiters[w].expected == z.butexes[b].value || StorePending(z, b))
  {
    ReachableInv(z);
    assert ButexOk(z, b);
    assert DisciplineOk(z, b);
    assert Admitted(z, b, w);
  }

  // ---------- deadlines ----------

  /** A timer callback that will still look at the container. */
  predicate DeadlineLive(r: Waiter) {
    r.timer == Armed || r.timer == Firing(LoadContainer) || (r.timer.Firing? && r.timer.step.LockList?)
  }

  lemma DeadlineRecord(r: Waiter)
    requires PhaseOk(r) && TimerOk(r) && r.container.Some? && r.sleepId
    ensures DeadlineLive(r) <==> !r.early
  {}

  /** A queued waiter with a deadline still has a live timer callback, unless the callback loaded the
      container before the waiter was queued: then nothing but a wake or interrupt ends the wait. */
  lemma DeadlineKeptIffNotEarly(z: State, b: ButexId, w: WaiterId)
    requires Reachable(z) && Queued(z, b, w) && w in z.waiters && z.waiters[w].sleepId
    ensures DeadlineLive(z.waiters[w]) <==> !z.waiters[w].early
  {
    OneList(z, w);
    ReachableInv(z);
    assert WaiterOk(z, w);
    DeadlineRecord(z.waiters[w]);
  }
}
