/** What the wakes of a butex achieve: whom they take, that those are roused, and that a wait which has a
    reason to end can return. */
module ButexProgress {
  import opened Wrappers
  import opened ButexModel
  import opened ButexInvariant
  import opened ButexWaking
  import opened ButexTheorems

  // ---------- whom a wake takes ----------

  /** `a` holds just the waiters of `out`, none of which is in a list any more. */
  ghost predicate HoldsJust(z: State, a: AgentId, out: seq<WaiterId>) {
    && (forall w {:trigger HeldBy(z, a, w)} :: HeldBy(z, a, w) <==> w in out)
    && (forall w {:trigger z.waiters[w]} :: w in out ==> w in z.waiters && z.waiters[w].container == None)
  }

  /** No list but that of `b` differs. */
  ghost predicate OtherLists(s: State, z: State, b: ButexId) {
    && z.butexes.Keys == s.butexes.Keys
    && forall c {:trigger z.butexes[c]} :: c in s.butexes && c != b ==> z.butexes[c] == s.butexes[c]
  }

  lemma TakenFrom(s: State, a: AgentId, b: ButexId, out: seq<WaiterId>, rest: seq<WaiterId>, plan: seq<Op>)
    requires Inv(s) && TakeOk(s, a, b, out, rest, plan)
    ensures var z := TakeFrom(s, a, b, out, rest, plan);
            b in z.butexes && z.butexes[b].queue == rest && HoldsJust(z, a, out) && OtherLists(s, z, b)
  {
    var z := TakeFrom(s, a, b, out, rest, plan);
    assert ButexOk(s, b);
    forall w ensures HeldBy(z, a, w) <==> w in out {
      if Rouse(w) in plan { assert Rouse(w).w in out; }
    }
  }

  /** butex_wake takes the waiter that came first, if there is any. */
  lemma WakeTakesFirst(z: State, a: AgentId, b: ButexId)
    requires Reachable(z) && Enabled(z, Wake(a, b))
    ensures var q, z' := z.butexes[b].queue, Step(z, Wake(a, b));
            && (q == [] ==> z' == z)
            && (q != [] ==> z'.butexes[b].queue == q[1..] && HoldsJust(z', a, [q[0]]) && OtherLists(z, z', b))
  {
    ReachableInv(z);
    var q := z.butexes[b].queue;
    if q != [] {
      TakeFirstOk(z, a, b);
      TakenFrom(z, a, b, [q[0]], q[1..], OnePlan(q[0] in z.waiters && z.waiters[q[0]].pthread, q[0]));
    }
  }

  /** butex_wake_all takes them all. */
  lemma WakeAllTakesAll(z: State, a: AgentId, b: ButexId)
    requires Reachable(z) && Enabled(z, WakeAll(a, b))
    ensures var z' := Step(z, WakeAll(a, b));
            z'.butexes[b].queue == [] && HoldsJust(z', a, z.butexes[b].queue) && OtherLists(z, z', b)
  {
    ReachableInv(z);
    var q := z.butexes[b].queue;
    WakeAllTakeOk(z, a, b);
    TakenFrom(z, a, b, q, [], AllPlan(Pthreads(z.waiters, q), Bthreads(z.waiters, q)));
  }

  /** butex_wake_except takes all but the bthread with the excluded tid. */
  lemma WakeExceptTakesOthers(z: State, a: AgentId, b: ButexId, excluded: TaskId)
    requires Reachable(z) && Enabled(z, WakeExcept(a, b, excluded))
    ensures var z' := Step(z, WakeExcept(a, b, excluded));
            && HoldsJust(z', a, Dropped(z.waiters, z.butexes[b].queue, excluded)) && OtherLists(z, z', b)
            && forall w {:trigger HeldBy(z', a, w)} {:trigger w in z'.butexes[b].queue} :: w in z.butexes[b].queue ==>
                 && (HeldBy(z', a, w) <==> w !in z'.butexes[b].queue)
                 && (w in z'.butexes[b].queue <==>
                       w in z.waiters && !z.waiters[w].pthread && z.waiters[w].task == Some(excluded))
  {
    ReachableInv(z);
    var q := z.butexes[b].queue;
    var out := Dropped(z.waiters, q, excluded);
    WakeExceptTakeOk(z, a, b, excluded);
    TakenFrom(z, a, b, out, Kept(z.waiters, q, excluded),
              ExceptPlan(Pthreads(z.waiters, out), Bthreads(z.waiters, out)));
    forall w | w in q
      ensures w in Kept(z.waiters, q, excluded) <==>
              w in z.waiters && !z.waiters[w].pthread && z.waiters[w].task == Some(excluded) {
      KeptIff(z.waiters, q, excluded, w);
    }
  }

  lemma {:induction false} KeptIff(ws: map<WaiterId, Waiter>, q: seq<WaiterId>, x: TaskId, w: WaiterId)
    ensures w in Kept(ws, q, x) <==> w in q && w in ws && !ws[w].pthread && ws[w].task == Some(x)
  {
    if q != [] { KeptIff(ws, q[1..], x, w); }
  }

  /** butex_requeue takes the first; the others are then at the end of the list of the second butex, in order,
      and nobody holds them. */
  lemma RequeueMovesRest(z: State, a: AgentId, b: ButexId, m: ButexId)
    requires Reachable(z) && Enabled(z, Requeue(a, b, m))
    ensures var q, z' := z.butexes[b].queue, Step(z, Requeue(a, b, m));
            && (q == [] ==> z' == z)
            && (q != [] ==>
                  && z'.butexes[b].queue == [] && z'.butexes[m].queue == z.butexes[m].queue + q[1..]
                  && HoldsJust(z', a, [q[0]])
                  && forall w :: w in q[1..] ==> w in z'.waiters && z'.waiters[w].container == Some(m))
  {
    ReachableInv(z);
    assert ButexOk(z, b);
    var q := z.butexes[b].queue;
    if q != [] {
      var plan := OnePlan(q[0] in z.waiters && z.waiters[q[0]].pthread, q[0]);
      TakeFirstOk(z, a, b);
      TakenFrom(z, a, b, [q[0]], q[1..], plan);
      RestMoved(z, TakeFrom(z, a, b, [q[0]], q[1..], plan), a, b, m, q);
    }
  }

  lemma RestMoved(z: State, s1: State, a: AgentId, b: ButexId, m: ButexId, q: seq<WaiterId>)
    requires b in s1.butexes && m in s1.butexes && m in z.butexes && b != m && s1.butexes[m] == z.butexes[m]
    requires q != [] && NoDuplicates(q) && HoldsJust(s1, a, [q[0]]) && forall w :: w in q ==> w in s1.waiters
    ensures var z' := MoveAll(s1, b, m, q[1..]);
            && z'.butexes[b].queue == [] && z'.butexes[m].queue == z.butexes[m].queue + q[1..]
            && HoldsJust(z', a, [q[0]])
            && forall w :: w in q[1..] ==> w in z'.waiters && z'.waiters[w].container == Some(m)
  {
    var z' := MoveAll(s1, b, m, q[1..]);
    assert q[0] !in q[1..];
    forall w ensures HeldBy(z', a, w) <==> w in [q[0]] { assert HeldBy(s1, a, w) <==> w in [q[0]]; }
    forall w | w in q[1..] ensures w in z'.waiters && z'.waiters[w].container == Some(m) { assert w in q; }
  }

  // ---------- what is taken is roused ----------

  function Works(a: AgentId, n: nat): seq<Event> {
    if n == 0 then [] else [Work(a)] + Works(a, n - 1)
  }

  predicate IsRoused(z: State, w: WaiterId) {
    w in z.waiters && z.waiters[w].readied == 1 && z.waiters[w].claim == Woken
  }

  lemma WorkRouses(s: State, a: AgentId, w: WaiterId)
    requires Inv(s) && a in s.agents && s.agents[a].Busy? && s.agents[a].todo != []
    ensures Enabled(s, Work(a)) && Step(s, Work(a)).agents[a] == Busy(s.agents[a].todo[1..])
    ensures HeldBy(s, a, w) ==> HeldBy(Step(s, Work(a)), a, w) || IsRoused(Step(s, Work(a)), w)
    ensures IsRoused(s, w) ==> IsRoused(Step(s, Work(a)), w)
  {
    assert AgentOk(s, a) && s.agents[a].todo[0] in s.agents[a].todo;
    if w in s.waiters { assert WaiterOk(s, w); }
  }

  /** A thread that took waiters out works on by itself until each of them is roused. */
  lemma {:induction false} HeldAreRoused(s: State, a: AgentId, w: WaiterId)
    requires Inv(s) && a in s.agents && s.agents[a].Busy?
    ensures Executable(s, Works(a, |s.agents[a].todo|))
    ensures var z := After(s, Works(a, |s.agents[a].todo|));
            a in z.agents && z.agents[a] == IDLE && (HeldBy(s, a, w) || IsRoused(s, w) ==> IsRoused(z, w))
    decreases |s.agents[a].todo|
  {
    var todo := s.agents[a].todo;
    if todo != [] {
      WorkRouses(s, a, w);
      StepInv(s, Work(a));
      var s1 := Step(s, Work(a));
      HeldAreRoused(s1, a, w);
      assert Works(a, |todo|)[1..] == Works(a, |todo| - 1);
    }
  }

  // ---------- a wait that has a reason to end ----------

  /** Out of every list, and on its way back. */
  predicate Ending(s: State, w: WaiterId) {
    w in s.waiters && !BeforeQueue(s.waiters[w].pc) && s.waiters[w].container == None && s.waiters[w].pc != Returned
  }

  /** How far the holder of the lock of `b` is from releasing it. */
  function LockDist(s: State, b: ButexId): nat {
    if b !in s.butexes || s.butexes[b].holder == None then 0
    else if AtPc(s, s.butexes[b].holder.value, CheckInterrupt) then 2 else 1
  }

  /** How far an erase is from its end that will find nothing. */
  function EraseDist(s: State, step: EraseStep): nat {
    match step
    case LoadContainer => 1
    case LockList(b) => 2 + LockDist(s, b)
    case MakeReady => 1
    case Finished => 0
  }

  /** How far the interrupter that has the waiter of task `t` is from putting it back. */
  function TakerDist(s: State, t: TaskId): nat {
    if t !in s.tasks || s.tasks[t].current.Some? then 0
    else if s.tasks[t].taker == None || s.tasks[t].taker.value !in s.agents then 0
    else
      match s.agents[s.tasks[t].taker.value]
      case Flagging(_, _) => 5
      case Erasing(_, _, step) => 3 + EraseDist(s, step)
      case _ => if s.tasks[t].lock == None then 1 else 2
  }

  function TimerDist(s: State, r: Waiter): nat {
    if r.timer.Firing? then 1 + EraseDist(s, r.timer.step) else 0
  }

  function PlanLength(s: State, a: AgentId): nat {
    if a in s.agents && s.agents[a].Busy? then |s.agents[a].todo| else 0
  }

  /** How far a waiter that somebody roused, or that rouses itself, is from returning. */
  function LeaveDist(s: State, r: Waiter): nat {
    match r.pc
    case Clearing => 1
    case Taking => 2 + if r.task.Some? then TakerDist(s, r.task.value) else 0
    case Declined => 11
    case Unsleeping => 12 + TimerDist(s, r)
    case Parked => 12
    case Recheck => 12
    case SelfErase(step) => 12 + EraseDist(s, step)
    case Runnable => 19
    case _ => 0
  }

  function Distance(s: State, w: WaiterId): nat
    requires w in s.waiters
  {
    var r := s.waiters[w];
    match r.claim
    case ByCallback => if r.pc == Unqueued then 22 else 21
    case ByWaker(a) => 21 + PlanLength(s, a)
    case ByTimer => 21
    case ByInterrupter(_) => 21
    case _ => LeaveDist(s, r)
  }

  /** In `s'` the wait of `w` is closer to its return, or returns. */
  predicate Closer(s: State, s': State, w: WaiterId)
    requires w in s.waiters
  {
    && w in s'.waiters
    && (s'.waiters[w].pc == Returned || (Ending(s', w) && Distance(s', w) < Distance(s, w)))
  }

  // ---------- steps of others that it waits for ----------

  /** The holder `h` of the lock of `b` has gone on; everything else is the same. */
  ghost predicate HolderWent(s: State, s': State, b: ButexId, h: WaiterId) {
    && s'.tasks == s.tasks && s'.agents == s.agents && LockDist(s', b) < LockDist(s, b)
    && (forall w {:trigger w in s.waiters} {:trigger s'.waiters[w]} :: w in s.waiters && w != h ==>
          w in s'.waiters && s'.waiters[w] == s.waiters[w])
    && h in s.waiters && BeforeQueue(s.waiters[h].pc)
  }

  lemma HolderGoesOn(s: State, b: ButexId) returns (e: Event)
    requires Inv(s) && b in s.butexes && s.butexes[b].holder.Some?
    ensures Enabled(s, e) && HolderWent(s, Step(s, e), b, s.butexes[b].holder.value)
    ensures e.CheckFlag? || e.Enqueue?
  {
    var h := s.butexes[b].holder.value;
    assert ButexOk(s, b) && WaiterOk(s, h);
    if s.waiters[h].pc == CheckInterrupt {
      e := CheckFlag(h);
      assert HolderWent(s, StepCheckFlag(s, h), b, h);
    } else {
      e := Enqueue(h);
      assert HolderWent(s, StepEnqueue(s, h), b, h);
    }
  }

  /** Nobody is still to rouse the waiter. */
  predicate Settled(c: Claim) {
    c == Woken || c == Unclaimed || c == ByItself
  }

  /** The task whose current waiter an interrupter has. */
  predicate IsTaken(s: State, t: TaskId) {
    && t in s.tasks && s.tasks[t].current == None
    && s.tasks[t].taker.Some? && s.tasks[t].taker.value in s.agents
  }

  /** The wait needs the lock of `b` for its next step: its own erase, its timer callback's, or that of the
      interrupter which has it. */
  predicate NeedsLock(s: State, w: WaiterId, b: ButexId) {
    && w in s.waiters && Settled(s.waiters[w].claim)
    && var r := s.waiters[w];
       || r.pc == SelfErase(LockList(b))
       || (r.pc == Unsleeping && r.timer == Firing(LockList(b)))
       || (r.pc == Taking && r.task.Some? && IsTaken(s, r.task.value) &&
           s.agents[s.tasks[r.task.value].taker.value].Erasing? &&
           s.agents[s.tasks[r.task.value].taker.value].step == LockList(b))
  }

  lemma LockFreed(s: State, s': State, w: WaiterId, b: ButexId, h: WaiterId)
    requires Ending(s, w) && NeedsLock(s, w, b) && HolderWent(s, s', b, h)
    ensures Closer(s, s', w)
  {}

  lemma LockComesFree(s: State, w: WaiterId, b: ButexId) returns (e: Event)
    requires Inv(s) && Ending(s, w) && NeedsLock(s, w, b) && b in s.butexes && s.butexes[b].holder.Some?
    ensures Enabled(s, e) && Closer(s, Step(s, e), w)
  {
    e := HolderGoesOn(s, b);
    LockFreed(s, Step(s, e), w, b, s.butexes[b].holder.value);
  }

  /** A waiter that was just roused is not far from its return. */
  lemma RousedDistance(z: State, r: Waiter)
    requires PhaseOk(r) && r.container == None && !Settled(r.claim)
    ensures !BeforeQueue(Roused(r).pc) && Roused(r).pc != Returned && LeaveDist(z, Roused(r)) <= 19
  {}

  lemma RousedCloser(s: State, s': State, w: WaiterId, r2: Waiter)
    requires Ending(s, w) && PhaseOk(s.waiters[w]) && !Settled(s.waiters[w].claim)
    requires w in s'.waiters && s'.waiters[w] == r2 && r2 == Roused(s.waiters[w]).(timer := r2.timer)
    ensures Closer(s, s', w)
  {
    RousedDistance(s', s.waiters[w]);
    if r2.pc == Runnable { } else { assert LeaveDist(s', r2) == LeaveDist(s', Roused(s.waiters[w])); }
  }

  lemma WorkCloser(s: State, w: WaiterId, a: AgentId)
    requires Inv(s) && Ending(s, w) && s.waiters[w].claim == ByWaker(a)
    ensures CanWork(s, a) && Closer(s, StepWork(s, a), w)
  {
    assert WaiterOk(s, w) && AgentOk(s, a);
    var todo := s.agents[a].todo;
    assert todo[0] in todo;
    if todo[0] == Rouse(w) { RousedCloser(s, StepWork(s, a), w, Roused(s.waiters[w])); }
  }

  lemma TimerReadyCloser(s: State, w: WaiterId)
    requires Ending(s, w) && PhaseOk(s.waiters[w]) && TimerOk(s.waiters[w]) && s.waiters[w].claim == ByTimer
    ensures CanTimerErase(s, w) && Closer(s, StepTimerErase(s, w), w)
  {
    RousedCloser(s, StepTimerErase(s, w), w, StepTimerErase(s, w).waiters[w]);
  }

  lemma InterrupterReadyCloser(s: State, w: WaiterId, a: AgentId)
    requires Ending(s, w) && WaiterOk(s, w) && s.waiters[w].claim == ByInterrupter(a)
    ensures CanInterruptErase(s, a) && Closer(s, StepInterruptErase(s, a), w)
  {
    RousedCloser(s, StepInterruptErase(s, a), w, Roused(s.waiters[w]));
  }

  lemma CallbackCloser(s: State, w: WaiterId) returns (e: Event)
    requires Ending(s, w) && PhaseOk(s.waiters[w]) && s.waiters[w].claim == ByCallback
    ensures Enabled(s, e) && Closer(s, Step(s, e), w)
  {
    var r := s.waiters[w];
    if r.pc == Unqueued {
      e := CallbackUnsleep(w);
      assert Closer(s, SetWaiter(s, w, Unslept(r).(pc := Rescheduling)), w);
    } else {
      e := CallbackReady(w);
      RousedCloser(s, SetWaiter(s, w, Roused(r)), w, Roused(r));
    }
  }

  lemma OwedCloser(s: State, w: WaiterId) returns (e: Event)
    requires Inv(s) && Ending(s, w) && !Settled(s.waiters[w].claim)
    ensures Enabled(s, e) && Closer(s, Step(s, e), w)
  {
    assert WaiterOk(s, w);
    var c := s.waiters[w].claim;
    if c.ByCallback? {
      e := CallbackCloser(s, w);
    } else if c.ByWaker? {
      e := Work(c.a);
      WorkCloser(s, w, c.a);
    } else {
      e := EraserReadyCloser(s, w);
    }
  }

  /** The erase that took it out is about to make it ready. */
  lemma EraserReadyCloser(s: State, w: WaiterId) returns (e: Event)
    requires Ending(s, w) && WaiterOk(s, w) && (s.waiters[w].claim.ByTimer? || s.waiters[w].claim.ByInterrupter?)
    ensures Enabled(s, e) && Closer(s, Step(s, e), w)
  {
    if s.waiters[w].claim.ByTimer? {
      e := TimerErase(w);
      TimerReadyCloser(s, w);
    } else {
      e := InterruptErase(s.waiters[w].claim.a);
      InterrupterReadyCloser(s, w, s.waiters[w].claim.a);
    }
  }

  // ---------- its own steps ----------

  lemma TakerNear(s: State, t: TaskId)
    ensures TakerDist(s, t) <= 7
  {}

  lemma TimerNear(s: State, r: Waiter)
    ensures TimerDist(s, r) <= 5
  {}

  /** The record alone moves on. */
  lemma OwnCloser(s: State, w: WaiterId, r2: Waiter)
    requires Ending(s, w) && Settled(s.waiters[w].claim) && r2.container == None && r2.claim == s.waiters[w].claim
    requires r2.task == s.waiters[w].task
    requires var p := s.waiters[w].pc;
             || (r2.pc == Unsleeping && p == Runnable)
             || (r2.pc == Taking && (p == Parked || p == Recheck || p == Unsleeping))
    ensures Closer(s, SetWaiter(s, w, r2), w)
  {
    var s' := SetWaiter(s, w, r2);
    if r2.task.Some? { TakerNear(s', r2.task.value); }
    TimerNear(s', r2);
  }

  lemma AloneCloser(s: State, w: WaiterId) returns (e: Event)
    requires Ending(s, w) && WaiterOk(s, w) && Settled(s.waiters[w].claim)
    requires var r := s.waiters[w];
             r.pc.Runnable? || r.pc.Recheck? || r.pc.Parked? || (r.pc.Unsleeping? && !r.timer.Firing?)
    ensures Enabled(s, e) && Closer(s, Step(s, e), w)
  {
    var r := s.waiters[w];
    match r.pc {
      case Runnable => e := Resume(w);
      case Recheck => e := RecheckSignal(w);
      case Parked => e := SeeSignal(w);
      case Unsleeping => e := SpinUnsleep(w);
    }
    OwnCloser(s, w, RecordAfter(r, e));
  }

  lemma DeclineCloser(s: State, w: WaiterId)
    requires Ending(s, w) && WaiterOk(s, w) && s.waiters[w].pc == Declined
    ensures CanDecline(s, w) && Closer(s, StepDecline(s, w), w)
  {
    var s' := StepDecline(s, w);
    if s.waiters[w].task.Some? { TakerNear(s', s.waiters[w].task.value); }
  }

  lemma ClearFlagCloser(s: State, w: WaiterId)
    requires Ending(s, w) && WaiterOk(s, w) && s.waiters[w].pc == Clearing
    ensures CanClearFlag(s, w) && Closer(s, StepClearFlag(s, w), w)
  {}

  /** An erase that finds the container NULL is done, and one that had to lock first looks again. */
  function StepAfter(step: EraseStep): EraseStep {
    if step.LockList? then LoadContainer else Finished
  }

  lemma SelfErasedCloser(s: State, s': State, w: WaiterId)
    requires Ending(s, w) && Settled(s.waiters[w].claim) && w in s'.waiters
    requires s.waiters[w].pc.SelfErase? && (s.waiters[w].pc.step.LoadContainer? || s.waiters[w].pc.step.LockList?)
    requires s'.waiters[w].container == None && s'.waiters[w].claim == s.waiters[w].claim
    requires s'.waiters[w].pc == PcAfterErase(StepAfter(s.waiters[w].pc.step))
    ensures Closer(s, s', w)
  {}

  lemma EraseSelfCloser(s: State, w: WaiterId)
    requires Ending(s, w) && PhaseOk(s.waiters[w]) && Settled(s.waiters[w].claim) && CanEraseSelf(s, w)
    ensures Closer(s, StepEraseSelf(s, w), w)
  {
    SelfErasedCloser(s, StepEraseSelf(s, w), w);
  }

  lemma SelfEraseCloser(s: State, w: WaiterId) returns (e: Event)
    requires Inv(s) && Ending(s, w) && Settled(s.waiters[w].claim) && s.waiters[w].pc.SelfErase?
    ensures Enabled(s, e) && Closer(s, Step(s, e), w)
  {
    assert WaiterOk(s, w);
    var step := s.waiters[w].pc.step;
    if step.LockList? && s.butexes[step.b].holder.Some? {
      e := LockComesFree(s, w, step.b);
    } else {
      e := EraseSelf(w);
      EraseSelfCloser(s, w);
    }
  }

  lemma TimerEraseCloser(s: State, w: WaiterId)
    requires Ending(s, w) && Settled(s.waiters[w].claim) && TimerOk(s.waiters[w]) && CanTimerErase(s, w)
    requires s.waiters[w].pc == Unsleeping
    ensures Closer(s, StepTimerErase(s, w), w)
  {
    TimerErasedCloser(s, StepTimerErase(s, w), w);
  }

  lemma TimerErasedCloser(s: State, s': State, w: WaiterId)
    requires Ending(s, w) && Settled(s.waiters[w].claim) && w in s'.waiters && s.waiters[w].pc == Unsleeping
    requires s.waiters[w].timer.Firing? && (s.waiters[w].timer.step.LoadContainer? || s.waiters[w].timer.step.LockList?)
    requires s'.waiters[w].container == None && s'.waiters[w].claim == s.waiters[w].claim
    requires s'.waiters[w].pc == Unsleeping && s'.waiters[w].timer == Firing(StepAfter(s.waiters[w].timer.step))
    ensures Closer(s, s', w)
  {}

  lemma TimerCloser(s: State, w: WaiterId) returns (e: Event)
    requires Inv(s) && Ending(s, w) && Settled(s.waiters[w].claim)
    requires s.waiters[w].pc == Unsleeping && s.waiters[w].timer.Firing?
    ensures Enabled(s, e) && Closer(s, Step(s, e), w)
  {
    assert WaiterOk(s, w);
    var step := s.waiters[w].timer.step;
    if step.LockList? && s.butexes[step.b].holder.Some? {
      e := LockComesFree(s, w, step.b);
    } else if step == Finished {
      e := TimerEnd(w);
      assert Closer(s, SetWaiter(s, w, s.waiters[w].(timer := Expired)), w);
    } else {
      e := TimerErase(w);
      TimerEraseCloser(s, w);
    }
  }

  // ---------- the interrupter that has it ----------

  /** The wait of `w` spins until interrupter `a` puts it back. */
  predicate SpinsFor(s: State, w: WaiterId, t: TaskId, a: AgentId) {
    && w in s.waiters && s.waiters[w].pc == Taking && Settled(s.waiters[w].claim) && s.waiters[w].container == None
    && s.waiters[w].task == Some(t) && IsTaken(s, t) && s.tasks[t].taker == Some(a)
  }

  lemma FlagCloser(s: State, w: WaiterId, t: TaskId, a: AgentId)
    requires SpinsFor(s, w, t, a) && CanInterruptFlag(s, a) && s.agents[a] == Flagging(t, Some(w))
    ensures Closer(s, StepInterruptFlag(s, a), w)
  {}

  lemma TakerEraseCloser(s: State, w: WaiterId, t: TaskId, a: AgentId)
    requires SpinsFor(s, w, t, a) && CanInterruptErase(s, a) && s.agents[a].w == w && s.agents[a].t == t
    requires s.agents[a].step != MakeReady
    ensures Closer(s, StepInterruptErase(s, a), w)
  {}

  lemma PutBackCloser(s: State, w: WaiterId, t: TaskId, a: AgentId)
    requires SpinsFor(s, w, t, a) && CanPutBack(s, a) && s.agents[a].t == t
    ensures Closer(s, StepPutBack(s, a), w)
  {}

  /** Another interrupter holds the version lock; it found no waiter. */
  lemma OtherFlagCloser(s: State, w: WaiterId, t: TaskId, a: AgentId, c: AgentId)
    requires SpinsFor(s, w, t, a) && s.agents[a].PuttingBack? && s.tasks[t].lock == Some(c)
    requires CanInterruptFlag(s, c) && s.agents[c].t == t && a != c
    ensures Closer(s, StepInterruptFlag(s, c), w)
  {}

  lemma EraserCloser(s: State, w: WaiterId, t: TaskId, a: AgentId) returns (e: Event)
    requires Inv(s) && SpinsFor(s, w, t, a) && s.agents[a].Erasing? && s.agents[a].w == w && s.agents[a].t == t
    requires s.agents[a].step != MakeReady && s.agents[a].step != Finished && LockExists(s, s.agents[a].step)
    requires Ending(s, w)
    ensures Enabled(s, e) && Closer(s, Step(s, e), w)
  {
    var step := s.agents[a].step;
    if step.LockList? && s.butexes[step.b].holder.Some? {
      e := LockComesFree(s, w, step.b);
    } else {
      e := InterruptErase(a);
      TakerEraseCloser(s, w, t, a);
    }
  }

  lemma PutterCloser(s: State, w: WaiterId, t: TaskId, a: AgentId) returns (e: Event)
    requires SpinsFor(s, w, t, a) && TaskOk(s, t) && s.agents[a].PuttingBack? && s.agents[a].t == t
    ensures Enabled(s, e) && Closer(s, Step(s, e), w)
  {
    if s.tasks[t].lock.Some? {
      e := InterruptFlag(s.tasks[t].lock.value);
      OtherFlagCloser(s, w, t, a, s.tasks[t].lock.value);
    } else {
      e := PutBack(a);
      PutBackCloser(s, w, t, a);
    }
  }

  /** What an interrupter that has the waiter says about it. */
  lemma TakerFacts(s: State, w: WaiterId, t: TaskId, a: AgentId)
    requires Inv(s) && SpinsFor(s, w, t, a)
    ensures Ending(s, w) && TaskOk(s, t) && Has(s.agents[a], t, w)
    ensures s.agents[a].Erasing? ==>
              s.agents[a].step != MakeReady && s.agents[a].step != Finished && LockExists(s, s.agents[a].step)
  {
    assert WaiterOk(s, w) && TaskOk(s, t) && AgentOk(s, a);
  }

  lemma TakerCloser(s: State, w: WaiterId, t: TaskId, a: AgentId) returns (e: Event)
    requires Inv(s) && SpinsFor(s, w, t, a)
    ensures Enabled(s, e) && Closer(s, Step(s, e), w)
  {
    TakerFacts(s, w, t, a);
    if s.agents[a].Erasing? {
      e := EraserCloser(s, w, t, a);
    } else if s.agents[a].PuttingBack? {
      e := PutterCloser(s, w, t, a);
    } else {
      e := InterruptFlag(a);
      FlagCloser(s, w, t, a);
    }
  }

  lemma SpinTakeCloser(s: State, w: WaiterId)
    requires Ending(s, w) && s.waiters[w].pc == Taking && PhaseOk(s.waiters[w]) && CanSpinTake(s, w)
    requires s.waiters[w].task.Some? ==> s.tasks[s.waiters[w].task.value].current.Some?
    ensures Closer(s, StepSpinTake(s, w), w)
  {}

  /** A spinning wait has been put back, or an interrupter has it. */
  lemma TakingFacts(s: State, w: WaiterId)
    requires Inv(s) && Ending(s, w) && s.waiters[w].pc == Taking
    ensures PhaseOk(s.waiters[w]) && CanSpinTake(s, w)
    ensures s.waiters[w].task.Some? && s.tasks[s.waiters[w].task.value].current == None ==>
              s.tasks[s.waiters[w].task.value].taker.Some? &&
              SpinsFor(s, w, s.waiters[w].task.value, s.tasks[s.waiters[w].task.value].taker.value)
  {
    assert WaiterOk(s, w);
    if s.waiters[w].task.Some? { assert TaskOk(s, s.waiters[w].task.value); }
  }

  lemma TakingCloser(s: State, w: WaiterId) returns (e: Event)
    requires Inv(s) && Ending(s, w) && s.waiters[w].pc == Taking
    ensures Enabled(s, e) && Closer(s, Step(s, e), w)
  {
    TakingFacts(s, w);
    var task := s.waiters[w].task;
    if task.Some? && s.tasks[task.value].current == None {
      e := TakerCloser(s, w, task.value, s.tasks[task.value].taker.value);
    } else {
      e := SpinTake(w);
      SpinTakeCloser(s, w);
    }
  }

  // ---------- the return ----------

  lemma NextCloser(s: State, w: WaiterId) returns (e: Event)
    requires Inv(s) && Ending(s, w)
    ensures Enabled(s, e) && Closer(s, Step(s, e), w)
  {
    assert WaiterOk(s, w);
    var r := s.waiters[w];
    if !Settled(r.claim) { e := OwedCloser(s, w); }
    else if r.pc.Taking? { e := TakingCloser(s, w); }
    else if r.pc.SelfErase? { e := SelfEraseCloser(s, w); }
    else if r.pc.Unsleeping? && r.timer.Firing? { e := TimerCloser(s, w); }
    else if r.pc.Declined? { e := Decline(w); DeclineCloser(s, w); }
    else if r.pc.Clearing? { e := ClearFlag(w); ClearFlagCloser(s, w); }
    else { e := AloneCloser(s, w); }
  }

  lemma {:induction false} EndingReturns(s: State, w: WaiterId) returns (es: seq<Event>)
    requires Inv(s) && Ending(s, w)
    ensures Executable(s, es) && w in After(s, es).waiters && After(s, es).waiters[w].pc == Returned
    decreases Distance(s, w)
  {
    var e := NextCloser(s, w);
    StepInv(s, e);
    var fs := [];
    if Step(s, e).waiters[w].pc != Returned { fs := EndingReturns(Step(s, e), w); }
    es := [e] + fs;
    assert es[1..] == fs;
  }

  lemma NamedListHasIt(z: State, w: WaiterId)
    requires Inv(z) && w in z.waiters
    ensures z.waiters[w].container.Some? ==> Queued(z, z.waiters[w].container.value, w)
  {
    assert WaiterOk(z, w);
  }

  /** In every reachable state a wait that is in no list any more can return, whatever locks are held and
      whatever its timer callback, an interrupter and its waker have still to do. */
  lemma WaitCanReturn(z: State, w: WaiterId) returns (es: seq<Event>)
    requires Reachable(z) && w in z.waiters && !BeforeQueue(z.waiters[w].pc) && z.waiters[w].pc != Returned
    requires forall b: ButexId :: !Queued(z, b, w)
    ensures Executable(z, es) && w in After(z, es).waiters && After(z, es).waiters[w].pc == Returned
  {
    ReachableInv(z);
    NamedListHasIt(z, w);
    es := EndingReturns(z, w);
  }

  // ---------- entering the list ----------

  /** How far a wait that has begun is from its list, or from finding a reason not to enter it. */
  function EntryDist(s: State, w: WaiterId): nat
    requires w in s.waiters
  {
    var r := s.waiters[w];
    match r.pc
    case Preparing => 7
    case Published => if r.pthread then 3 + LockDist(s, r.target) else 6
    case Suspended => 3 + LockDist(s, r.target)
    case CheckInterrupt => 2
    case Queueing => 1
    case _ => 0
  }

  /** The wait of `w` is closer to its list in `s'`, or has found a reason, and no thread did anything. */
  predicate Nearer(s: State, s': State, w: WaiterId) {
    && w in s.waiters && w in s'.waiters && s'.agents == s.agents && EntryDist(s', w) < EntryDist(s, w)
  }

  predicate AtCheck(s: State, w: WaiterId) {
    w in s.waiters && s.waiters[w].pc == if s.waiters[w].pthread then Published else Suspended
  }

  lemma LockNear(s: State, b: ButexId)
    ensures LockDist(s, b) <= 2
  {}

  lemma EntryLockFreed(s: State, s': State, w: WaiterId, h: WaiterId)
    requires AtCheck(s, w) && w != h && HolderWent(s, s', s.waiters[w].target, h)
    ensures Nearer(s, s', w)
  {}

  lemma CheckValueNearer(s: State, w: WaiterId)
    requires AtCheck(s, w) && CanCheckValue(s, w)
    ensures Nearer(s, StepCheckValue(s, w), w)
  {}

  /** The check for the value comes once the lock is free. */
  lemma CheckCloser(s: State, w: WaiterId) returns (e: Event)
    requires Inv(s) && AtCheck(s, w)
    ensures Enabled(s, e) && Nearer(s, Step(s, e), w)
  {
    assert WaiterOk(s, w);
    var b := s.waiters[w].target;
    if s.butexes[b].holder.Some? {
      assert ButexOk(s, b);
      e := HolderGoesOn(s, b);
      EntryLockFreed(s, Step(s, e), w, s.butexes[b].holder.value);
    } else {
      e := CheckValue(w);
      CheckValueNearer(s, w);
    }
  }

  lemma PublishNearer(s: State, w: WaiterId)
    requires CanPublish(s, w)
    ensures Nearer(s, StepPublish(s, w), w)
  {
    LockNear(StepPublish(s, w), s.waiters[w].target);
  }

  lemma SwitchNearer(s: State, w: WaiterId)
    requires w in s.waiters && s.waiters[w].pc == Published && !s.waiters[w].pthread
    ensures Nearer(s, SetWaiter(s, w, s.waiters[w].(pc := Suspended)), w)
  {
    LockNear(SetWaiter(s, w, s.waiters[w].(pc := Suspended)), s.waiters[w].target);
  }

  lemma CheckFlagNearer(s: State, w: WaiterId)
    requires CanCheckFlag(s, w)
    ensures Nearer(s, StepCheckFlag(s, w), w)
  {}

  lemma EnqueueNearer(s: State, w: WaiterId)
    requires CanEnqueue(s, w)
    ensures Nearer(s, StepEnqueue(s, w), w)
  {}

  lemma EntryCloser(s: State, w: WaiterId) returns (e: Event)
    requires Inv(s) && w in s.waiters && BeforeQueue(s.waiters[w].pc)
    ensures Enabled(s, e) && Nearer(s, Step(s, e), w)
  {
    assert WaiterOk(s, w);
    if AtCheck(s, w) {
      e := CheckCloser(s, w);
    } else {
      match s.waiters[w].pc {
        case Preparing => e := Publish(w); PublishNearer(s, w);
        case Published => e := SwitchAway(w); SwitchNearer(s, w);
        case CheckInterrupt => e := CheckFlag(w); CheckFlagNearer(s, w);
        case Queueing => e := Enqueue(w); EnqueueNearer(s, w);
      }
    }
  }

  lemma {:induction false} EntryEnds(s: State, w: WaiterId) returns (es: seq<Event>)
    requires Inv(s) && w in s.waiters
    ensures Executable(s, es) && Inv(After(s, es)) && After(s, es).agents == s.agents
    ensures w in After(s, es).waiters && !BeforeQueue(After(s, es).waiters[w].pc)
    decreases EntryDist(s, w)
  {
    es := [];
    if BeforeQueue(s.waiters[w].pc) {
      var e := EntryCloser(s, w);
      StepInv(s, e);
      var fs := EntryEnds(Step(s, e), w);
      es := [e] + fs;
      assert es[1..] == fs;
    }
  }

  // ---------- whoever waits can be woken and return ----------

  /** The lock of `b` comes free, and `w` stays in its list meanwhile. */
  lemma {:induction false} LockComes(s: State, b: ButexId, w: WaiterId, a: AgentId) returns (es: seq<Event>)
    requires Inv(s) && b in s.butexes && w in s.butexes[b].queue && IsIdle(s, a)
    ensures Executable(s, es) && Inv(After(s, es)) && FreeList(After(s, es), b)
    ensures w in After(s, es).butexes[b].queue && IsIdle(After(s, es), a)
    decreases LockDist(s, b)
  {
    es := [];
    if s.butexes[b].holder.Some? {
      var e := HolderGoesOn(s, b);
      HolderKeepsList(s, b, e, w);
      StepInv(s, e);
      var fs := LockComes(Step(s, e), b, w, a);
      es := [e] + fs;
      assert es[1..] == fs;
    }
  }

  lemma HolderKeepsList(s: State, b: ButexId, e: Event, w: WaiterId)
    requires Enabled(s, e) && b in s.butexes && w in s.butexes[b].queue && (e.CheckFlag? || e.Enqueue?)
    ensures b in Step(s, e).butexes && w in Step(s, e).butexes[b].queue
  {}

  lemma {:induction false} RunJoin(s: State, es: seq<Event>, fs: seq<Event>)
    requires Executable(s, es) && Executable(After(s, es), fs)
    ensures Executable(s, es + fs) && After(s, es + fs) == After(After(s, es), fs)
    decreases |es|
  {
    if es == [] {
      assert es + fs == fs;
    } else {
      assert (es + fs)[0] == es[0] && (es + fs)[1..] == es[1..] + fs;
      RunJoin(Step(s, es[0]), es[1..], fs);
    }
  }

  /** A queued waiter is out of its list after a wake_all of an idle thread. */
  lemma WakeAllReaches(s: State, b: ButexId, w: WaiterId, a: AgentId) returns (es: seq<Event>)
    requires Inv(s) && b in s.butexes && w in s.butexes[b].queue && IsIdle(s, a)
    ensures Executable(s, es) && Inv(After(s, es)) && Ending(After(s, es), w)
  {
    var ds := LockComes(s, b, w, a);
    var s1 := After(s, ds);
    var e := WakeAll(a, b);
    TakenByWakeAll(s1, a, b, w);
    StepInv(s1, e);
    assert [e][1..] == [];
    RunJoin(s, ds, [e]);
    es := ds + [e];
  }

  lemma TakenByWakeAll(s: State, a: AgentId, b: ButexId, w: WaiterId)
    requires Inv(s) && CanWakeAll(s, a, b) && w in s.butexes[b].queue
    ensures Ending(StepWakeAll(s, a, b), w)
  {
    assert ButexOk(s, b);
    assert WaiterOk(s, w);
  }

  lemma LeavesAndReturns(s: State, w: WaiterId, a: AgentId) returns (es: seq<Event>)
    requires Inv(s) && w in s.waiters && !BeforeQueue(s.waiters[w].pc) && IsIdle(s, a)
    ensures Executable(s, es) && w in After(s, es).waiters && After(s, es).waiters[w].pc == Returned
  {
    es := [];
    NamedListHasIt(s, w);
    if s.waiters[w].pc == Returned {
    } else if s.waiters[w].container.Some? {
      var ds := WakeAllReaches(s, s.waiters[w].container.value, w, a);
      var fs := EndingReturns(After(s, ds), w);
      RunJoin(s, ds, fs);
      es := ds + fs;
    } else {
      es := EndingReturns(s, w);
    }
  }

  /** From every reachable state, if one thread is free to call wake_all, each wait can return: it gets into
      its list or is refused, is woken if it sleeps, and finds its way back. */
  lemma EveryWaitCanReturn(z: State, w: WaiterId, a: AgentId) returns (es: seq<Event>)
    requires Reachable(z) && w in z.waiters && IsIdle(z, a)
    ensures Executable(z, es) && w in After(z, es).waiters && After(z, es).waiters[w].pc == Returned
  {
    ReachableInv(z);
    var ds := EntryEnds(z, w);
    var fs := LeavesAndReturns(After(z, ds), w, a);
    RunJoin(z, ds, fs);
    es := ds + fs;
  }
}
