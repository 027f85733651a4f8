/** The inductive invariant of the butex protocol. */
module ButexInvariant {
  import opened Wrappers
  import opened ButexModel

  ghost predicate NoDuplicates(q: seq<WaiterId>) {
    forall i, j :: 0 <= i < j < |q| ==> q[i] != q[j]
  }

  /** Every waiter named in a plan is roused exactly once, as the last thing done to it. */
  ghost predicate PlanOk(todo: seq<Op>) {
    && (forall i, j :: 0 <= i < j < |todo| && todo[i].Rouse? ==> todo[i].w != todo[j].w)
    && (forall op {:trigger op in todo} :: op in todo ==> Rouse(op.w) in todo)
  }

  predicate Waiting(pc: Pc) {
    pc == Parked || pc == SelfErase(LoadContainer) || pc == Recheck || (pc.SelfErase? && pc.step.LockList?)
  }

  predicate Leaving(pc: Pc) {
    pc == Declined || pc == Taking || pc == Clearing || pc == Returned
  }

  /** How the history of a waiter and its program counter fit together. */
  predicate PhaseOk(r: Waiter) {
    if BeforeQueue(r.pc) then r.claim == Unclaimed && r.container == None && (r.pc == Suspended ==> !r.pthread)
    else if r.pc == Unqueued || r.pc == Rescheduling then r.claim == ByCallback && r.container == None && !r.pthread
    else if Waiting(r.pc) then
      && (r.claim == Unclaimed <==> r.container.Some?)
      && r.claim != ByCallback && r.claim != ByItself
      && (r.claim == Woken ==> r.pthread)
      && (r.pc != Parked ==> r.pthread)
      && (r.pc == Recheck ==> r.container == None)
    else if r.pc == Runnable || r.pc == Unsleeping then r.claim == Woken && r.container == None && !r.pthread
    else
      && Leaving(r.pc) && r.container == None
      && (r.claim == Woken || (r.pthread && (r.claim == Unclaimed || r.claim == ByItself)))
      && (r.pc == Declined ==> r.pthread)
  }

  /** A deadline that can still fire is remembered by `sleepId`, and is gone once the waiter is past
      its first spin. */
  predicate TimerOk(r: Waiter) {
    && (r.pthread ==> r.timer == NoTimer)
    && (r.timer.Armed? || r.timer.Firing? ==> r.sleepId && !Leaving(r.pc))
    && (r.timer == Firing(MakeReady) <==> r.claim == ByTimer)
    && (r.early ==> r.timer == Firing(Finished) || r.timer == Expired || r.timer == Cancelled)
    && (r.timer == Firing(Finished) || r.timer == Expired ==> r.early || r.claim != Unclaimed)
    && (r.timer == Cancelled || (r.timer == NoTimer && r.sleepId) ==> r.claim != Unclaimed)
  }

  predicate CountOk(r: Waiter) {
    r.readied == (if r.claim == Woken then 1 else 0)
  }

  /** The list that an erase is about to lock exists: butexes are never freed. */
  predicate LockExists(s: State, step: EraseStep) {
    step.LockList? ==> step.b in s.butexes
  }

  predicate LocksExist(s: State, r: Waiter) {
    (r.pc.SelfErase? ==> LockExists(s, r.pc.step)) && (r.timer.Firing? ==> LockExists(s, r.timer.step))
  }

  ghost predicate WaiterOk(s: State, w: WaiterId)
    requires w in s.waiters
  {
    var r := s.waiters[w];
    && PhaseOk(r) && TimerOk(r)
    && CountOk(r)
    && r.target in s.butexes
    && (r.container.Some? ==> r.container.value in s.butexes && w in s.butexes[r.container.value].queue)
    && (r.claim.ByWaker? ==> r.claim.a in s.agents && s.agents[r.claim.a].Busy? && Rouse(w) in s.agents[r.claim.a].todo)
    && (r.claim.ByInterrupter? ==>
          r.claim.a in s.agents && s.agents[r.claim.a].Erasing? &&
          s.agents[r.claim.a].w == w && s.agents[r.claim.a].step == MakeReady)
    && (!r.pthread ==> r.task.Some?)
    && (r.task.Some? ==> r.task.value in s.tasks)
    && (r.task.Some? && r.pc != Returned ==> s.tasks[r.task.value].active == Some(w))
    && (r.pc == CheckInterrupt || r.pc == Queueing ==> s.butexes[r.target].holder == Some(w))
    && (BeforeQueue(r.pc) ==> r.wstate == Ready)
    && LocksExist(s, r)
  }

  ghost predicate ButexOk(s: State, b: ButexId)
    requires b in s.butexes
  {
    var x := s.butexes[b];
    && NoDuplicates(x.queue)
    && (forall w {:trigger w in x.queue} :: w in x.queue ==> w in s.waiters && s.waiters[w].container == Some(b))
    && (x.holder.Some? ==>
          x.holder.value in s.waiters && s.waiters[x.holder.value].target == b &&
          (s.waiters[x.holder.value].pc == CheckInterrupt || s.waiters[x.holder.value].pc == Queueing))
  }

  /** An interrupter that took waiter `w` of task `t` and has not put it back. */
  predicate Has(g: Agent, t: TaskId, w: WaiterId) {
    match g
    case Flagging(u, found) => u == t && found == Some(w)
    case Erasing(u, v, _) => u == t && v == w
    case PuttingBack(u, v) => u == t && v == w
    case _ => false
  }

  ghost predicate TaskOk(s: State, t: TaskId)
    requires t in s.tasks
  {
    var x := s.tasks[t];
    && (x.active.Some? ==>
          x.active.value in s.waiters && s.waiters[x.active.value].task == Some(t) &&
          s.waiters[x.active.value].pc != Returned)
    && (x.current.Some? ==>
          x.current == x.active && x.taker == None &&
          s.waiters[x.active.value].pc != Preparing && s.waiters[x.active.value].pc != Clearing)
    && (x.taker.Some? ==>
          x.active.Some? && x.taker.value in s.agents &&
          Has(s.agents[x.taker.value], t, x.active.value) &&
          s.waiters[x.active.value].pc != Preparing && s.waiters[x.active.value].pc != Clearing)
    && (x.active.Some? && s.waiters[x.active.value].pc != Preparing && s.waiters[x.active.value].pc != Clearing ==>
          x.current.Some? || x.taker.Some?)
    && (x.lock.Some? ==> x.lock.value in s.agents && s.agents[x.lock.value].Flagging? && s.agents[x.lock.value].t == t)
  }

  ghost predicate AgentOk(s: State, a: AgentId)
    requires a in s.agents
  {
    match s.agents[a]
    case Busy(todo) =>
      && PlanOk(todo)
      && forall op {:trigger op in todo} :: op in todo ==> op.w in s.waiters && s.waiters[op.w].claim == ByWaker(a)
    case Stored(b) => b in s.butexes
    case Flagging(t, found) =>
      && t in s.tasks && s.tasks[t].lock == Some(a)
      && (found.Some? ==>
            && s.tasks[t].taker == Some(a) && found.value in s.waiters && s.waiters[found.value].task == Some(t)
            && s.tasks[t].active == found && s.waiters[found.value].claim != ByInterrupter(a))
    case Erasing(t, w, step) =>
      && t in s.tasks && s.tasks[t].taker == Some(a) && w in s.waiters && s.waiters[w].task == Some(t)
      && s.tasks[t].active == Some(w)
      && (step == MakeReady <==> s.waiters[w].claim == ByInterrupter(a)) && step != Finished
      && LockExists(s, step)
    case PuttingBack(t, w) =>
      && t in s.tasks && s.tasks[t].taker == Some(a) && w in s.waiters && s.waiters[w].task == Some(t)
      && s.tasks[t].active == Some(w) && s.waiters[w].claim != ByInterrupter(a)
  }

  /** Some writer of `b` is between its store and the locked region of its wake_all. */
  ghost predicate StorePending(s: State, b: ButexId) {
    exists a {:trigger s.agents[a]} :: a in s.agents && s.agents[a] == Stored(b)
  }

  ghost predicate MatchesValue(s: State, b: ButexId, w: WaiterId) {
    b in s.butexes && w in s.waiters && s.waiters[w].expected == s.butexes[b].value
  }

  /** A waiter that is queued on `b`, or has passed the value check under the lock of `b`. */
  ghost predicate Admitted(s: State, b: ButexId, w: WaiterId)
    requires b in s.butexes
  {
    w in s.butexes[b].queue || s.butexes[b].holder == Some(w)
  }

  ghost predicate DisciplineOk(s: State, b: ButexId)
    requires b in s.butexes
  {
    b in s.disciplined ==>
      forall w {:trigger Admitted(s, b, w)} :: Admitted(s, b, w) ==> MatchesValue(s, b, w) || StorePending(s, b)
  }

  ghost predicate Inv(s: State) {
    && (forall w {:trigger WaiterOk(s, w)} :: w in s.waiters ==> WaiterOk(s, w))
    && (forall b {:trigger ButexOk(s, b)} :: b in s.butexes ==> ButexOk(s, b))
    && (forall b {:trigger DisciplineOk(s, b)} :: b in s.butexes ==> DisciplineOk(s, b))
    && (forall t {:trigger TaskOk(s, t)} :: t in s.tasks ==> TaskOk(s, t))
    && (forall a {:trigger AgentOk(s, a)} :: a in s.agents ==> AgentOk(s, a))
  }

  /** No waiter exists yet, no lock is held, nobody is in the middle of a call. */
  ghost predicate Init(s: State) {
    && s.waiters == map[]
    && (forall b :: b in s.butexes ==> s.butexes[b].queue == [] && s.butexes[b].holder == None)
    && (forall t :: t in s.tasks ==> s.tasks[t] == Task(None, s.tasks[t].interrupted, None, None, None))
    && (forall a :: a in s.agents ==> s.agents[a] == IDLE)
  }

  lemma InitInv(s: State)
    requires Init(s)
    ensures Inv(s)
  {}
}
