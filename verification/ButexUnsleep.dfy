/** Whoever wakes a bthread takes its timer back first. */
module ButexUnsleep {
  import opened Wrappers
  import opened ButexModel
  import opened ButexInvariant
  import opened ButexWaking
  import opened ButexTheorems
  import opened ButexReasons

  // ---------- plans unsleep every bthread before they rouse it ----------

  /** Every bthread that a plan rouses is unslept by it. */
  ghost predicate Unsleeps(ws: map<WaiterId, Waiter>, plan: seq<Op>) {
    forall w {:trigger Rouse(w) in plan} ::
      Rouse(w) in plan ==> Unsleep(w) in plan || (w in ws && ws[w].pthread)
  }

  lemma {:induction false} PthreadsAre(ws: map<WaiterId, Waiter>, q: seq<WaiterId>, w: WaiterId)
    ensures w in Pthreads(ws, q) ==> w in ws && ws[w].pthread
  {
    if q != [] { PthreadsAre(ws, q[1..], w); }
  }

  lemma {:induction false} SignalsOnly(q: seq<WaiterId>, w: WaiterId)
    ensures Rouse(w) in Signals(q) ==> w in q
  {
    if q != [] { SignalsOnly(q[1..], w); }
  }

  lemma {:induction false} TailFirstUnsleeps(q: seq<WaiterId>, w: WaiterId)
    ensures Rouse(w) in TailFirst(q) ==> Unsleep(w) in TailFirst(q)
    decreases |q|
  {
    if q != [] { TailFirstUnsleeps(q[..|q| - 1], w); }
  }

  lemma AllPlanUnsleeps(ws: map<WaiterId, Waiter>, q: seq<WaiterId>)
    ensures Unsleeps(ws, AllPlan(Pthreads(ws, q), Bthreads(ws, q)))
  {
    var ps, bs := Pthreads(ws, q), Bthreads(ws, q);
    forall w | Rouse(w) in AllPlan(ps, bs) ensures Unsleep(w) in AllPlan(ps, bs) || (w in ws && ws[w].pthread) {
      SignalsOnly(ps, w);
      PthreadsAre(ws, q, w);
      if bs != [] { TailFirstUnsleeps(bs[1..], w); }
    }
  }

  lemma ExceptPlanUnsleeps(ws: map<WaiterId, Waiter>, q: seq<WaiterId>)
    ensures Unsleeps(ws, ExceptPlan(Pthreads(ws, q), Bthreads(ws, q)))
  {
    var ps, bs := Pthreads(ws, q), Bthreads(ws, q);
    forall w | Rouse(w) in ExceptPlan(ps, bs) ensures Unsleep(w) in ExceptPlan(ps, bs) || (w in ws && ws[w].pthread) {
      SignalsOnly(ps, w);
      PthreadsAre(ws, q, w);
      TailFirstUnsleeps(bs, w);
    }
  }

  lemma OnePlanUnsleeps(ws: map<WaiterId, Waiter>, w: WaiterId)
    ensures Unsleeps(ws, OnePlan(w in ws && ws[w].pthread, w))
  {}

  // ---------- the invariant ----------

  predicate IsArmed(s: State, w: WaiterId) {
    w in s.waiters && s.waiters[w].timer.Armed?
  }

  /** A bthread that `a` is going to rouse has no pending timer, or `a` is going to take that back. */
  ghost predicate WillUnsleep(s: State, a: AgentId) {
    a in s.agents && s.agents[a].Busy? ==>
      forall w {:trigger Rouse(w) in s.agents[a].todo} ::
        Rouse(w) in s.agents[a].todo && IsArmed(s, w) ==> Unsleep(w) in s.agents[a].todo
  }

  ghost predicate AllUnsleep(s: State) {
    forall a {:trigger WillUnsleep(s, a)} :: WillUnsleep(s, a)
  }

  lemma WalkedTimer(r: Waiter, r2: Waiter)
    requires WalksOn(r, r2)
    ensures r2.timer.Armed? ==> r.timer.Armed?
  {}

  lemma HandledTimer(r: Waiter, r2: Waiter)
    requires IsHandled(r, r2)
    ensures r2.timer.Armed? ==> r.timer.Armed?
  {}

  lemma MovesOnTimer(r: Waiter, r2: Waiter, a: AgentId)
    requires TakenOrMoved(r, r2, a)
    ensures r2.timer.Armed? ==> r.timer.Armed?
  {
    if WalksOn(r, r2) { WalkedTimer(r, r2); }
    else if IsHandled(r, r2) { HandledTimer(r, r2); }
  }

  lemma MovedTimer(s: State, z: State, w: WaiterId)
    requires w in s.waiters && w in z.waiters && MovesOn(s.waiters[w], z.waiters[w])
    ensures IsArmed(z, w) ==> IsArmed(s, w)
  {
    if WalksOn(s.waiters[w], z.waiters[w]) { WalkedTimer(s.waiters[w], z.waiters[w]); }
    else { HandledTimer(s.waiters[w], z.waiters[w]); }
  }

  lemma TakersKeepTimer(s: State, e: Event, w: WaiterId)
    requires Inv(s) && Enabled(s, e) && Takes(e) && w in s.waiters
    ensures IsArmed(Step(s, e), w) ==> IsArmed(s, w)
  {
    QueuedWaiter(s, e.b, w);
    match e {
      case Wake(a, b) => WakeTakes(s, a, b, w); MovesOnTimer(s.waiters[w], StepWake(s, a, b).waiters[w], a);
      case WakeAll(a, b) => WakeAllTakes(s, a, b, w); MovesOnTimer(s.waiters[w], StepWakeAll(s, a, b).waiters[w], a);
      case WakeExcept(a, b, x) =>
        WakeExceptTakes(s, a, b, x, w);
        MovesOnTimer(s.waiters[w], StepWakeExcept(s, a, b, x).waiters[w], a);
      case Requeue(a, b, m) =>
        RequeueTakes(s, a, b, m, w);
        MovesOnTimer(s.waiters[w], StepRequeue(s, a, b, m).waiters[w], a);
    }
  }

  lemma MoversKeepTimer(s: State, e: Event, w: WaiterId)
    requires Enabled(s, e) && Moving(e) && w in s.waiters
    ensures IsArmed(Step(s, e), w) ==> IsArmed(s, w)
  {
    if e.BeginBthread? { BeginMoves(s, e.w, FreshWaiter(Some(e.t), false, e.b, e.expected, e.timed), w); }
    else if e.BeginPthread? { BeginMoves(s, e.w, FreshWaiter(e.task, true, e.b, e.expected, e.timed), w); }
    else {
      if e.Store? || e.InterruptTake? || e.InterruptFlag? || e.PutBack? { InterrupterMoves(s, e, w); }
      else { WaiterMoves(s, e, w); }
      MovedTimer(s, Step(s, e), w);
    }
  }

  lemma ErasersKeepTimer(s: State, e: Event, w: WaiterId)
    requires Enabled(s, e) && w in s.waiters && (e.EraseSelf? || e.TimerErase? || e.InterruptErase?)
    ensures IsArmed(Step(s, e), w) ==> IsArmed(s, w)
  {
    match e {
      case EraseSelf(v) => assert IsArmed(StepEraseSelf(s, v), w) ==> IsArmed(s, w);
      case TimerErase(v) => assert IsArmed(StepTimerErase(s, v), w) ==> IsArmed(s, w);
      case InterruptErase(a) => assert IsArmed(StepInterruptErase(s, a), w) ==> IsArmed(s, w);
    }
  }

  lemma ChecksKeepTimer(s: State, e: Event, w: WaiterId)
    requires Enabled(s, e) && w in s.waiters && (e.CheckValue? || e.CheckFlag? || e.Work?)
    ensures IsArmed(Step(s, e), w) ==> IsArmed(s, w)
  {
    match e {
      case CheckValue(v) => assert IsArmed(StepCheckValue(s, v), w) ==> IsArmed(s, w);
      case CheckFlag(v) => assert IsArmed(StepCheckFlag(s, v), w) ==> IsArmed(s, w);
      case Work(a) => assert IsArmed(StepWork(s, a), w) ==> IsArmed(s, w);
    }
  }

  lemma RecordsKeepTimer(s: State, e: Event, w: WaiterId)
    requires Enabled(s, e) && w in s.waiters && RecordStep(e)
    ensures IsArmed(Step(s, e), w) ==> IsArmed(s, w)
  {}

  /** A timer is pending from the begin of the wait or never again. */
  lemma NeverRearmed(s: State, e: Event, w: WaiterId)
    requires Inv(s) && Enabled(s, e) && w in s.waiters
    ensures IsArmed(Step(s, e), w) ==> IsArmed(s, w)
  {
    if RecordStep(e) { RecordsKeepTimer(s, e, w); }
    else if Takes(e) { TakersKeepTimer(s, e, w); }
    else if Moving(e) { MoversKeepTimer(s, e, w); }
    else if e.CheckValue? || e.CheckFlag? || e.Work? { ChecksKeepTimer(s, e, w); }
    else { ErasersKeepTimer(s, e, w); }
  }

  // ---------- what becomes of a plan ----------

  predicate SamePlan(s: State, s': State, a: AgentId) {
    a in s'.agents && s'.agents[a].Busy? ==> s'.agents[a].todo == [] || (a in s.agents && s'.agents[a] == s.agents[a])
  }

  lemma MoversKeepPlan(s: State, e: Event, a: AgentId)
    requires Enabled(s, e) && Moving(e)
    ensures SamePlan(s, Step(s, e), a)
  {}

  lemma OthersKeepPlan(s: State, e: Event, a: AgentId)
    requires Enabled(s, e) && (e.CheckValue? || e.CheckFlag? || e.EraseSelf? || e.TimerErase? || e.InterruptErase?)
    ensures SamePlan(s, Step(s, e), a)
  {}

  lemma RecordsKeepPlan(s: State, e: Event, a: AgentId)
    requires Enabled(s, e) && RecordStep(e)
    ensures SamePlan(s, Step(s, e), a)
  {}

  /** The plan of the thread that takes waiters out; another's is as before. */
  lemma TakersPlan(s: State, e: Event, a: AgentId)
    requires Enabled(s, e) && Takes(e)
    ensures var z := Step(s, e);
            || SamePlan(s, z, a)
            || (a == e.a && a in z.agents && z.agents[a].Busy? && Unsleeps(s.waiters, z.agents[a].todo))
  {
    if e.a == a {
      var q := s.butexes[e.b].queue;
      AllPlanUnsleeps(s.waiters, q);
      if e.WakeExcept? { ExceptPlanUnsleeps(s.waiters, Dropped(s.waiters, q, e.excluded)); }
      if q != [] { OnePlanUnsleeps(s.waiters, q[0]); }
    }
  }

  lemma SamePlanUnsleeps(s: State, e: Event, a: AgentId)
    requires Inv(s) && WillUnsleep(s, a) && Enabled(s, e) && SamePlan(s, Step(s, e), a)
    ensures WillUnsleep(Step(s, e), a)
  {
    var z := Step(s, e);
    if a in z.agents && z.agents[a].Busy? && z.agents[a].todo != [] {
      assert AgentOk(s, a);
      forall w | Rouse(w) in z.agents[a].todo && IsArmed(z, w) ensures Unsleep(w) in z.agents[a].todo {
        NeverRearmed(s, e, w);
      }
    }
  }

  lemma NewPlanUnsleeps(s: State, e: Event, a: AgentId)
    requires Inv(s) && Enabled(s, e) && Takes(e) && a in Step(s, e).agents && Step(s, e).agents[a].Busy?
    requires Unsleeps(s.waiters, Step(s, e).agents[a].todo)
    ensures WillUnsleep(Step(s, e), a)
  {
    var z := Step(s, e);
    TakersAddNone(s, e);
    forall w | Rouse(w) in z.agents[a].todo && IsArmed(z, w) ensures Unsleep(w) in z.agents[a].todo {
      assert w in s.waiters;
      NeverRearmed(s, e, w);
      assert WaiterOk(s, w);
    }
  }

  lemma TakersAddNone(s: State, e: Event)
    requires Enabled(s, e) && Takes(e)
    ensures Step(s, e).waiters.Keys == s.waiters.Keys
  {
    match e {
      case Wake(a, b) => assert StepWake(s, a, b).waiters.Keys == s.waiters.Keys;
      case WakeAll(a, b) => assert StepWakeAll(s, a, b).waiters.Keys == s.waiters.Keys;
      case WakeExcept(a, b, x) => assert StepWakeExcept(s, a, b, x).waiters.Keys == s.waiters.Keys;
      case Requeue(a, b, m) => assert StepRequeue(s, a, b, m).waiters.Keys == s.waiters.Keys;
    }
  }

  lemma WorkUnsleeps(s: State, a: AgentId, c: AgentId)
    requires Inv(s) && WillUnsleep(s, c) && CanWork(s, a)
    ensures WillUnsleep(StepWork(s, a), c)
  {
    var z := StepWork(s, a);
    var todo := s.agents[a].todo;
    if c in s.agents && s.agents[c].Busy? {
      assert AgentOk(s, c);
      if c == a { PlanTail(todo); }
      forall w | Rouse(w) in z.agents[c].todo && IsArmed(z, w) ensures Unsleep(w) in z.agents[c].todo {
        assert Rouse(w) in s.agents[c].todo;
        ChecksKeepTimer(s, Work(a), w);
        assert WaiterOk(s, w);
      }
    }
  }

  lemma StepUnsleeps(s: State, e: Event, a: AgentId)
    requires Inv(s) && WillUnsleep(s, a) && Enabled(s, e)
    ensures WillUnsleep(Step(s, e), a)
  {
    if e.Work? {
      WorkUnsleeps(s, e.a, a);
    } else if Takes(e) {
      TakersPlan(s, e, a);
      if SamePlan(s, Step(s, e), a) { SamePlanUnsleeps(s, e, a); } else { NewPlanUnsleeps(s, e, a); }
    } else {
      if RecordStep(e) { RecordsKeepPlan(s, e, a); }
      else if Moving(e) { MoversKeepPlan(s, e, a); }
      else { OthersKeepPlan(s, e, a); }
      SamePlanUnsleeps(s, e, a);
    }
  }

  lemma {:induction false} RunUnsleeps(s: State, es: seq<Event>, a: AgentId)
    requires Inv(s) && WillUnsleep(s, a) && Executable(s, es)
    ensures WillUnsleep(After(s, es), a)
    decreases |es|
  {
    if es != [] {
      StepUnsleeps(s, es[0], a);
      StepInv(s, es[0]);
      RunUnsleeps(Step(s, es[0]), es[1..], a);
    }
  }

  /** When a waker makes a bthread runnable, the timer of its wait is not pending any more: the waker has taken
      it back, or its callback has begun. */
  lemma UnsleptBeforeRoused(z: State, a: AgentId)
    requires Reachable(z) && CanWork(z, a) && z.agents[a].todo[0].Rouse?
    ensures !z.waiters[z.agents[a].todo[0].w].timer.Armed?
  {
    ReachableInv(z);
    var s, es :| Init(s) && Executable(s, es) && After(s, es) == z;
    InitInv(s);
    RunUnsleeps(s, es, a);
    var todo := z.agents[a].todo;
    var w := todo[0].w;
    assert AgentOk(z, a) && Rouse(w) in todo;
    NoUnsleepLeft(todo, w);
  }

  lemma NoUnsleepLeft(todo: seq<Op>, w: WaiterId)
    requires PlanOk(todo) && todo != [] && todo[0] == Rouse(w)
    ensures Unsleep(w) !in todo
  {
    forall j | 0 <= j < |todo| ensures todo[j] != Unsleep(w) {
      if j > 0 { assert todo[0].w != todo[j].w; }
    }
  }
}
