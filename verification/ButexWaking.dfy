/** Stores, the wakes and requeue keep the butex invariant. */
module ButexWaking {
  import opened Wrappers
  import opened ButexModel
  import opened ButexInvariant
  import opened ButexErasing

  // ---------- stores and the work of a waker ----------

  lemma StoreInv(s: State, a: AgentId, b: ButexId, v: int)
    requires Inv(s) && CanStore(s, a, b)
    ensures Inv(StepStore(s, a, b, v))
  {
    var s' := StepStore(s, a, b, v);
    forall w | w in s'.waiters ensures WaiterOk(s', w) { assert WaiterOk(s, w); StoreWaiter(s, a, b, v, w); }
    forall c | c in s'.butexes ensures ButexOk(s', c) { assert ButexOk(s, c); StoreButex(s, a, b, v, c); }
    forall c | c in s'.butexes ensures DisciplineOk(s', c) {
      assert DisciplineOk(s, c);
      StoreDiscipline(s, a, b, v, c);
    }
    forall t | t in s'.tasks ensures TaskOk(s', t) { assert TaskOk(s, t); StoreTask(s, a, b, v, t); }
    forall c | c in s'.agents ensures AgentOk(s', c) { assert AgentOk(s, c); StoreAgent(s, a, b, v, c); }
  }

  lemma StoreButex(s: State, a: AgentId, b: ButexId, v: int, c: ButexId)
    requires CanStore(s, a, b) && c in s.butexes && ButexOk(s, c)
    ensures ButexOk(StepStore(s, a, b, v), c)
  {}

  lemma StoreTask(s: State, a: AgentId, b: ButexId, v: int, t: TaskId)
    requires CanStore(s, a, b) && t in s.tasks && TaskOk(s, t)
    ensures TaskOk(StepStore(s, a, b, v), t)
  {}

  lemma StoreAgent(s: State, a: AgentId, b: ButexId, v: int, c: AgentId)
    requires CanStore(s, a, b) && c in s.agents && AgentOk(s, c)
    ensures AgentOk(StepStore(s, a, b, v), c)
  {}

  lemma StoreWaiter(s: State, a: AgentId, b: ButexId, v: int, w: WaiterId)
    requires CanStore(s, a, b) && w in s.waiters && WaiterOk(s, w)
    ensures WaiterOk(StepStore(s, a, b, v), w)
  {}

  lemma StoreDiscipline(s: State, a: AgentId, b: ButexId, v: int, c: ButexId)
    requires CanStore(s, a, b) && c in s.butexes && DisciplineOk(s, c)
    ensures DisciplineOk(StepStore(s, a, b, v), c)
  {
    var s' := StepStore(s, a, b, v);
    if c in s.disciplined {
      if c == b {
        assert s'.agents[a] == Stored(b);
        assert StorePending(s', c);
      } else {
        KeepsPending(s, s', a, c);
        forall w | Admitted(s', c, w) ensures MatchesValue(s', c, w) || StorePending(s', c) {
          assert Admitted(s, c, w);
        }
      }
    }
  }

  lemma PlanTail(todo: seq<Op>)
    requires todo != [] && PlanOk(todo)
    ensures PlanOk(todo[1..])
    ensures forall op {:trigger op in todo[1..]} ::
              op in todo[1..] ==> op in todo && (todo[0].Rouse? ==> op.w != todo[0].w)
    ensures forall op {:trigger op in todo} :: op in todo && op != todo[0] ==> op in todo[1..]
    ensures todo[0].Unsleep? ==> Rouse(todo[0].w) in todo[1..]
  {
    forall op | op in todo[1..]
      ensures op in todo && (todo[0].Rouse? ==> op.w != todo[0].w) && Rouse(op.w) in todo[1..]
    {
      var i :| 0 <= i < |todo[1..]| && todo[1..][i] == op;
      assert todo[i + 1] == op && op in todo;
      assert Rouse(op.w) in todo;
    }
    assert todo[0] in todo;
  }

  lemma WorkInv(s: State, a: AgentId)
    requires Inv(s) && CanWork(s, a)
    ensures Inv(StepWork(s, a))
  {
    var s' := StepWork(s, a);
    var w := s.agents[a].todo[0].w;
    assert AgentOk(s, a);
    assert s.agents[a].todo[0] in s.agents[a].todo;
    assert WaiterOk(s, w);
    PlanTail(s.agents[a].todo);
    forall v | v in s'.waiters ensures WaiterOk(s', v) { assert WaiterOk(s, v); WorkWaiter(s, a, v); }
    forall b | b in s'.butexes ensures ButexOk(s', b) { assert ButexOk(s, b); WorkButex(s, a, b); }
    forall b | b in s'.butexes ensures DisciplineOk(s', b) { assert DisciplineOk(s, b); WorkDiscipline(s, a, b); }
    forall t | t in s'.tasks ensures TaskOk(s', t) { assert TaskOk(s, t); WorkTask(s, a, t); }
    forall c | c in s'.agents ensures AgentOk(s', c) { assert AgentOk(s, c); WorkAgent(s, a, c); }
  }

  ghost predicate WorkFrame(s: State, a: AgentId) {
    && CanWork(s, a) && AgentOk(s, a) && WaiterOk(s, s.agents[a].todo[0].w)
    && s.waiters[s.agents[a].todo[0].w].claim == ByWaker(a)
  }

  lemma WorkSelf(s: State, a: AgentId)
    requires WorkFrame(s, a)
    ensures WaiterOk(StepWork(s, a), s.agents[a].todo[0].w)
  {
    PlanTail(s.agents[a].todo);
  }

  lemma WorkWaiter(s: State, a: AgentId, v: WaiterId)
    requires WorkFrame(s, a) && v in s.waiters && WaiterOk(s, v)
    ensures WaiterOk(StepWork(s, a), v)
  {
    if v == s.agents[a].todo[0].w { WorkSelf(s, a); } else { WorkOther(s, a, v); }
  }

  lemma WorkOther(s: State, a: AgentId, v: WaiterId)
    requires WorkFrame(s, a) && v in s.waiters && WaiterOk(s, v) && v != s.agents[a].todo[0].w
    ensures WaiterOk(StepWork(s, a), v)
  {
    PlanTail(s.agents[a].todo);
  }

  lemma WorkButex(s: State, a: AgentId, b: ButexId)
    requires WorkFrame(s, a) && b in s.butexes && ButexOk(s, b)
    ensures ButexOk(StepWork(s, a), b)
  {}

  lemma WorkDiscipline(s: State, a: AgentId, b: ButexId)
    requires WorkFrame(s, a) && b in s.butexes && DisciplineOk(s, b)
    ensures DisciplineOk(StepWork(s, a), b)
  {
    var s' := StepWork(s, a);
    KeepsPending(s, s', a, b);
    if b in s.disciplined {
      forall v | Admitted(s', b, v) ensures MatchesValue(s', b, v) || StorePending(s', b) {
        assert Admitted(s, b, v);
      }
    }
  }

  lemma WorkTask(s: State, a: AgentId, t: TaskId)
    requires WorkFrame(s, a) && t in s.tasks && TaskOk(s, t)
    ensures TaskOk(StepWork(s, a), t)
  {}

  lemma WorkAgent(s: State, a: AgentId, c: AgentId)
    requires WorkFrame(s, a) && c in s.agents && AgentOk(s, c)
    ensures AgentOk(StepWork(s, a), c)
  {
    PlanTail(s.agents[a].todo);
  }

  // ---------- the wakes and requeue ----------

  /** `plan` rouses exactly the waiters of `out`. */
  ghost predicate PlanFor(plan: seq<Op>, out: seq<WaiterId>) {
    && PlanOk(plan)
    && (forall op {:trigger op in plan} :: op in plan ==> op.w in out)
    && (forall w {:trigger w in out} :: w in out ==> Rouse(w) in plan)
  }

  /** `out` and `rest` split the list of `b`. */
  ghost predicate TakeOk(s: State, a: AgentId, b: ButexId, out: seq<WaiterId>, rest: seq<WaiterId>, plan: seq<Op>) {
    && a in s.agents && FreeList(s, b) && NoDuplicates(rest) && PlanFor(plan, out)
    && (forall w {:trigger w in s.butexes[b].queue} {:trigger w in out} {:trigger w in rest} ::
          (w in s.butexes[b].queue <==> w in out || w in rest) && !(w in out && w in rest))
    && (s.agents[a] == IDLE || (s.agents[a] == Stored(b) && rest == []))
  }

  lemma TakeFromInv(s: State, a: AgentId, b: ButexId, out: seq<WaiterId>, rest: seq<WaiterId>, plan: seq<Op>)
    requires Inv(s) && TakeOk(s, a, b, out, rest, plan)
    ensures Inv(TakeFrom(s, a, b, out, rest, plan))
  {
    var s' := TakeFrom(s, a, b, out, rest, plan);
    assert ButexOk(s, b);
    forall w | w in s'.waiters ensures WaiterOk(s', w) {
      assert WaiterOk(s, w);
      FromWaiter(s, a, b, out, rest, plan, w);
    }
    forall c | c in s'.butexes ensures ButexOk(s', c) { assert ButexOk(s, c); FromButex(s, a, b, out, rest, plan, c); }
    forall c | c in s'.butexes ensures DisciplineOk(s', c) {
      assert DisciplineOk(s, c);
      FromDiscipline(s, a, b, out, rest, plan, c);
    }
    forall t | t in s'.tasks ensures TaskOk(s', t) { assert TaskOk(s, t); FromTask(s, a, b, out, rest, plan, t); }
    forall w | w in out ensures w in s.waiters && s.waiters[w].claim == Unclaimed {
      assert w in s.butexes[b].queue;
      assert WaiterOk(s, w);
    }
    forall c | c in s'.agents ensures AgentOk(s', c) { assert AgentOk(s, c); FromAgent(s, a, b, out, rest, plan, c); }
  }

  lemma FromWaiter(s: State, a: AgentId, b: ButexId, out: seq<WaiterId>, rest: seq<WaiterId>, plan: seq<Op>,
                   w: WaiterId)
    requires TakeOk(s, a, b, out, rest, plan) && ButexOk(s, b) && w in s.waiters && WaiterOk(s, w)
    ensures w in TakeFrom(s, a, b, out, rest, plan).waiters && WaiterOk(TakeFrom(s, a, b, out, rest, plan), w)
  {
    if w in out {
      assert w in s.butexes[b].queue;
      assert Rouse(w) in plan;
    }
  }

  lemma FromButex(s: State, a: AgentId, b: ButexId, out: seq<WaiterId>, rest: seq<WaiterId>, plan: seq<Op>, c: ButexId)
    requires TakeOk(s, a, b, out, rest, plan) && ButexOk(s, b) && c in s.butexes && ButexOk(s, c)
    ensures ButexOk(TakeFrom(s, a, b, out, rest, plan), c)
  {
    var s' := TakeFrom(s, a, b, out, rest, plan);
    forall w | w in s'.butexes[c].queue ensures w in s'.waiters && s'.waiters[w].container == Some(c) {
      assert w in s.butexes[c].queue;
    }
  }

  lemma FromDiscipline(s: State, a: AgentId, b: ButexId, out: seq<WaiterId>, rest: seq<WaiterId>, plan: seq<Op>,
                       c: ButexId)
    requires TakeOk(s, a, b, out, rest, plan) && c in s.butexes && DisciplineOk(s, c)
    ensures DisciplineOk(TakeFrom(s, a, b, out, rest, plan), c)
  {
    var s' := TakeFrom(s, a, b, out, rest, plan);
    if c in s.disciplined {
      if s.agents[a] != Stored(c) { KeepsPending(s, s', a, c); }
      forall w | Admitted(s', c, w) ensures MatchesValue(s', c, w) || StorePending(s', c) {
        if c == b { assert w in rest; assert w in s.butexes[b].queue; }
        assert Admitted(s, c, w);
      }
    }
  }

  lemma FromTask(s: State, a: AgentId, b: ButexId, out: seq<WaiterId>, rest: seq<WaiterId>, plan: seq<Op>, t: TaskId)
    requires TakeOk(s, a, b, out, rest, plan) && t in s.tasks && TaskOk(s, t)
    ensures TaskOk(TakeFrom(s, a, b, out, rest, plan), t)
  {}

  lemma FromAgent(s: State, a: AgentId, b: ButexId, out: seq<WaiterId>, rest: seq<WaiterId>, plan: seq<Op>, c: AgentId)
    requires TakeOk(s, a, b, out, rest, plan) && c in s.agents && AgentOk(s, c)
    requires forall w {:trigger w in out} :: w in out ==> w in s.waiters && s.waiters[w].claim == Unclaimed
    ensures AgentOk(TakeFrom(s, a, b, out, rest, plan), c)
  {}

  // ---------- the plans of the wakes ----------

  lemma {:induction false} SplitKinds(ws: map<WaiterId, Waiter>, q: seq<WaiterId>)
    requires NoDuplicates(q) && forall w :: w in q ==> w in ws
    ensures var p, b := Pthreads(ws, q), Bthreads(ws, q);
            NoDuplicates(p) && NoDuplicates(b) && forall w :: (w in q <==> w in p || w in b) && !(w in p && w in b)
  {
    if q != [] {
      SplitKinds(ws, q[1..]);
      assert q[0] !in q[1..];
      assert forall w :: w in q <==> w == q[0] || w in q[1..];
      var p, b := Pthreads(ws, q[1..]), Bthreads(ws, q[1..]);
      assert q[0] !in p && q[0] !in b;
      if ws[q[0]].pthread {
        assert Pthreads(ws, q) == [q[0]] + p && Bthreads(ws, q) == b;
      } else {
        assert Pthreads(ws, q) == p && Bthreads(ws, q) == [q[0]] + b;
      }
    }
  }

  lemma {:induction false} SignalsPlan(q: seq<WaiterId>)
    requires NoDuplicates(q)
    ensures PlanFor(Signals(q), q)
  {
    if q != [] {
      SignalsPlan(q[1..]);
      assert q[0] !in q[1..];
      JoinPlans([Rouse(q[0])], [q[0]], Signals(q[1..]), q[1..]);
      assert q == [q[0]] + q[1..];
    }
  }

  lemma {:induction false} TailFirstPlan(q: seq<WaiterId>)
    requires NoDuplicates(q)
    ensures PlanFor(TailFirst(q), q)
  {
    if q != [] {
      var front, last := q[..|q| - 1], q[|q| - 1];
      TailFirstPlan(front);
      assert last !in front;
      JoinPlans([Unsleep(last), Rouse(last)], [last], TailFirst(front), front);
      SamePlan(TailFirst(q), [last] + front, q);
    }
  }

  lemma SamePlan(plan: seq<Op>, out: seq<WaiterId>, out2: seq<WaiterId>)
    requires PlanFor(plan, out) && forall w :: w in out <==> w in out2
    ensures PlanFor(plan, out2)
  {}

  /** Plans for disjoint groups of waiters can be run one after the other. */
  lemma JoinPlans(p: seq<Op>, out: seq<WaiterId>, p2: seq<Op>, out2: seq<WaiterId>)
    requires PlanFor(p, out) && PlanFor(p2, out2) && forall w :: !(w in out && w in out2)
    ensures PlanFor(p + p2, out + out2)
  {
    var all := p + p2;
    forall i, j | 0 <= i < j < |all| && all[i].Rouse?
      ensures all[i].w != all[j].w
    {
      if i < |p| && |p| <= j {
        assert p[i] in p && p2[j - |p|] in p2;
      }
    }
    forall op | op in all
      ensures op.w in out + out2 && Rouse(op.w) in all
    {
      assert op in p || op in p2;
      assert op.w in out || op.w in out2;
    }
    forall w | w in out + out2
      ensures Rouse(w) in all
    {
      assert w in out || w in out2;
    }
  }

  /** The first bthread is unslept before the others and roused after them. */
  lemma WrapPlan(first: WaiterId, p: seq<Op>, out: seq<WaiterId>)
    requires PlanFor(p, out) && first !in out
    ensures PlanFor([Unsleep(first)] + p + [Rouse(first)], [first] + out)
  {
    var all := [Unsleep(first)] + p + [Rouse(first)];
    assert all[|all| - 1] == Rouse(first);
    forall i, j | 0 <= i < j < |all| && all[i].Rouse?
      ensures all[i].w != all[j].w
    {
      assert all[i] == p[i - 1] && p[i - 1] in p;
      if j < |all| - 1 { assert all[j] == p[j - 1]; }
    }
    forall op | op in all
      ensures op.w in [first] + out && Rouse(op.w) in all
    {
      assert op == Unsleep(first) || op == Rouse(first) || op in p;
    }
    forall w | w in [first] + out
      ensures Rouse(w) in all
    {
      assert w == first || w in out;
    }
  }

  lemma AllPlanFor(ps: seq<WaiterId>, bs: seq<WaiterId>)
    requires NoDuplicates(ps) && NoDuplicates(bs) && forall w :: !(w in ps && w in bs)
    ensures PlanFor(AllPlan(ps, bs), ps + bs)
  {
    SignalsPlan(ps);
    if bs == [] {
      assert AllPlan(ps, bs) == Signals(ps) && ps + bs == ps;
    } else {
      TailFirstPlan(bs[1..]);
      assert bs[0] !in bs[1..];
      WrapPlan(bs[0], TailFirst(bs[1..]), bs[1..]);
      assert [bs[0]] + bs[1..] == bs;
      JoinPlans(Signals(ps), ps, [Unsleep(bs[0])] + TailFirst(bs[1..]) + [Rouse(bs[0])], bs);
    }
  }

  lemma ExceptPlanFor(ps: seq<WaiterId>, bs: seq<WaiterId>)
    requires NoDuplicates(ps) && NoDuplicates(bs) && forall w :: !(w in ps && w in bs)
    ensures PlanFor(ExceptPlan(ps, bs), ps + bs)
  {
    SignalsPlan(ps);
    TailFirstPlan(bs);
    JoinPlans(Signals(ps), ps, TailFirst(bs), bs);
  }

  lemma OnePlanFor(pthread: bool, w: WaiterId)
    ensures PlanFor(OnePlan(pthread, w), [w])
  {
    var plan := OnePlan(pthread, w);
    assert plan[|plan| - 1] == Rouse(w);
  }

  lemma {:induction false} SplitExcluded(ws: map<WaiterId, Waiter>, q: seq<WaiterId>, x: TaskId)
    requires NoDuplicates(q)
    ensures var k, d := Kept(ws, q, x), Dropped(ws, q, x);
            NoDuplicates(k) && NoDuplicates(d) && forall w :: (w in q <==> w in d || w in k) && !(w in d && w in k)
  {
    if q != [] {
      SplitExcluded(ws, q[1..], x);
      assert q[0] !in q[1..];
      assert forall w :: w in q <==> w == q[0] || w in q[1..];
      assert q[0] !in Kept(ws, q[1..], x) && q[0] !in Dropped(ws, q[1..], x);
    }
  }

  lemma WakeInv(s: State, a: AgentId, b: ButexId)
    requires Inv(s) && CanWake(s, a, b)
    ensures Inv(StepWake(s, a, b))
  {
    var q := s.butexes[b].queue;
    if q != [] {
      TakeFirstOk(s, a, b);
      TakeFromInv(s, a, b, [q[0]], q[1..], OnePlan(q[0] in s.waiters && s.waiters[q[0]].pthread, q[0]));
    }
  }

  lemma TakeFirstOk(s: State, a: AgentId, b: ButexId)
    requires Inv(s) && CanWake(s, a, b) && s.butexes[b].queue != []
    ensures var q := s.butexes[b].queue;
            TakeOk(s, a, b, [q[0]], q[1..], OnePlan(q[0] in s.waiters && s.waiters[q[0]].pthread, q[0]))
  {
    var q := s.butexes[b].queue;
    assert ButexOk(s, b);
    OnePlanFor(q[0] in s.waiters && s.waiters[q[0]].pthread, q[0]);
    assert q[0] !in q[1..];
    assert forall w :: w in q <==> w == q[0] || w in q[1..];
  }

  lemma WakeAllTakeOk(s: State, a: AgentId, b: ButexId)
    requires Inv(s) && CanWakeAll(s, a, b)
    ensures var q := s.butexes[b].queue;
            TakeOk(s, a, b, q, [], AllPlan(Pthreads(s.waiters, q), Bthreads(s.waiters, q)))
  {
    var q := s.butexes[b].queue;
    var ps, bs := Pthreads(s.waiters, q), Bthreads(s.waiters, q);
    assert ButexOk(s, b);
    SplitKinds(s.waiters, q);
    AllPlanFor(ps, bs);
    SamePlan(AllPlan(ps, bs), ps + bs, q);
  }

  lemma WakeAllInv(s: State, a: AgentId, b: ButexId)
    requires Inv(s) && CanWakeAll(s, a, b)
    ensures Inv(StepWakeAll(s, a, b))
  {
    var q := s.butexes[b].queue;
    WakeAllTakeOk(s, a, b);
    TakeFromInv(s, a, b, q, [], AllPlan(Pthreads(s.waiters, q), Bthreads(s.waiters, q)));
  }

  lemma WakeExceptTakeOk(s: State, a: AgentId, b: ButexId, excluded: TaskId)
    requires Inv(s) && CanWake(s, a, b)
    ensures var q := s.butexes[b].queue;
            var out := Dropped(s.waiters, q, excluded);
            TakeOk(s, a, b, out, Kept(s.waiters, q, excluded),
                   ExceptPlan(Pthreads(s.waiters, out), Bthreads(s.waiters, out)))
  {
    var q := s.butexes[b].queue;
    var out := Dropped(s.waiters, q, excluded);
    var ps, bs := Pthreads(s.waiters, out), Bthreads(s.waiters, out);
    assert ButexOk(s, b);
    SplitExcluded(s.waiters, q, excluded);
    SplitKinds(s.waiters, out);
    ExceptPlanFor(ps, bs);
    SamePlan(ExceptPlan(ps, bs), ps + bs, out);
  }

  lemma WakeExceptInv(s: State, a: AgentId, b: ButexId, excluded: TaskId)
    requires Inv(s) && CanWake(s, a, b)
    ensures Inv(StepWakeExcept(s, a, b, excluded))
  {
    var q := s.butexes[b].queue;
    var out := Dropped(s.waiters, q, excluded);
    WakeExceptTakeOk(s, a, b, excluded);
    TakeFromInv(s, a, b, out, Kept(s.waiters, q, excluded),
                ExceptPlan(Pthreads(s.waiters, out), Bthreads(s.waiters, out)));
  }

  ghost predicate MoveOk(s: State, b: ButexId, m: ButexId) {
    b != m && FreeList(s, b) && FreeList(s, m) && m !in s.disciplined && ButexOk(s, b) && ButexOk(s, m)
  }

  lemma MoveAllInv(s: State, b: ButexId, m: ButexId)
    requires Inv(s) && b != m && FreeList(s, b) && FreeList(s, m) && m !in s.disciplined
    ensures Inv(MoveAll(s, b, m, s.butexes[b].queue))
  {
    var s' := MoveAll(s, b, m, s.butexes[b].queue);
    assert ButexOk(s, b) && ButexOk(s, m);
    forall w | w in s'.waiters ensures WaiterOk(s', w) { assert WaiterOk(s, w); MoveWaiter(s, b, m, w); }
    forall c | c in s'.butexes ensures ButexOk(s', c) { assert ButexOk(s, c); MoveButex(s, b, m, c); }
    forall c | c in s'.butexes ensures DisciplineOk(s', c) { assert DisciplineOk(s, c); MoveDiscipline(s, b, m, c); }
    forall t | t in s'.tasks ensures TaskOk(s', t) { assert TaskOk(s, t); MoveTask(s, b, m, t); }
    forall a | a in s'.agents ensures AgentOk(s', a) { assert AgentOk(s, a); MoveAgent(s, b, m, a); }
  }

  lemma MoveWaiter(s: State, b: ButexId, m: ButexId, w: WaiterId)
    requires MoveOk(s, b, m) && w in s.waiters && WaiterOk(s, w)
    ensures w in MoveAll(s, b, m, s.butexes[b].queue).waiters && WaiterOk(MoveAll(s, b, m, s.butexes[b].queue), w)
  {}

  lemma MoveButex(s: State, b: ButexId, m: ButexId, c: ButexId)
    requires MoveOk(s, b, m) && c in s.butexes && ButexOk(s, c)
    ensures ButexOk(MoveAll(s, b, m, s.butexes[b].queue), c)
  {
    var s' := MoveAll(s, b, m, s.butexes[b].queue);
    forall w | w in s'.butexes[c].queue ensures w in s'.waiters && s'.waiters[w].container == Some(c) {
      assert w in s.butexes[c].queue || (c == m && w in s.butexes[b].queue);
    }
    JoinDistinct(s.butexes[m].queue, s.butexes[b].queue);
  }

  lemma JoinDistinct(p: seq<WaiterId>, q: seq<WaiterId>)
    requires NoDuplicates(p) && NoDuplicates(q)
    ensures (forall w {:trigger w in p} {:trigger w in q} :: !(w in p && w in q)) ==> NoDuplicates(p + q)
  {
    if forall w {:trigger w in p} {:trigger w in q} :: !(w in p && w in q) {
      forall i, j | 0 <= i < j < |p + q| ensures (p + q)[i] != (p + q)[j] {
        if i < |p| <= j { assert p[i] in p && q[j - |p|] in q; }
      }
    }
  }

  lemma MoveDiscipline(s: State, b: ButexId, m: ButexId, c: ButexId)
    requires MoveOk(s, b, m) && c in s.butexes && DisciplineOk(s, c)
    ensures DisciplineOk(MoveAll(s, b, m, s.butexes[b].queue), c)
  {
    var s' := MoveAll(s, b, m, s.butexes[b].queue);
    if c in s.disciplined {
      forall w | Admitted(s', c, w) ensures MatchesValue(s', c, w) || StorePending(s', c) {
        assert Admitted(s, c, w);
      }
    }
  }

  lemma MoveTask(s: State, b: ButexId, m: ButexId, t: TaskId)
    requires MoveOk(s, b, m) && t in s.tasks && TaskOk(s, t)
    ensures TaskOk(MoveAll(s, b, m, s.butexes[b].queue), t)
  {}

  lemma MoveAgent(s: State, b: ButexId, m: ButexId, a: AgentId)
    requires MoveOk(s, b, m) && a in s.agents && AgentOk(s, a)
    ensures AgentOk(MoveAll(s, b, m, s.butexes[b].queue), a)
  {}

  lemma RequeueInv(s: State, a: AgentId, b: ButexId, m: ButexId)
    requires Inv(s) && CanRequeue(s, a, b, m)
    ensures Inv(StepRequeue(s, a, b, m))
  {
    var q := s.butexes[b].queue;
    if q != [] {
      TakeFirstOk(s, a, b);
      var plan := OnePlan(q[0] in s.waiters && s.waiters[q[0]].pthread, q[0]);
      TakeFromInv(s, a, b, [q[0]], q[1..], plan);
      MoveAllInv(TakeFrom(s, a, b, [q[0]], q[1..], plan), b, m);
    }
  }
}
