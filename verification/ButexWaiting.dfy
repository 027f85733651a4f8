/** The waiting thread's own steps keep the butex invariant. */
module ButexWaiting {
  import opened Wrappers
  import opened ButexModel
  import opened ButexInvariant

  // ---------- steps that change one waiter record ----------

  predicate Referenced(c: Claim) {
    c.ByWaker? || c.ByInterrupter?
  }

  predicate SamePhase(p: Pc, q: Pc) {
    && (p == Preparing <==> q == Preparing) && (p == Clearing <==> q == Clearing)
    && (p == Returned <==> q == Returned)
    && (p == CheckInterrupt || p == Queueing <==> q == CheckInterrupt || q == Queueing)
  }

  /** `r2` is `r` as far as lists, tasks and agents can tell. */
  predicate SameOutside(r: Waiter, r2: Waiter) {
    && r2.container == r.container && r2.task == r.task && r2.target == r.target
    && r2.expected == r.expected && r2.pthread == r.pthread
    && (r2.claim == r.claim || (!Referenced(r.claim) && !Referenced(r2.claim)))
  }

  lemma RecordChange(s: State, w: WaiterId, r2: Waiter)
    requires Inv(s) && w in s.waiters
    requires SameOutside(s.waiters[w], r2) && SamePhase(s.waiters[w].pc, r2.pc)
    requires WaiterOk(SetWaiter(s, w, r2), w)
    ensures Inv(SetWaiter(s, w, r2))
  {
    var s' := SetWaiter(s, w, r2);
    forall v | v in s'.waiters ensures WaiterOk(s', v) {
      if v != w { RecordWaiter(s, w, r2, v); }
    }
    forall b | b in s'.butexes ensures ButexOk(s', b) { RecordButex(s, w, r2, b); }
    forall b | b in s'.butexes ensures DisciplineOk(s', b) { RecordDiscipline(s, w, r2, b); }
    forall t | t in s'.tasks ensures TaskOk(s', t) { RecordTask(s, w, r2, t); }
    forall a | a in s'.agents ensures AgentOk(s', a) { RecordAgent(s, w, r2, a); }
  }

  lemma RecordWaiter(s: State, w: WaiterId, r2: Waiter, v: WaiterId)
    requires w in s.waiters && v in s.waiters && v != w && WaiterOk(s, v)
    ensures WaiterOk(SetWaiter(s, w, r2), v)
  {}

  lemma RecordButex(s: State, w: WaiterId, r2: Waiter, b: ButexId)
    requires w in s.waiters && b in s.butexes && ButexOk(s, b)
    requires SameOutside(s.waiters[w], r2) && SamePhase(s.waiters[w].pc, r2.pc)
    ensures ButexOk(SetWaiter(s, w, r2), b)
  {}

  lemma RecordDiscipline(s: State, w: WaiterId, r2: Waiter, b: ButexId)
    requires w in s.waiters && b in s.butexes && DisciplineOk(s, b)
    requires SameOutside(s.waiters[w], r2)
    ensures DisciplineOk(SetWaiter(s, w, r2), b)
  {
    var s' := SetWaiter(s, w, r2);
    if b in s.disciplined {
      forall v | Admitted(s', b, v) ensures MatchesValue(s', b, v) || StorePending(s', b) {
        assert Admitted(s, b, v);
      }
    }
  }

  lemma RecordTask(s: State, w: WaiterId, r2: Waiter, t: TaskId)
    requires w in s.waiters && t in s.tasks && TaskOk(s, t)
    requires SameOutside(s.waiters[w], r2) && SamePhase(s.waiters[w].pc, r2.pc)
    ensures TaskOk(SetWaiter(s, w, r2), t)
  {}

  lemma RecordAgent(s: State, w: WaiterId, r2: Waiter, a: AgentId)
    requires w in s.waiters && a in s.agents && AgentOk(s, a)
    requires SameOutside(s.waiters[w], r2)
    ensures AgentOk(SetWaiter(s, w, r2), a)
  {}

  lemma RecordAfterOk(r: Waiter, e: Event)
    requires RecordStep(e) && RecordGuard(r, e) && PhaseOk(r) && TimerOk(r) && CountOk(r)
    ensures var r2 := RecordAfter(r, e);
            && PhaseOk(r2) && TimerOk(r2) && CountOk(r2) && SameOutside(r, r2) && SamePhase(r.pc, r2.pc)
            && (BeforeQueue(r2.pc) ==> BeforeQueue(r.pc)) && r2.wstate == r.wstate
  {}

  lemma RecordStepInv(s: State, e: Event)
    requires Inv(s) && RecordStep(e) && e.w in s.waiters && RecordGuard(s.waiters[e.w], e)
    ensures Inv(SetWaiter(s, e.w, RecordAfter(s.waiters[e.w], e)))
  {
    assert WaiterOk(s, e.w);
    RecordAfterOk(s.waiters[e.w], e);
    RecordChange(s, e.w, RecordAfter(s.waiters[e.w], e));
  }

  // ---------- steps that change a waiter and its task ----------

  /** `w` is the wait that task `t` is in, and moves on together with the task record. */
  lemma PairChange(s: State, w: WaiterId, r2: Waiter, t: TaskId, x2: Task)
    requires Inv(s) && w in s.waiters && t in s.tasks && s.tasks[t].active == Some(w)
    requires SameOutside(s.waiters[w], r2)
    requires s.waiters[w].pc != CheckInterrupt && s.waiters[w].pc != Queueing
    requires x2.taker == s.tasks[t].taker && x2.lock == s.tasks[t].lock
    requires x2.active == s.tasks[t].active || x2.taker == None
    requires var s' := SetTask(SetWaiter(s, w, r2), t, x2); WaiterOk(s', w) && TaskOk(s', t)
    ensures Inv(SetTask(SetWaiter(s, w, r2), t, x2))
  {
    var s' := SetTask(SetWaiter(s, w, r2), t, x2);
    assert WaiterOk(s, w) && TaskOk(s, t);
    forall v | v in s'.waiters ensures WaiterOk(s', v) {
      if v != w { assert WaiterOk(s, v); PairWaiter(s, w, r2, t, x2, v); }
    }
    forall b | b in s'.butexes ensures ButexOk(s', b) { assert ButexOk(s, b); PairButex(s, w, r2, t, x2, b); }
    forall b | b in s'.butexes ensures DisciplineOk(s', b) {
      assert DisciplineOk(s, b); PairDiscipline(s, w, r2, t, x2, b);
    }
    forall u | u in s'.tasks ensures TaskOk(s', u) {
      if u != t { assert TaskOk(s, u); PairTask(s, w, r2, t, x2, u); }
    }
    forall a | a in s'.agents ensures AgentOk(s', a) { assert AgentOk(s, a); PairAgent(s, w, r2, t, x2, a); }
  }

  lemma PairWaiter(s: State, w: WaiterId, r2: Waiter, t: TaskId, x2: Task, v: WaiterId)
    requires w in s.waiters && t in s.tasks && s.tasks[t].active == Some(w)
    requires v in s.waiters && v != w && WaiterOk(s, v)
    ensures WaiterOk(SetTask(SetWaiter(s, w, r2), t, x2), v)
  {}

  lemma PairButex(s: State, w: WaiterId, r2: Waiter, t: TaskId, x2: Task, b: ButexId)
    requires w in s.waiters && b in s.butexes && ButexOk(s, b) && SameOutside(s.waiters[w], r2)
    requires s.waiters[w].pc != CheckInterrupt && s.waiters[w].pc != Queueing
    ensures ButexOk(SetTask(SetWaiter(s, w, r2), t, x2), b)
  {}

  lemma PairDiscipline(s: State, w: WaiterId, r2: Waiter, t: TaskId, x2: Task, b: ButexId)
    requires w in s.waiters && b in s.butexes && DisciplineOk(s, b) && SameOutside(s.waiters[w], r2)
    ensures DisciplineOk(SetTask(SetWaiter(s, w, r2), t, x2), b)
  {
    RecordDiscipline(s, w, r2, b);
    var s1, s' := SetWaiter(s, w, r2), SetTask(SetWaiter(s, w, r2), t, x2);
    if b in s.disciplined {
      forall v | Admitted(s', b, v) ensures MatchesValue(s', b, v) || StorePending(s', b) {
        assert Admitted(s1, b, v);
      }
    }
  }

  lemma PairTask(s: State, w: WaiterId, r2: Waiter, t: TaskId, x2: Task, u: TaskId)
    requires w in s.waiters && t in s.tasks && u in s.tasks && u != t && s.waiters[w].task == Some(t) && TaskOk(s, u)
    ensures TaskOk(SetTask(SetWaiter(s, w, r2), t, x2), u)
  {}

  lemma PairAgent(s: State, w: WaiterId, r2: Waiter, t: TaskId, x2: Task, a: AgentId)
    requires w in s.waiters && t in s.tasks && a in s.agents && AgentOk(s, a) && SameOutside(s.waiters[w], r2)
    requires x2.taker == s.tasks[t].taker && x2.lock == s.tasks[t].lock
    requires x2.active == s.tasks[t].active || x2.taker == None
    ensures AgentOk(SetTask(SetWaiter(s, w, r2), t, x2), a)
  {}

  predicate PcMove(p: Pc, q: Pc) {
    || (p == Preparing && q == Published) || (p == Declined && q == Taking)
    || (p == Taking && q == Clearing) || (p == Clearing && q == Returned)
  }

  lemma PcMoveOk(r: Waiter, pc: Pc)
    requires PcMove(r.pc, pc) && PhaseOk(r) && TimerOk(r)
    ensures PhaseOk(r.(pc := pc)) && TimerOk(r.(pc := pc)) && SameOutside(r, r.(pc := pc))
  {}

  lemma PairSelf(s: State, w: WaiterId, pc: Pc, t: TaskId, x2: Task)
    requires w in s.waiters && t in s.tasks && WaiterOk(s, w) && s.waiters[w].task == Some(t)
    requires PcMove(s.waiters[w].pc, pc) && (pc == Returned || x2.active == s.tasks[t].active)
    ensures WaiterOk(SetTask(SetWaiter(s, w, s.waiters[w].(pc := pc)), t, x2), w)
    ensures SameOutside(s.waiters[w], s.waiters[w].(pc := pc))
  {
    PcMoveOk(s.waiters[w], pc);
  }

  lemma PairTaskSelf(s: State, w: WaiterId, pc: Pc, t: TaskId, x2: Task)
    requires t in s.tasks && TaskOk(s, t) && s.tasks[t].active == Some(w)
    requires MoveTogether(s, w, pc, t, x2)
    ensures TaskOk(SetTask(SetWaiter(s, w, s.waiters[w].(pc := pc)), t, x2), t)
  {}

  /** A pthread outside the worker pool has no task that could refer to its waiter. */
  lemma FreeRecordChange(s: State, w: WaiterId, r2: Waiter)
    requires Inv(s) && w in s.waiters && s.waiters[w].task == None && SameOutside(s.waiters[w], r2)
    requires s.waiters[w].pc != CheckInterrupt && s.waiters[w].pc != Queueing
    requires WaiterOk(SetWaiter(s, w, r2), w)
    ensures Inv(SetWaiter(s, w, r2))
  {
    var s' := SetWaiter(s, w, r2);
    forall v | v in s'.waiters ensures WaiterOk(s', v) {
      if v != w { assert WaiterOk(s, v); RecordWaiter(s, w, r2, v); }
    }
    forall b | b in s'.butexes ensures ButexOk(s', b) { assert ButexOk(s, b); }
    forall b | b in s'.butexes ensures DisciplineOk(s', b) { assert DisciplineOk(s, b); RecordDiscipline(s, w, r2, b); }
    forall t | t in s'.tasks ensures TaskOk(s', t) { assert TaskOk(s, t); }
    forall a | a in s'.agents ensures AgentOk(s', a) { assert AgentOk(s, a); RecordAgent(s, w, r2, a); }
  }

  /** The wait of task `t` moves to `pc` while the task record becomes `x2`. */
  ghost predicate MoveTogether(s: State, w: WaiterId, pc: Pc, t: TaskId, x2: Task) {
    && w in s.waiters && t in s.tasks && s.waiters[w].task == Some(t) && PcMove(s.waiters[w].pc, pc)
    && x2.taker == s.tasks[t].taker && x2.lock == s.tasks[t].lock
    && match pc
       case Published => x2.current == Some(w) && x2.active == s.tasks[t].active
       case Taking => x2.current == s.tasks[t].current && x2.active == s.tasks[t].active
       case Clearing => s.tasks[t].current.Some? && x2.current == None && x2.active == s.tasks[t].active
       case _ => x2.current == s.tasks[t].current && x2.active == None
  }

  lemma MoveTogetherInv(s: State, w: WaiterId, pc: Pc, t: TaskId, x2: Task)
    requires Inv(s) && MoveTogether(s, w, pc, t, x2)
    ensures Inv(SetTask(SetWaiter(s, w, s.waiters[w].(pc := pc)), t, x2))
  {
    assert WaiterOk(s, w);
    assert TaskOk(s, t);
    PairSelf(s, w, pc, t, x2);
    PairTaskSelf(s, w, pc, t, x2);
    PairChange(s, w, s.waiters[w].(pc := pc), t, x2);
  }

  lemma FreeMoveRecord(r: Waiter, pc: Pc)
    requires r.pthread && PhaseOk(r) && TimerOk(r) && CountOk(r)
    requires PcMove(r.pc, pc) || (r.pc == Taking && pc == Returned)
    ensures PhaseOk(r.(pc := pc)) && TimerOk(r.(pc := pc)) && CountOk(r.(pc := pc))
    ensures BeforeQueue(pc) ==> BeforeQueue(r.pc)
    ensures pc != CheckInterrupt && pc != Queueing
  {}

  lemma FreeMoveSelf(s: State, w: WaiterId, pc: Pc)
    requires w in s.waiters && s.waiters[w].task == None && WaiterOk(s, w)
    requires PcMove(s.waiters[w].pc, pc) || (s.waiters[w].pc == Taking && pc == Returned)
    ensures WaiterOk(SetWaiter(s, w, s.waiters[w].(pc := pc)), w)
  {
    FreeMoveRecord(s.waiters[w], pc);
  }

  lemma FreeMoveInv(s: State, w: WaiterId, pc: Pc)
    requires Inv(s) && w in s.waiters && s.waiters[w].task == None
    requires PcMove(s.waiters[w].pc, pc) || (s.waiters[w].pc == Taking && pc == Returned)
    ensures Inv(SetWaiter(s, w, s.waiters[w].(pc := pc)))
  {
    assert WaiterOk(s, w);
    FreeMoveSelf(s, w, pc);
    FreeRecordChange(s, w, s.waiters[w].(pc := pc));
  }

  lemma PublishInv(s: State, w: WaiterId)
    requires Inv(s) && CanPublish(s, w)
    ensures Inv(StepPublish(s, w))
  {
    var task := s.waiters[w].task;
    if task.Some? {
      assert WaiterOk(s, w);
      assert TaskOk(s, task.value);
      MoveTogetherInv(s, w, Published, task.value, s.tasks[task.value].(current := Some(w)));
    } else {
      FreeMoveInv(s, w, Published);
    }
  }

  lemma DeclineInv(s: State, w: WaiterId)
    requires Inv(s) && CanDecline(s, w)
    ensures Inv(StepDecline(s, w))
  {
    var task := s.waiters[w].task;
    if task.Some? {
      MoveTogetherInv(s, w, Taking, task.value, s.tasks[task.value].(interrupted := false));
    } else {
      FreeMoveInv(s, w, Taking);
    }
  }

  lemma SpinTakeInv(s: State, w: WaiterId)
    requires Inv(s) && CanSpinTake(s, w)
    ensures Inv(StepSpinTake(s, w))
  {
    var task := s.waiters[w].task;
    if task == None {
      FreeMoveInv(s, w, Returned);
    } else if s.tasks[task.value].current.Some? {
      MoveTogetherInv(s, w, Clearing, task.value, s.tasks[task.value].(current := None));
    }
  }

  lemma ClearFlagInv(s: State, w: WaiterId)
    requires Inv(s) && CanClearFlag(s, w)
    ensures Inv(StepClearFlag(s, w))
  {
    var task := s.waiters[w].task;
    if task.Some? {
      MoveTogetherInv(s, w, Returned, task.value, s.tasks[task.value].(interrupted := false, active := None));
    } else {
      FreeMoveInv(s, w, Returned);
    }
  }

  /** A new waiter is referred to by nobody but its own task. */
  ghost predicate BeginFrame(s: State, w: WaiterId, r: Waiter) {
    && w !in s.waiters && r.target in s.butexes && (!r.pthread ==> r.task.Some?)
    && (r.task.Some? ==> r.task.value in s.tasks && s.tasks[r.task.value].active == None)
    && r == FreshWaiter(r.task, r.pthread, r.target, r.expected, r.timed)
  }

  lemma BeginInv(s: State, w: WaiterId, r: Waiter)
    requires Inv(s) && BeginFrame(s, w, r)
    ensures Inv(StepBegin(s, w, r))
  {
    var s' := StepBegin(s, w, r);
    forall v | v in s'.waiters ensures WaiterOk(s', v) {
      if v != w { assert WaiterOk(s, v); }
      BeginWaiter(s, w, r, v);
    }
    forall b | b in s'.butexes ensures ButexOk(s', b) { assert ButexOk(s, b); BeginButex(s, w, r, b); }
    forall b | b in s'.butexes ensures DisciplineOk(s', b) {
      assert DisciplineOk(s, b) && ButexOk(s, b);
      BeginButex(s, w, r, b);
    }
    forall t | t in s'.tasks ensures TaskOk(s', t) { assert TaskOk(s, t); BeginTask(s, w, r, t); }
    forall a | a in s'.agents ensures AgentOk(s', a) { assert AgentOk(s, a); BeginAgent(s, w, r, a); }
  }

  lemma BeginWaiter(s: State, w: WaiterId, r: Waiter, v: WaiterId)
    requires BeginFrame(s, w, r) && (v == w || (v in s.waiters && WaiterOk(s, v)))
    ensures v in StepBegin(s, w, r).waiters && WaiterOk(StepBegin(s, w, r), v)
  {}

  lemma BeginButex(s: State, w: WaiterId, r: Waiter, b: ButexId)
    requires BeginFrame(s, w, r) && b in s.butexes && ButexOk(s, b)
    ensures ButexOk(StepBegin(s, w, r), b)
    ensures DisciplineOk(s, b) ==> DisciplineOk(StepBegin(s, w, r), b)
  {
    var s' := StepBegin(s, w, r);
    if DisciplineOk(s, b) && b in s.disciplined {
      forall v | Admitted(s', b, v) ensures MatchesValue(s', b, v) || StorePending(s', b) {
        assert Admitted(s, b, v);
      }
    }
  }

  lemma BeginTask(s: State, w: WaiterId, r: Waiter, t: TaskId)
    requires BeginFrame(s, w, r) && t in s.tasks && TaskOk(s, t)
    ensures TaskOk(StepBegin(s, w, r), t)
  {}

  lemma BeginAgent(s: State, w: WaiterId, r: Waiter, a: AgentId)
    requires BeginFrame(s, w, r) && a in s.agents && AgentOk(s, a)
    ensures AgentOk(StepBegin(s, w, r), a)
  {}

  // ---------- steps that change a waiter and one list ----------

  function SetBoth(s: State, b: ButexId, x2: Butex, w: WaiterId, r2: Waiter): State {
    SetWaiter(SetButex(s, b, x2), w, r2)
  }

  predicate Midway(pc: Pc) {
    pc != Preparing && pc != Clearing && pc != Returned
  }

  /** Only `w` enters or leaves the list of `b`, and only `w` may take or release its lock. */
  ghost predicate ListFrame(s: State, b: ButexId, x2: Butex, w: WaiterId, r2: Waiter)
    requires w in s.waiters && b in s.butexes
  {
    var r, x := s.waiters[w], s.butexes[b];
    && x2.value == x.value && (x.holder == None || x.holder == Some(w)) && (x2.holder == None || x2.holder == Some(w))
    && (forall v {:trigger v in x2.queue} {:trigger v in x.queue} :: v != w ==> (v in x2.queue <==> v in x.queue))
    && (r.container == None || r.container == Some(b))
    && (w in x2.queue || x2.holder == Some(w) ==> w in x.queue || x.holder == Some(w) || x.value == r.expected)
    && r2.task == r.task && r2.target == r.target && r2.expected == r.expected && r2.pthread == r.pthread
    && !Referenced(r.claim) && !Referenced(r2.claim) && Midway(r.pc) && Midway(r2.pc)
    && (r.pc == CheckInterrupt || r.pc == Queueing ==> r.target == b)
  }

  lemma ListChange(s: State, b: ButexId, x2: Butex, w: WaiterId, r2: Waiter)
    requires Inv(s) && w in s.waiters && b in s.butexes && ListFrame(s, b, x2, w, r2)
    requires WaiterOk(SetBoth(s, b, x2, w, r2), w) && ButexOk(SetBoth(s, b, x2, w, r2), b)
    ensures Inv(SetBoth(s, b, x2, w, r2))
  {
    var s' := SetBoth(s, b, x2, w, r2);
    forall v | v in s'.waiters ensures WaiterOk(s', v) {
      if v != w { assert WaiterOk(s, v); ListWaiter(s, b, x2, w, r2, v); }
    }
    forall c | c in s'.butexes ensures ButexOk(s', c) {
      if c != b { assert ButexOk(s, c); ListButex(s, b, x2, w, r2, c); }
    }
    forall c | c in s'.butexes ensures DisciplineOk(s', c) {
      assert DisciplineOk(s, c);
      ListDiscipline(s, b, x2, w, r2, c);
    }
    forall t | t in s'.tasks ensures TaskOk(s', t) { assert TaskOk(s, t); ListTask(s, b, x2, w, r2, t); }
    forall a | a in s'.agents ensures AgentOk(s', a) { assert AgentOk(s, a); ListAgent(s, b, x2, w, r2, a); }
  }

  lemma ListWaiter(s: State, b: ButexId, x2: Butex, w: WaiterId, r2: Waiter, v: WaiterId)
    requires w in s.waiters && b in s.butexes && ListFrame(s, b, x2, w, r2)
    requires v in s.waiters && v != w && WaiterOk(s, v)
    ensures WaiterOk(SetBoth(s, b, x2, w, r2), v)
  {}

  lemma ListButex(s: State, b: ButexId, x2: Butex, w: WaiterId, r2: Waiter, c: ButexId)
    requires w in s.waiters && b in s.butexes && ListFrame(s, b, x2, w, r2) && c in s.butexes && c != b && ButexOk(s, c)
    ensures ButexOk(SetBoth(s, b, x2, w, r2), c)
  {}

  lemma ListDiscipline(s: State, b: ButexId, x2: Butex, w: WaiterId, r2: Waiter, c: ButexId)
    requires w in s.waiters && b in s.butexes && ListFrame(s, b, x2, w, r2) && c in s.butexes && DisciplineOk(s, c)
    ensures DisciplineOk(SetBoth(s, b, x2, w, r2), c)
  {
    var s' := SetBoth(s, b, x2, w, r2);
    if c in s.disciplined {
      assert StorePending(s, c) ==> StorePending(s', c);
      forall v | Admitted(s', c, v) ensures MatchesValue(s', c, v) || StorePending(s', c) {
        if Admitted(s, c, v) { assert MatchesValue(s, c, v) || StorePending(s, c); }
      }
    }
  }

  lemma ListTask(s: State, b: ButexId, x2: Butex, w: WaiterId, r2: Waiter, t: TaskId)
    requires w in s.waiters && b in s.butexes && ListFrame(s, b, x2, w, r2) && t in s.tasks && TaskOk(s, t)
    ensures TaskOk(SetBoth(s, b, x2, w, r2), t)
  {}

  lemma ListAgent(s: State, b: ButexId, x2: Butex, w: WaiterId, r2: Waiter, a: AgentId)
    requires w in s.waiters && b in s.butexes && ListFrame(s, b, x2, w, r2) && a in s.agents && AgentOk(s, a)
    ensures AgentOk(SetBoth(s, b, x2, w, r2), a)
  {}

  lemma AdmitSelf(s: State, w: WaiterId)
    requires CanCheckValue(s, w) && WaiterOk(s, w) && ButexOk(s, s.waiters[w].target)
    ensures var b, x2 := s.waiters[w].target, s.butexes[s.waiters[w].target].(holder := Some(w));
            var r2 := s.waiters[w].(pc := CheckInterrupt);
            WaiterOk(SetBoth(s, b, x2, w, r2), w) && ButexOk(SetBoth(s, b, x2, w, r2), b)
  {}

  lemma RefuseSelf(s: State, w: WaiterId, r2: Waiter)
    requires CanCheckValue(s, w) && WaiterOk(s, w)
    requires r2 == (if s.waiters[w].pthread then s.waiters[w].(pc := Taking)
                    else s.waiters[w].(pc := Unqueued, claim := ByCallback, wstate := r2.wstate))
    ensures WaiterOk(SetWaiter(s, w, r2), w) && SameOutside(s.waiters[w], r2)
  {}

  lemma RefuseInv(s: State, w: WaiterId, r2: Waiter)
    requires Inv(s) && CanCheckValue(s, w)
    requires r2 == (if s.waiters[w].pthread then s.waiters[w].(pc := Taking)
                    else s.waiters[w].(pc := Unqueued, claim := ByCallback, wstate := r2.wstate))
    ensures Inv(SetWaiter(s, w, r2))
  {
    assert WaiterOk(s, w);
    RefuseSelf(s, w, r2);
    RecordChange(s, w, r2);
  }

  lemma AdmitInv(s: State, w: WaiterId)
    requires Inv(s) && CanCheckValue(s, w) && s.butexes[s.waiters[w].target].value == s.waiters[w].expected
    ensures var b, r := s.waiters[w].target, s.waiters[w];
            Inv(SetBoth(s, b, s.butexes[b].(holder := Some(w)), w, r.(pc := CheckInterrupt)))
  {
    var b, r := s.waiters[w].target, s.waiters[w];
    assert WaiterOk(s, w);
    assert ButexOk(s, b);
    AdmitSelf(s, w);
    ListChange(s, b, s.butexes[b].(holder := Some(w)), w, r.(pc := CheckInterrupt));
  }

  lemma CheckValueInv(s: State, w: WaiterId)
    requires Inv(s) && CanCheckValue(s, w)
    ensures Inv(StepCheckValue(s, w))
  {
    var r := s.waiters[w];
    if s.butexes[r.target].value == r.expected && r.wstate == Ready {
      AdmitInv(s, w);
    } else {
      RefuseInv(s, w, StepCheckValue(s, w).waiters[w]);
    }
  }

  lemma PassFlagSelf(s: State, w: WaiterId)
    requires w in s.waiters && WaiterOk(s, w) && s.waiters[w].pc == CheckInterrupt
    ensures WaiterOk(SetWaiter(s, w, s.waiters[w].(pc := Queueing)), w)
  {}

  lemma PassFlagInv(s: State, w: WaiterId)
    requires Inv(s) && CanCheckFlag(s, w)
    ensures Inv(SetWaiter(s, w, s.waiters[w].(pc := Queueing)))
  {
    assert WaiterOk(s, w);
    PassFlagSelf(s, w);
    RecordChange(s, w, s.waiters[w].(pc := Queueing));
  }

  lemma StopAtFlagInv(s: State, w: WaiterId, r2: Waiter)
    requires Inv(s) && CanCheckFlag(s, w)
    requires r2 == if s.waiters[w].pthread then s.waiters[w].(pc := Declined)
                   else s.waiters[w].(pc := Unqueued, claim := ByCallback)
    ensures var b := s.waiters[w].target; Inv(SetBoth(s, b, s.butexes[b].(holder := None), w, r2))
  {
    var b := s.waiters[w].target;
    assert WaiterOk(s, w) && ButexOk(s, b);
    FlagSelf(s, w, b);
    ListChange(s, b, s.butexes[b].(holder := None), w, r2);
  }

  lemma CheckFlagInv(s: State, w: WaiterId)
    requires Inv(s) && CanCheckFlag(s, w)
    ensures Inv(StepCheckFlag(s, w))
  {
    var r := s.waiters[w];
    if r.task.Some? && s.tasks[r.task.value].interrupted {
      StopAtFlagInv(s, w, StepCheckFlag(s, w).waiters[w]);
    } else {
      PassFlagInv(s, w);
    }
  }

  lemma FlagSelf(s: State, w: WaiterId, b: ButexId)
    requires w in s.waiters && b in s.butexes && WaiterOk(s, w) && ButexOk(s, b) && s.waiters[w].pc == CheckInterrupt
    requires s.waiters[w].target == b
    ensures var r, x2 := s.waiters[w], s.butexes[b].(holder := None);
            var r2 := if r.pthread then r.(pc := Declined) else r.(pc := Unqueued, claim := ByCallback);
            WaiterOk(SetBoth(s, b, x2, w, r2), w) && ButexOk(SetBoth(s, b, x2, w, r2), b)
  {}

  lemma EnqueueInv(s: State, w: WaiterId)
    requires Inv(s) && CanEnqueue(s, w)
    ensures Inv(StepEnqueue(s, w))
  {
    var r := s.waiters[w];
    var x := s.butexes[r.target];
    assert WaiterOk(s, w) && ButexOk(s, r.target) && DisciplineOk(s, r.target);
    var x2, r2 := x.(queue := x.queue + [w], holder := None), r.(pc := Parked, container := Some(r.target));
    EnqueueSelf(s, w, r.target, x2, r2);
    ListChange(s, r.target, x2, w, r2);
  }

  lemma EnqueueSelf(s: State, w: WaiterId, b: ButexId, x2: Butex, r2: Waiter)
    requires w in s.waiters && b in s.butexes && WaiterOk(s, w) && ButexOk(s, b) && s.waiters[w].pc == Queueing
    requires s.waiters[w].target == b
    requires x2 == s.butexes[b].(queue := s.butexes[b].queue + [w], holder := None)
    requires r2 == s.waiters[w].(pc := Parked, container := Some(b))
    ensures WaiterOk(SetBoth(s, b, x2, w, r2), w) && ButexOk(SetBoth(s, b, x2, w, r2), b)
  {
    assert w !in s.butexes[b].queue;
  }
}
