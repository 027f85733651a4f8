/** Timers, interrupters and timed-out pthreads keep the butex invariant. */
module ButexErasing {
  import opened Wrappers
  import opened ButexModel
  import opened ButexInvariant
  import opened ButexWaiting

  // ---------- erase_from_butex ----------

  lemma {:induction false} WithoutFacts(q: seq<WaiterId>, w: WaiterId)
    requires NoDuplicates(q)
    ensures NoDuplicates(Without(q, w))
    ensures forall v {:trigger v in Without(q, w)} {:trigger v in q} :: v in Without(q, w) <==> v in q && v != w
  {
    if q != [] {
      assert forall v :: v in q <==> v == q[0] || v in q[1..];
      if q[0] != w {
        WithoutFacts(q[1..], w);
        assert q[0] !in Without(q[1..], w);
      }
    }
  }

  /** Taking `w` out of the list its container names keeps the list and the waiter in order. */
  lemma EraseSelfOk(s: State, w: WaiterId, b: ButexId, r2: Waiter)
    requires w in s.waiters && b in s.butexes && WaiterOk(s, w) && ButexOk(s, b) && s.waiters[w].container == Some(b)
    requires r2 == s.waiters[w].(container := None, claim := r2.claim, wstate := r2.wstate, pc := r2.pc,
                                 timer := r2.timer)
    requires PhaseOk(r2) && TimerOk(r2) && CountOk(r2) && LocksExist(s, r2)
    requires !Referenced(r2.claim) && r2.pc != Returned && !BeforeQueue(r2.pc)
    ensures var x2 := s.butexes[b].(queue := Without(s.butexes[b].queue, w));
            WaiterOk(SetBoth(s, b, x2, w, r2), w) && ButexOk(SetBoth(s, b, x2, w, r2), b)
  {
    WithoutFacts(s.butexes[b].queue, w);
  }

  lemma EraseListInv(s: State, w: WaiterId, b: ButexId, r2: Waiter)
    requires Inv(s) && w in s.waiters && FreeList(s, b) && s.waiters[w].container == Some(b)
    requires r2 == s.waiters[w].(container := None, claim := r2.claim, wstate := r2.wstate, pc := r2.pc,
                                 timer := r2.timer)
    requires PhaseOk(r2) && TimerOk(r2) && CountOk(r2) && !Referenced(r2.claim) && Midway(r2.pc) && !BeforeQueue(r2.pc)
    requires LocksExist(s, r2)
    ensures Inv(SetBoth(s, b, s.butexes[b].(queue := Without(s.butexes[b].queue, w)), w, r2))
  {
    assert WaiterOk(s, w) && ButexOk(s, b);
    WithoutFacts(s.butexes[b].queue, w);
    EraseSelfOk(s, w, b, r2);
    ListChange(s, b, s.butexes[b].(queue := Without(s.butexes[b].queue, w)), w, r2);
  }

  lemma TimerRecordOk(r: Waiter)
    requires PhaseOk(r) && TimerOk(r) && CountOk(r) && r.timer.Firing? && r.timer.step != Finished
    ensures var r2 := ErasedRecord(r, r.timer.step, ByTimer, TimedOut).(timer := Firing(NextStep(r, r.timer.step)));
            && PhaseOk(r2) && TimerOk(r2) && CountOk(r2) && (Midway(r.pc) <==> Midway(r2.pc)) && SamePhase(r.pc, r2.pc)
            && !Referenced(r2.claim) == !Referenced(r.claim) && (Referenced(r.claim) ==> r2.claim == r.claim)
            && (r.container.Some? ==> Midway(r2.pc) && !BeforeQueue(r2.pc))
            && (BeforeQueue(r2.pc) ==> BeforeQueue(r.pc))
            && (r2.wstate != r.wstate ==> !BeforeQueue(r.pc))
            && (r.container == r2.container || (r.timer.step.LockList? && r.container == Some(r.timer.step.b)))
  {}

  lemma SelfRecordOk(r: Waiter)
    requires PhaseOk(r) && TimerOk(r) && CountOk(r) && r.pc.SelfErase?
    ensures var r2 := ErasedRecord(r, r.pc.step, ByItself, TimedOut).(pc := PcAfterErase(NextStep(r, r.pc.step)));
            && PhaseOk(r2) && TimerOk(r2) && CountOk(r2)
            && Midway(r2.pc) && SamePhase(r.pc, r2.pc) && !BeforeQueue(r2.pc)
            && !Referenced(r2.claim) == !Referenced(r.claim) && (Referenced(r.claim) ==> r2.claim == r.claim)
            && (r.container == r2.container || (r.pc.step.LockList? && r.container == Some(r.pc.step.b)))
  {}

  /** A record change that leaves the list membership alone keeps the waiter in order. */
  lemma RecordSelf(s: State, w: WaiterId, r2: Waiter)
    requires w in s.waiters && WaiterOk(s, w) && SameOutside(s.waiters[w], r2) && SamePhase(s.waiters[w].pc, r2.pc)
    requires PhaseOk(r2) && TimerOk(r2) && CountOk(r2) && LocksExist(s, r2)
    requires (BeforeQueue(r2.pc) ==> BeforeQueue(s.waiters[w].pc)) && (r2.wstate == s.waiters[w].wstate)
    ensures WaiterOk(SetWaiter(s, w, r2), w)
  {}

  /** The list to lock next is the one the container names. */
  lemma NextLockExists(s: State, r: Waiter, step: EraseStep)
    requires r.container.Some? ==> r.container.value in s.butexes
    ensures LockExists(s, NextStep(r, step))
  {}

  lemma RecordKeeps(s: State, w: WaiterId, r2: Waiter)
    requires Inv(s) && w in s.waiters && SameOutside(s.waiters[w], r2) && SamePhase(s.waiters[w].pc, r2.pc)
    requires PhaseOk(r2) && TimerOk(r2) && CountOk(r2) && LocksExist(s, r2)
    requires (BeforeQueue(r2.pc) ==> BeforeQueue(s.waiters[w].pc)) && r2.wstate == s.waiters[w].wstate
    ensures Inv(SetWaiter(s, w, r2))
  {
    assert WaiterOk(s, w);
    RecordSelf(s, w, r2);
    RecordChange(s, w, r2);
  }

  lemma WaiterFacts(s: State, w: WaiterId)
    requires Inv(s) && w in s.waiters
    ensures var r := s.waiters[w];
            && PhaseOk(r) && TimerOk(r) && CountOk(r) && LocksExist(s, r)
            && (r.container.Some? ==> r.container.value in s.butexes)
  {
    assert WaiterOk(s, w);
  }

  lemma TimerEraseInv(s: State, w: WaiterId)
    requires Inv(s) && CanTimerErase(s, w)
    ensures Inv(StepTimerErase(s, w))
  {
    var r := s.waiters[w];
    var step := r.timer.step;
    var r2 := ErasedRecord(r, step, ByTimer, TimedOut).(timer := Firing(NextStep(r, step)));
    WaiterFacts(s, w);
    TimerRecordOk(r);
    NextLockExists(s, r, step);
    if Unlinks(r, step) { EraseListInv(s, w, step.b, r2); } else { RecordKeeps(s, w, r2); }
  }

  lemma EraseSelfInv(s: State, w: WaiterId)
    requires Inv(s) && CanEraseSelf(s, w)
    ensures Inv(StepEraseSelf(s, w))
  {
    var r := s.waiters[w];
    var step := r.pc.step;
    var r2 := ErasedRecord(r, step, ByItself, TimedOut).(pc := PcAfterErase(NextStep(r, step)));
    WaiterFacts(s, w);
    SelfRecordOk(r);
    NextLockExists(s, r, step);
    if Unlinks(r, step) { EraseListInv(s, w, step.b, r2); } else { RecordKeeps(s, w, r2); }
  }

  // ---------- steps of an interrupter ----------

  /** An interrupter holding `w` moves on; `w` changes at most the way an erase changes it. */
  ghost predicate EraserFrame(s: State, s': State, a: AgentId, w: WaiterId)
  {
    && a in s.agents && s.agents[a].Erasing? && s.agents[a].w == w && w in s.waiters
    && s'.disciplined == s.disciplined && s'.tasks == s.tasks
    && a in s'.agents && s'.agents == s.agents[a := s'.agents[a]]
    && (s'.agents[a].Erasing? || s'.agents[a].PuttingBack?)
    && s'.agents[a].t == s.agents[a].t && s'.agents[a].w == w
    && w in s'.waiters && s'.waiters == s.waiters[w := s'.waiters[w]]
    && s'.butexes.Keys == s.butexes.Keys
    && (forall b {:trigger s'.butexes[b]} :: b in s.butexes ==>
          s'.butexes[b] == s.butexes[b].(queue := s'.butexes[b].queue) &&
          (forall v {:trigger v in s'.butexes[b].queue} {:trigger v in s.butexes[b].queue} :: v != w ==>
            (v in s'.butexes[b].queue <==> v in s.butexes[b].queue)) &&
          (w in s'.butexes[b].queue ==> w in s.butexes[b].queue))
    && var r, r2 := s.waiters[w], s'.waiters[w];
       && r2.task == r.task && r2.target == r.target && r2.expected == r.expected && r2.pthread == r.pthread
       && !r.claim.ByWaker? == !r2.claim.ByWaker? && (r.claim.ByWaker? ==> r2.claim == r.claim)
       && (Midway(r.pc) <==> Midway(r2.pc)) && (r.pc == Preparing <==> r2.pc == Preparing)
       && (r.pc == Clearing <==> r2.pc == Clearing)
       && (r.pc == CheckInterrupt || r.pc == Queueing ==> r2.pc == r.pc)
       && (!r2.claim.ByInterrupter? || r2.claim.a == a)
       && (!r.claim.ByInterrupter? || r.claim.a == a)
  }

  lemma EraserChange(s: State, s': State, a: AgentId, w: WaiterId)
    requires Inv(s) && EraserFrame(s, s', a, w) && WaiterOk(s', w) && AgentOk(s', a)
    requires forall b {:trigger ButexOk(s', b)} :: b in s'.butexes ==> ButexOk(s', b)
    ensures Inv(s')
  {
    assert AgentOk(s, a);
    forall v | v in s'.waiters ensures WaiterOk(s', v) {
      if v != w { assert WaiterOk(s, v); EraserWaiter(s, s', a, w, v); }
    }
    forall b | b in s'.butexes ensures DisciplineOk(s', b) {
      assert DisciplineOk(s, b);
      EraserDiscipline(s, s', a, w, b);
    }
    EraserLive(s, s', a, w);
    forall t | t in s'.tasks ensures TaskOk(s', t) { assert TaskOk(s, t); EraserTask(s, s', a, w, t); }
    forall c | c in s'.agents ensures AgentOk(s', c) {
      if c != a { assert AgentOk(s, c); EraserAgent(s, s', a, w, c); }
    }
  }

  /** The waiter an interrupter holds has not returned. */
  lemma EraserLive(s: State, s': State, a: AgentId, w: WaiterId)
    requires Inv(s) && EraserFrame(s, s', a, w)
    ensures s.waiters[w].pc != Returned && s'.waiters[w].pc != Returned
  {
    assert AgentOk(s, a);
    var t := s.agents[a].t;
    assert TaskOk(s, t);
  }

  lemma EraserWaiter(s: State, s': State, a: AgentId, w: WaiterId, v: WaiterId)
    requires EraserFrame(s, s', a, w) && v in s.waiters && v != w && WaiterOk(s, v)
    ensures v in s'.waiters && WaiterOk(s', v)
  {
    assert s'.waiters[v] == s.waiters[v];
    var r := s.waiters[v];
    assert s'.butexes[r.target].holder == s.butexes[r.target].holder;
  }

  lemma EraserDiscipline(s: State, s': State, a: AgentId, w: WaiterId, b: ButexId)
    requires EraserFrame(s, s', a, w) && b in s.butexes && DisciplineOk(s, b)
    ensures DisciplineOk(s', b)
  {
    assert StorePending(s, b) ==> StorePending(s', b) by {
      if StorePending(s, b) {
        var c :| c in s.agents && s.agents[c] == Stored(b);
        assert s'.agents[c] == Stored(b);
      }
    }
    if b in s.disciplined {
      forall v | Admitted(s', b, v) ensures MatchesValue(s', b, v) || StorePending(s', b) {
        assert s'.butexes[b].holder == s.butexes[b].holder;
        assert Admitted(s, b, v);
      }
    }
  }

  lemma EraserTask(s: State, s': State, a: AgentId, w: WaiterId, t: TaskId)
    requires EraserFrame(s, s', a, w) && t in s.tasks && TaskOk(s, t) && w in s.waiters && s.waiters[w].pc != Returned
    requires s'.waiters[w].pc != Returned
    ensures TaskOk(s', t)
  {}

  lemma EraserAgent(s: State, s': State, a: AgentId, w: WaiterId, c: AgentId)
    requires EraserFrame(s, s', a, w) && c in s.agents && c != a && AgentOk(s, c)
    ensures c in s'.agents && AgentOk(s', c)
  {
    assert s'.agents[c] == s.agents[c];
  }

  lemma InterruptEraseInv(s: State, a: AgentId)
    requires Inv(s) && CanInterruptErase(s, a)
    ensures Inv(StepInterruptErase(s, a))
  {
    if ListsUntouched(s, a) {
      InterruptUntouched(s, a);
    } else {
      InterruptUnlink(s, a);
    }
  }

  lemma InterruptUnlink(s: State, a: AgentId)
    requires Inv(s) && CanInterruptErase(s, a) && s.agents[a].step.LockList?
    requires s.waiters[s.agents[a].w].container == Some(s.agents[a].step.b)
    ensures Inv(StepInterruptErase(s, a))
  {
    var g := s.agents[a];
    var b, w, s' := g.step.b, g.w, StepInterruptErase(s, a);
    assert AgentOk(s, a) && WaiterOk(s, w) && ButexOk(s, b) && TaskOk(s, g.t);
    WithoutFacts(s.butexes[b].queue, w);
    forall c | c in s'.butexes ensures ButexOk(s', c) { assert ButexOk(s, c); UnlinkButex(s, a, c); }
    UnlinkWaiter(s, a);
    UnlinkFrame(s, a);
    EraserChange(s, s', a, w);
  }

  lemma UnlinkButex(s: State, a: AgentId, c: ButexId)
    requires CanInterruptErase(s, a) && s.agents[a].step.LockList? && c in s.butexes
    requires s.waiters[s.agents[a].w].container == Some(s.agents[a].step.b) && ButexOk(s, c)
    ensures ButexOk(StepInterruptErase(s, a), c)
  {
    WithoutFacts(s.butexes[c].queue, s.agents[a].w);
  }

  lemma UnlinkWaiter(s: State, a: AgentId)
    requires CanInterruptErase(s, a) && s.agents[a].step.LockList?
    requires s.waiters[s.agents[a].w].container == Some(s.agents[a].step.b)
    requires AgentOk(s, a) && WaiterOk(s, s.agents[a].w)
    ensures WaiterOk(StepInterruptErase(s, a), s.agents[a].w) && AgentOk(StepInterruptErase(s, a), a)
  {}

  lemma UnlinkFrame(s: State, a: AgentId)
    requires CanInterruptErase(s, a) && s.agents[a].step.LockList?
    requires s.waiters[s.agents[a].w].container == Some(s.agents[a].step.b)
    requires AgentOk(s, a) && WaiterOk(s, s.agents[a].w) && ButexOk(s, s.agents[a].step.b)
    ensures EraserFrame(s, StepInterruptErase(s, a), a, s.agents[a].w)
  {
    WithoutFacts(s.butexes[s.agents[a].step.b].queue, s.agents[a].w);
  }

  /** A step of the interrupter that leaves every list alone. */
  predicate ListsUntouched(s: State, a: AgentId)
    requires CanInterruptErase(s, a)
  {
    s.agents[a].step.LockList? ==> s.waiters[s.agents[a].w].container != Some(s.agents[a].step.b)
  }

  lemma AgentOnlyFrame(s: State, a: AgentId, w: WaiterId, g2: Agent, deaf: bool)
    requires a in s.agents && s.agents[a].Erasing? && s.agents[a].w == w && w in s.waiters
    requires (g2.Erasing? || g2.PuttingBack?) && g2.t == s.agents[a].t && g2.w == w
    requires s.waiters[w].claim.ByInterrupter? ==> s.waiters[w].claim.a == a
    ensures EraserFrame(s, SetAgent(SetWaiter(s, w, s.waiters[w].(deaf := deaf)), a, g2), a, w)
  {}

  lemma RouseFrame(s: State, a: AgentId, w: WaiterId, g2: Agent)
    requires a in s.agents && s.agents[a].Erasing? && s.agents[a].w == w && w in s.waiters
    requires (g2.Erasing? || g2.PuttingBack?) && g2.t == s.agents[a].t && g2.w == w
    requires s.waiters[w].claim == ByInterrupter(a) && PhaseOk(s.waiters[w])
    ensures EraserFrame(s, SetAgent(SetWaiter(s, w, Roused(s.waiters[w])), a, g2), a, w)
  {}

  /** Only the interrupter that took `current_waiter` can be erasing that waiter. */
  lemma SoleInterrupter(s: State, a: AgentId)
    requires Inv(s) && a in s.agents && s.agents[a].Erasing?
    ensures s.agents[a].w in s.waiters
    ensures var c := s.waiters[s.agents[a].w].claim; c.ByInterrupter? ==> c.a == a
  {
    assert AgentOk(s, a);
    var w := s.agents[a].w;
    assert WaiterOk(s, w);
    if s.waiters[w].claim.ByInterrupter? {
      assert AgentOk(s, s.waiters[w].claim.a);
    }
  }

  /** Such a step changes one record of a waiter and one of an agent. */
  lemma UntouchedStep(s: State, a: AgentId)
    requires CanInterruptErase(s, a) && ListsUntouched(s, a)
    ensures var r, w := s.waiters[s.agents[a].w], s.agents[a].w;
            var g2 := StepInterruptErase(s, a).agents[a];
            var r2 := if s.agents[a].step == MakeReady then Roused(r)
                      else r.(deaf := StepInterruptErase(s, a).waiters[w].deaf);
            && (g2.Erasing? || g2.PuttingBack?) && g2.t == s.agents[a].t && g2.w == w
            && StepInterruptErase(s, a) == SetAgent(SetWaiter(s, w, r2), a, g2)
  {}

  lemma UntouchedReady(s: State, a: AgentId)
    requires CanInterruptErase(s, a) && s.agents[a].step == MakeReady
    requires AgentOk(s, a) && WaiterOk(s, s.agents[a].w)
    ensures EraserFrame(s, StepInterruptErase(s, a), a, s.agents[a].w)
  {
    UntouchedStep(s, a);
    RouseFrame(s, a, s.agents[a].w, StepInterruptErase(s, a).agents[a]);
  }

  lemma UntouchedFrame(s: State, a: AgentId)
    requires CanInterruptErase(s, a) && ListsUntouched(s, a)
    requires AgentOk(s, a) && WaiterOk(s, s.agents[a].w)
    requires var c := s.waiters[s.agents[a].w].claim; c.ByInterrupter? ==> c.a == a
    ensures EraserFrame(s, StepInterruptErase(s, a), a, s.agents[a].w)
  {
    var w, s' := s.agents[a].w, StepInterruptErase(s, a);
    if s.agents[a].step == MakeReady {
      UntouchedReady(s, a);
    } else {
      UntouchedStep(s, a);
      AgentOnlyFrame(s, a, w, s'.agents[a], s'.waiters[w].deaf);
    }
  }

  lemma UntouchedWaiter(s: State, a: AgentId)
    requires CanInterruptErase(s, a) && ListsUntouched(s, a)
    requires AgentOk(s, a) && WaiterOk(s, s.agents[a].w)
    ensures WaiterOk(StepInterruptErase(s, a), s.agents[a].w) && AgentOk(StepInterruptErase(s, a), a)
  {}

  lemma UntouchedButex(s: State, a: AgentId, c: ButexId)
    requires CanInterruptErase(s, a) && ListsUntouched(s, a)
    requires AgentOk(s, a) && WaiterOk(s, s.agents[a].w) && c in s.butexes && ButexOk(s, c)
    ensures ButexOk(StepInterruptErase(s, a), c)
  {}

  lemma InterruptUntouched(s: State, a: AgentId)
    requires Inv(s) && CanInterruptErase(s, a) && ListsUntouched(s, a)
    ensures Inv(StepInterruptErase(s, a))
  {
    var w, s' := s.agents[a].w, StepInterruptErase(s, a);
    assert AgentOk(s, a);
    assert WaiterOk(s, w);
    SoleInterrupter(s, a);
    UntouchedFrame(s, a);
    UntouchedWaiter(s, a);
    forall c | c in s'.butexes ensures ButexOk(s', c) { assert ButexOk(s, c); UntouchedButex(s, a, c); }
    EraserChange(s, s', a, w);
  }

  // ---------- taking and putting back current_waiter ----------

  lemma InterruptTakeInv(s: State, a: AgentId, t: TaskId)
    requires Inv(s) && CanInterruptTake(s, a, t)
    ensures Inv(StepInterruptTake(s, a, t))
  {
    var s' := StepInterruptTake(s, a, t);
    assert TaskOk(s, t);
    assert AgentOk(s, a);
    forall w | w in s'.waiters ensures WaiterOk(s', w) { assert WaiterOk(s, w); TakeWaiter(s, a, t, w); }
    forall b | b in s'.butexes ensures ButexOk(s', b) { assert ButexOk(s, b); }
    forall b | b in s'.butexes ensures DisciplineOk(s', b) { assert DisciplineOk(s, b); TakeDiscipline(s, a, t, b); }
    forall u | u in s'.tasks ensures TaskOk(s', u) { assert TaskOk(s, u); TakeTask(s, a, t, u); }
    if s.tasks[t].current.Some? { assert WaiterOk(s, s.tasks[t].current.value); }
    forall c | c in s'.agents ensures AgentOk(s', c) { assert AgentOk(s, c); TakeAgent(s, a, t, c); }
  }

  lemma TakeWaiter(s: State, a: AgentId, t: TaskId, w: WaiterId)
    requires CanInterruptTake(s, a, t) && w in s.waiters && WaiterOk(s, w)
    ensures WaiterOk(StepInterruptTake(s, a, t), w)
  {}

  lemma TakeDiscipline(s: State, a: AgentId, t: TaskId, b: ButexId)
    requires CanInterruptTake(s, a, t) && b in s.butexes && DisciplineOk(s, b)
    ensures DisciplineOk(StepInterruptTake(s, a, t), b)
  {
    var s' := StepInterruptTake(s, a, t);
    KeepsPending(s, s', a, b);
    if b in s.disciplined {
      forall v | Admitted(s', b, v) ensures MatchesValue(s', b, v) || StorePending(s', b) {
        assert Admitted(s, b, v);
      }
    }
  }

  /** An agent that is not between a store and its wake takes nothing away from StorePending. */
  lemma KeepsPending(s: State, s': State, a: AgentId, b: ButexId)
    requires a in s.agents && s.agents[a] != Stored(b)
    requires forall c {:trigger s'.agents[c]} {:trigger s.agents[c]} ::
               c in s.agents && c != a ==> c in s'.agents && s'.agents[c] == s.agents[c]
    ensures StorePending(s, b) ==> StorePending(s', b)
  {
    if StorePending(s, b) {
      var c :| c in s.agents && s.agents[c] == Stored(b);
      assert s'.agents[c] == Stored(b);
    }
  }

  lemma TakeTask(s: State, a: AgentId, t: TaskId, u: TaskId)
    requires CanInterruptTake(s, a, t) && u in s.tasks && TaskOk(s, u)
    ensures TaskOk(StepInterruptTake(s, a, t), u)
  {}

  lemma TakeAgent(s: State, a: AgentId, t: TaskId, c: AgentId)
    requires CanInterruptTake(s, a, t) && TaskOk(s, t) && c in s.agents && AgentOk(s, c)
    requires s.tasks[t].current.Some? ==>
               s.tasks[t].current.value in s.waiters && WaiterOk(s, s.tasks[t].current.value)
    ensures AgentOk(StepInterruptTake(s, a, t), c)
  {}

  lemma InterruptFlagInv(s: State, a: AgentId)
    requires Inv(s) && CanInterruptFlag(s, a)
    ensures Inv(StepInterruptFlag(s, a))
  {
    var s' := StepInterruptFlag(s, a);
    assert AgentOk(s, a);
    assert TaskOk(s, s.agents[a].t);
    forall w | w in s'.waiters ensures WaiterOk(s', w) { assert WaiterOk(s, w); FlagWaiter(s, a, w); }
    forall b | b in s'.butexes ensures ButexOk(s', b) { assert ButexOk(s, b); FlagButex(s, a, b); }
    forall b | b in s'.butexes ensures DisciplineOk(s', b) { assert DisciplineOk(s, b); FlagDiscipline(s, a, b); }
    forall u | u in s'.tasks ensures TaskOk(s', u) { assert TaskOk(s, u); FlagTask(s, a, u); }
    forall c | c in s'.agents ensures AgentOk(s', c) { assert AgentOk(s, c); FlagAgent(s, a, c); }
  }

  lemma FlagWaiter(s: State, a: AgentId, w: WaiterId)
    requires CanInterruptFlag(s, a) && w in s.waiters && WaiterOk(s, w)
    ensures WaiterOk(StepInterruptFlag(s, a), w)
  {}

  lemma FlagButex(s: State, a: AgentId, b: ButexId)
    requires CanInterruptFlag(s, a) && b in s.butexes && ButexOk(s, b)
    ensures ButexOk(StepInterruptFlag(s, a), b)
  {}

  lemma FlagDiscipline(s: State, a: AgentId, b: ButexId)
    requires CanInterruptFlag(s, a) && b in s.butexes && DisciplineOk(s, b)
    ensures DisciplineOk(StepInterruptFlag(s, a), b)
  {
    var s' := StepInterruptFlag(s, a);
    KeepsPending(s, s', a, b);
    if b in s.disciplined {
      forall v | Admitted(s', b, v) ensures MatchesValue(s', b, v) || StorePending(s', b) {
        assert Admitted(s, b, v);
      }
    }
  }

  lemma FlagTask(s: State, a: AgentId, u: TaskId)
    requires CanInterruptFlag(s, a) && AgentOk(s, a) && TaskOk(s, s.agents[a].t) && u in s.tasks && TaskOk(s, u)
    ensures TaskOk(StepInterruptFlag(s, a), u)
  {}

  lemma FlagAgent(s: State, a: AgentId, c: AgentId)
    requires CanInterruptFlag(s, a) && AgentOk(s, a) && c in s.agents && AgentOk(s, c)
    ensures AgentOk(StepInterruptFlag(s, a), c)
  {}

  lemma PutBackInv(s: State, a: AgentId)
    requires Inv(s) && CanPutBack(s, a)
    ensures Inv(StepPutBack(s, a))
  {
    var s' := StepPutBack(s, a);
    assert AgentOk(s, a);
    assert TaskOk(s, s.agents[a].t);
    forall w | w in s'.waiters ensures WaiterOk(s', w) { assert WaiterOk(s, w); PutWaiter(s, a, w); }
    forall b | b in s'.butexes ensures ButexOk(s', b) { assert ButexOk(s, b); }
    forall b | b in s'.butexes ensures DisciplineOk(s', b) { assert DisciplineOk(s, b); PutDiscipline(s, a, b); }
    forall u | u in s'.tasks ensures TaskOk(s', u) { assert TaskOk(s, u); PutTask(s, a, u); }
    forall c | c in s'.agents ensures AgentOk(s', c) { assert AgentOk(s, c); PutAgent(s, a, c); }
  }

  lemma PutWaiter(s: State, a: AgentId, w: WaiterId)
    requires CanPutBack(s, a) && w in s.waiters && WaiterOk(s, w)
    ensures WaiterOk(StepPutBack(s, a), w)
  {}

  lemma PutDiscipline(s: State, a: AgentId, b: ButexId)
    requires CanPutBack(s, a) && b in s.butexes && DisciplineOk(s, b)
    ensures DisciplineOk(StepPutBack(s, a), b)
  {
    var s' := StepPutBack(s, a);
    KeepsPending(s, s', a, b);
    if b in s.disciplined {
      forall v | Admitted(s', b, v) ensures MatchesValue(s', b, v) || StorePending(s', b) {
        assert Admitted(s, b, v);
      }
    }
  }

  lemma PutTask(s: State, a: AgentId, u: TaskId)
    requires CanPutBack(s, a) && AgentOk(s, a) && TaskOk(s, s.agents[a].t) && u in s.tasks && TaskOk(s, u)
    ensures TaskOk(StepPutBack(s, a), u)
  {}

  lemma PutAgent(s: State, a: AgentId, c: AgentId)
    requires CanPutBack(s, a) && AgentOk(s, a) && c in s.agents && AgentOk(s, c)
    ensures AgentOk(StepPutBack(s, a), c)
  {}
}
