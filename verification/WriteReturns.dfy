/** Every request of the write queue goes back to its pool once. */
module WriteReturns {
  import opened Wrappers
  import opened WriteQueue
  import opened WriteShape

  ghost predicate Passed(s: State, r: Req) {
    s.base <= |s.order| && r in s.order[..s.base]
  }

  /** The thread whose compare-and-swap completed `r` is about to return it. */
  ghost predicate BeingReturned(s: State, r: Req) {
    r in s.returner && s.returner[r] in s.pcs && s.pcs[s.returner[r]] == Returning(r)
  }

  /** A passed request was returned, or one thread is about to return it, not both. */
  ghost predicate PassedOk(s: State, i: nat)
    requires i < |s.order|
  {
    s.order[i] in s.returned <==> !BeingReturned(s, s.order[i])
  }

  ghost predicate ReturningOk(s: State, t: Req)
    requires t in s.pcs
  {
    s.pcs[t].Returning? ==>
      Passed(s, s.pcs[t].req) && s.pcs[t].req in s.returner && s.returner[s.pcs[t].req] == t
  }

  ghost predicate Returns(s: State) {
    && s.base <= |s.order| && NoDuplicates(s.returned)
    && (forall r {:trigger r in s.returned} :: r in s.returned ==> Passed(s, r))
    && (forall i: nat {:trigger PassedOk(s, i)} :: i < s.base ==> PassedOk(s, i))
    && (forall t {:trigger ReturningOk(s, t)} :: t in s.pcs ==> ReturningOk(s, t))
  }

  /** Nothing is completed or returned; requests may arrive. */
  ghost predicate NoReturn(s: State, s': State) {
    && s.order <= s'.order && s'.base == s.base && s'.returned == s.returned && s'.returner == s.returner
    && (forall t {:trigger s'.pcs[t]} :: t in s'.pcs && s'.pcs[t].Returning? ==> t in s.pcs && s.pcs[t] == s'.pcs[t])
    && (forall t {:trigger s.pcs[t]} :: t in s.pcs && s.pcs[t].Returning? ==> t in s'.pcs && s'.pcs[t] == s.pcs[t])
  }

  lemma NoReturnKept(s: State, s': State)
    requires Returns(s) && NoReturn(s, s')
    ensures Returns(s')
  {
    assert s'.order[..s'.base] == s.order[..s.base];
    forall r | r in s'.returned ensures Passed(s', r) {
      assert r in s.returned;
    }
    forall i: nat | i < s'.base ensures PassedOk(s', i) {
      assert PassedOk(s, i);
      assert BeingReturned(s', s.order[i]) <==> BeingReturned(s, s.order[i]);
    }
    forall t | t in s'.pcs ensures ReturningOk(s', t) {
      if t in s.pcs { assert ReturningOk(s, t); }
    }
  }

  /** The request at position `base` was not returned and nobody is returning it. */
  lemma BaseFresh(s: State)
    requires Returns(s) && NoDuplicates(s.order) && s.base < |s.order|
    ensures s.order[s.base] !in s.returned && !BeingReturned(s, s.order[s.base])
  {
    var r := s.order[s.base];
    assert r !in s.order[..s.base];
    assert r in s.returner && s.returner[r] in s.pcs ==> ReturningOk(s, s.returner[r]);
  }

  /** `base` passes one request, which is returned at once. */
  ghost predicate Dropped(s: State, s': State, t: Req) {
    && s.base < |s.order| && s'.order == s.order && s'.base == s.base + 1 && s'.returner == s.returner
    && s'.returned == s.returned + [s.order[s.base]] && t in s.pcs && t in s'.pcs
    && s'.pcs == s.pcs[t := s'.pcs[t]] && s.pcs[t].Own? && s'.pcs[t].Own?
  }

  lemma DroppedReturns(s: State, s': State, t: Req)
    requires Returns(s) && NoDuplicates(s.order) && Dropped(s, s', t)
    ensures Returns(s')
  {
    var r := s.order[s.base];
    BaseFresh(s);
    assert s'.order[..s'.base] == s.order[..s.base] + [r];
    forall q | q in s'.returned ensures Passed(s', q) {
      assert q == r || q in s.returned;
    }
    forall i: nat | i < s'.base ensures PassedOk(s', i) {
      assert i < s.base ==> PassedOk(s, i) && s.order[i] != r;
      assert BeingReturned(s', s.order[i]) <==> BeingReturned(s, s.order[i]);
    }
    forall u | u in s'.pcs ensures ReturningOk(s', u) {
      assert ReturningOk(s, u);
    }
  }

  /** `base` passes one request, which `t` is going to return. */
  ghost predicate Completed(s: State, s': State, t: Req) {
    && s.base < |s.order| && s'.order == s.order && s'.base == s.base + 1 && s'.returned == s.returned
    && s'.returner == s.returner[s.order[s.base] := t] && t in s.pcs && s.pcs[t].Own?
    && s'.pcs == s.pcs[t := Returning(s.order[s.base])]
  }

  lemma CompletedReturns(s: State, s': State, t: Req)
    requires Returns(s) && NoDuplicates(s.order) && Completed(s, s', t)
    ensures Returns(s')
  {
    var r := s.order[s.base];
    BaseFresh(s);
    assert s'.order[..s'.base] == s.order[..s.base] + [r];
    forall q | q in s'.returned ensures Passed(s', q) {
      assert q in s.returned;
    }
    forall i: nat | i < s'.base ensures PassedOk(s', i) {
      if i < s.base {
        assert PassedOk(s, i) && s.order[i] != r;
        assert BeingReturned(s', s.order[i]) <==> BeingReturned(s, s.order[i]);
      }
    }
    forall u | u in s'.pcs ensures ReturningOk(s', u) {
      CompletedPc(s, s', t, u);
    }
  }

  lemma CompletedPc(s: State, s': State, t: Req, u: Req)
    requires Returns(s) && NoDuplicates(s.order) && Completed(s, s', t) && u in s'.pcs
    ensures ReturningOk(s', u)
  {
    assert s'.order[..s'.base] == s.order[..s.base] + [s.order[s.base]];
    if u != t {
      assert ReturningOk(s, u);
      assert s.order[s.base] !in s.order[..s.base];
    }
  }

  lemma ReturnReturns(s: State, t: Req)
    requires Returns(s) && NoDuplicates(s.order) && CanReturn(s, t)
    ensures Returns(StepReturn(s, t))
  {
    var s' := StepReturn(s, t);
    var r := s.pcs[t].req;
    assert ReturningOk(s, t);
    assert BeingReturned(s, r);
    var k: nat :| k < s.base && s.order[k] == r;
    assert PassedOk(s, k);
    forall i: nat | i < s'.base ensures PassedOk(s', i) {
      assert PassedOk(s, i);
      if i != k {
        assert s.order[i] != r;
        ReturnOther(s, t, s.order[i]);
      }
    }
    forall u | u in s'.pcs ensures ReturningOk(s', u) {
      assert ReturningOk(s, u);
    }
  }

  lemma ReturnOther(s: State, t: Req, q: Req)
    requires CanReturn(s, t) && q != s.pcs[t].req
    ensures BeingReturned(StepReturn(s, t), q) <==> BeingReturned(s, q)
  {}

  lemma CasEffect(s: State, t: Req)
    requires Owns(s, t) && CanCas(s, t)
    ensures if StepCas(s, t).owner == None then Completed(s, StepCas(s, t), t) else NoReturn(s, StepCas(s, t))
  {}

  lemma CasReturns(s: State, t: Req)
    requires Shape(s) && Returns(s) && CanCas(s, t)
    ensures Returns(StepCas(s, t))
  {
    OwnerIs(s, t);
    CasEffect(s, t);
    if StepCas(s, t).owner == None {
      CompletedReturns(s, StepCas(s, t), t);
    } else {
      NoReturnKept(s, StepCas(s, t));
    }
  }

  lemma DropReturns(s: State, t: Req, stage: Stage)
    requires Shape(s) && Returns(s) && Holds(s, t) && FirstDone(s, t)
    ensures Returns(DropFirst(s, t, stage))
  {
    OwnerIs(s, t);
    assert Dropped(s, DropFirst(s, t, stage), t);
    DroppedReturns(s, DropFirst(s, t, stage), t);
  }

  lemma QuietReturns(s: State, e: Event)
    requires Enabled(s, e) && !e.Cas? && !e.Return?
    requires e.Skip? || e.Release? ==> !FirstDone(s, e.t)
    ensures NoReturn(s, Step(s, e))
  {
    if e.Exchange? || e.StoreLink? { ArriveReturns(s, e); }
    else if e.Reverse? || e.Join? || e.Setup? || e.FindTail? { WalkReturns(s, e); }
  }

  lemma ArriveReturns(s: State, e: Event)
    requires Enabled(s, e) && (e.Exchange? || e.StoreLink?)
    ensures NoReturn(s, Step(s, e))
  {}

  lemma WalkReturns(s: State, e: Event)
    requires Enabled(s, e) && (e.Reverse? || e.Join? || e.Setup? || e.FindTail?)
    ensures NoReturn(s, Step(s, e))
  {}

  lemma StepReturns(s: State, e: Event)
    requires Shape(s) && Returns(s) && Enabled(s, e)
    ensures Returns(Step(s, e))
  {
    if e.Cas? {
      CasReturns(s, e.t);
    } else if e.Return? {
      ReturnReturns(s, e.t);
    } else if e.Skip? && FirstDone(s, e.t) {
      DropReturns(s, e.t, AtWrite);
    } else if e.Release? && FirstDone(s, e.t) {
      DropReturns(s, e.t, AtRelease);
    } else {
      QuietReturns(s, e);
      NoReturnKept(s, Step(s, e));
    }
  }
}
