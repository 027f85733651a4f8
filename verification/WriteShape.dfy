/** How the request chain of the write queue looks in every reachable state. */
module WriteShape {
  import opened Wrappers
  import opened WriteQueue

  ghost predicate NoDuplicates(q: seq<Req>) {
    forall i, j :: 0 <= i < j < |q| ==> q[i] != q[j]
  }

  /** While the new segment is being reversed, positions `Low` to `High - 1` are already forward. */
  function Low(s: State, stage: Stage): nat {
    match stage
    case AtReverse(_, _, _, _, _, _, j) => j + 1
    case _ => s.mid
  }

  function High(s: State, stage: Stage): nat {
    match stage
    case AtReverse(_, _, _, _, _, h, _) => h + 1
    case AtJoin(_, _, _, _, h) => h + 1
    case _ => s.mid
  }

  /** Position `i`, before `end`, points to its successor, the last one to nothing. */
  ghost predicate Forward(s: State, i: nat, end: nat)
    requires i < end <= |s.order| && s.order[i] in s.next
  {
    s.next[s.order[i]] == (if i + 1 < end then To(s.order[i + 1]) else Null)
  }

  /** Position `i` points to its predecessor, or its thread is about to store that link. */
  ghost predicate Backward(s: State, i: nat)
    requires i < |s.order| && s.order[i] in s.next && s.order[i] in s.pcs
  {
    && 0 < i
    && if s.pcs[s.order[i]].Linking? then
         s.pcs[s.order[i]].prev == s.order[i - 1] && s.next[s.order[i]] == Unconnected
       else s.next[s.order[i]] == To(s.order[i - 1])
  }

  /** The owned chain is forward, so is the part of the new segment already reversed; the rest of the
      new segment and the later arrivals are backward. */
  ghost predicate LinkOk(s: State, stage: Stage, i: nat)
    requires i < |s.order| && s.mid <= Low(s, stage) <= High(s, stage) <= |s.order|
  {
    && s.order[i] in s.next && s.order[i] in s.pcs
    && if stage.AtClearNext? && i == s.base then s.next[s.order[i]] == Unconnected
       else if i < s.mid then Forward(s, i, s.mid)
       else if Low(s, stage) <= i < High(s, stage) then Forward(s, i, High(s, stage))
       else Backward(s, i)
  }

  /** The owner's local variables and the Setup calls made so far. */
  ghost predicate LocalsOk(s: State, stage: Stage, req: Req, curTail: Option<Req>)
    requires s.base < s.mid <= |s.order|
  {
    var k, m, n, O := s.base, s.mid, |s.order|, s.order;
    match stage
    case AtClearNext => m == k + 1 && s.owner == Some(req) && s.setups == O[..k]
    case AtFirstSetup => m == k + 1 && s.setups == O[..k]
    case AtFirstWrite => m == k + 1 && s.setups == O[..m]
    case AtCas(oldHead, singular, keep) =>
      oldHead == O[m - 1] && (singular <==> k == m - 1) && (!keep ==> singular) && s.setups == O[..m]
    case AtReverse(oldHead, newHead, p, tail, keep, h, j) =>
      && m <= j <= h < n && oldHead == O[m - 1] && newHead == O[h] && p == O[j]
      && tail == (if j == h then Null else To(O[j + 1])) && s.setups == O[..m]
    case AtJoin(oldHead, newHead, tail, keep, h) =>
      m <= h < n && oldHead == O[m - 1] && newHead == O[h] && tail == To(O[m]) && s.setups == O[..m]
    case AtSetup(q, newHead, keep, x) =>
      k < x <= m && newHead == O[m - 1] && q == (if x < m then To(O[x]) else Null) && s.setups == O[..x]
    case AtFindTail(cur, i) => k <= i < m && cur == O[i] && curTail == None && s.setups == O[..m]
    case AtHandoff => s.setups == O[..m]
    case _ => (curTail.Some? ==> curTail.value == O[m - 1]) && s.setups == O[..m]
  }

  /** `t` has the write right over the requests at positions `base` to `mid - 1`. */
  ghost predicate Owns(s: State, t: Req) {
    && s.owner == Some(t) && t in s.pcs && s.pcs[t].Own?
    && s.base < s.mid <= |s.order| && s.head == Some(s.order[|s.order| - 1]) && s.pcs[t].req == s.order[s.base]
    && LocalsOk(s, s.pcs[t].stage, s.pcs[t].req, s.pcs[t].curTail)
  }

  ghost predicate LinksOk(s: State, stage: Stage)
    requires s.mid <= Low(s, stage) <= High(s, stage) <= |s.order|
  {
    forall i: nat {:trigger LinkOk(s, stage, i)} :: s.base <= i < |s.order| ==> LinkOk(s, stage, i)
  }

  ghost predicate OwnerOk(s: State) {
    match s.owner
    case None => s.head == None && s.base == s.mid == |s.order| && s.setups == s.order
    case Some(t) => Owns(s, t) && LinksOk(s, s.pcs[t].stage)
  }

  /** Only the owner is in an Own state, and only requests not yet reversed are still being linked. */
  ghost predicate PcOk(s: State, t: Req)
    requires t in s.pcs
  {
    && (s.pcs[t].Own? <==> s.owner == Some(t))
    && (s.pcs[t].Linking? ==> t in s.next && s.next[t] == Unconnected)
  }

  ghost predicate Keys(s: State) {
    && NoDuplicates(s.order)
    && s.data.Keys == s.left.Keys == s.next.Keys == s.pcs.Keys
    && (forall r {:trigger r in s.order} {:trigger r in s.pcs} :: r in s.order <==> r in s.pcs)
  }

  ghost predicate Shape(s: State) {
    && Keys(s) && OwnerOk(s)
    && (forall t {:trigger PcOk(s, t)} :: t in s.pcs ==> PcOk(s, t))
  }

  lemma InitShape()
    ensures Shape(Init())
  {}

  lemma OwnerIs(s: State, t: Req)
    requires Shape(s) && t in s.pcs && s.pcs[t].Own?
    ensures Owns(s, t) && LinksOk(s, s.pcs[t].stage)
  {
    assert PcOk(s, t);
  }

  // ---------- producers ----------

  lemma ExchangeShape(s: State, r: Req, bytes: seq<Byte>)
    requires Shape(s) && CanExchange(s, r)
    ensures Shape(StepExchange(s, r, bytes))
  {
    var s' := StepExchange(s, r, bytes);
    ExchangeKeys(s, r, bytes);
    forall t | t in s'.pcs ensures PcOk(s', t) {
      if t != r { assert PcOk(s, t); }
      ExchangePc(s, r, bytes, t);
    }
    if s.owner.Some? { ExchangeOwned(s, r, bytes); }
    else { ExchangeFirst(s, r, bytes); }
  }

  lemma ExchangeKeys(s: State, r: Req, bytes: seq<Byte>)
    requires Keys(s) && CanExchange(s, r)
    ensures Keys(StepExchange(s, r, bytes))
  {}

  lemma ExchangePc(s: State, r: Req, bytes: seq<Byte>, t: Req)
    requires Keys(s) && OwnerOk(s) && CanExchange(s, r) && (t == r || (t in s.pcs && PcOk(s, t)))
    ensures t in StepExchange(s, r, bytes).pcs && PcOk(StepExchange(s, r, bytes), t)
  {}

  lemma ExchangeFirst(s: State, r: Req, bytes: seq<Byte>)
    requires Keys(s) && OwnerOk(s) && CanExchange(s, r) && s.owner == None
    ensures OwnerOk(StepExchange(s, r, bytes))
  {
    var s' := StepExchange(s, r, bytes);
    assert s'.order[..s'.base] == s.order;
    assert s'.pcs[r] == Own(AtClearNext, r, None);
    assert Owns(s', r);
  }

  lemma ExchangeOwns(s: State, r: Req, bytes: seq<Byte>, t: Req)
    requires CanExchange(s, r) && Owns(s, t)
    ensures Owns(StepExchange(s, r, bytes), t)
  {
    ExchangeLocals(s, StepExchange(s, r, bytes), s.pcs[t].stage, s.pcs[t].req, s.pcs[t].curTail);
  }

  /** The new request is to be linked backward. */
  lemma ExchangeLast(s: State, r: Req, bytes: seq<Byte>, t: Req)
    requires CanExchange(s, r) && Owns(s, t) && Owns(StepExchange(s, r, bytes), t)
    ensures LinkOk(StepExchange(s, r, bytes), s.pcs[t].stage, |s.order|)
  {}

  lemma ExchangeLinks(s: State, r: Req, bytes: seq<Byte>, t: Req)
    requires CanExchange(s, r) && Owns(s, t) && LinksOk(s, s.pcs[t].stage) && r !in s.order
    requires Owns(StepExchange(s, r, bytes), t)
    ensures LinksOk(StepExchange(s, r, bytes), s.pcs[t].stage)
  {
    var s', stage := StepExchange(s, r, bytes), s.pcs[t].stage;
    ExchangeLast(s, r, bytes, t);
    forall i: nat | s'.base <= i < |s'.order| ensures LinkOk(s', stage, i) {
      if i < |s.order| {
        assert LinkOk(s, stage, i);
        ExchangeLink(s, s', r, stage, i);
      }
    }
  }

  lemma ExchangeOwned(s: State, r: Req, bytes: seq<Byte>)
    requires Keys(s) && OwnerOk(s) && CanExchange(s, r) && s.owner.Some?
    ensures OwnerOk(StepExchange(s, r, bytes))
  {
    var t := s.owner.value;
    assert r != t && r !in s.order;
    ExchangeOwns(s, r, bytes, t);
    ExchangeLinks(s, r, bytes, t);
  }

  lemma ExchangeLocals(s: State, s': State, stage: Stage, req: Req, curTail: Option<Req>)
    requires s.base < s.mid <= |s.order| && LocalsOk(s, stage, req, curTail) && s.order <= s'.order
    requires s'.base == s.base && s'.mid == s.mid && s'.setups == s.setups && s'.owner == s.owner
    ensures LocalsOk(s', stage, req, curTail)
  {
    assert s'.order[..s.base] == s.order[..s.base];
    assert s'.order[..s.mid] == s.order[..s.mid];
    if stage.AtSetup? { assert s'.order[..stage.x] == s.order[..stage.x]; }
  }

  lemma ExchangeLink(s: State, s': State, r: Req, stage: Stage, i: nat)
    requires i < |s.order| && s.mid <= Low(s, stage) <= High(s, stage) <= |s.order| && LinkOk(s, stage, i)
    requires s'.order == s.order + [r] && s.order[i] != r && s'.base == s.base && s'.mid == s.mid
    requires s'.next == s.next[r := Unconnected] && r in s'.pcs && s'.pcs == s.pcs[r := s'.pcs[r]]
    ensures LinkOk(s', stage, i)
  {}

  lemma OwnsKept(s: State, s': State, u: Req)
    requires Owns(s, u) && u in s'.pcs && s'.pcs[u] == s.pcs[u] && s'.owner == s.owner && s'.head == s.head
    requires s'.order == s.order && s'.base == s.base && s'.mid == s.mid && s'.setups == s.setups
    ensures Owns(s', u)
  {}

  lemma StoreLinkPc(s: State, r: Req, t: Req)
    requires Keys(s) && CanStoreLink(s, r) && t in s.pcs && PcOk(s, t) && PcOk(s, r)
    ensures t in StepStoreLink(s, r).pcs && PcOk(StepStoreLink(s, r), t)
  {}

  lemma StoreLinkShape(s: State, r: Req)
    requires Shape(s) && CanStoreLink(s, r)
    ensures Shape(StepStoreLink(s, r))
  {
    var s' := StepStoreLink(s, r);
    assert PcOk(s, r);
    forall t | t in s'.pcs ensures PcOk(s', t) {
      assert PcOk(s, t);
      StoreLinkPc(s, r, t);
    }
    if s.owner.Some? {
      var t := s.owner.value;
      OwnsKept(s, s', t);
      forall i: nat | s'.base <= i < |s'.order| ensures LinkOk(s', s.pcs[t].stage, i) {
        assert LinkOk(s, s.pcs[t].stage, i);
        StoreLinkLink(s, t, r, i);
      }
    }
  }

  lemma StoreLinkLink(s: State, t: Req, r: Req, i: nat)
    requires Owns(s, t) && CanStoreLink(s, r) && s.next[r] == Unconnected
    requires i < |s.order| && LinkOk(s, s.pcs[t].stage, i)
    ensures LinkOk(StepStoreLink(s, r), s.pcs[t].stage, i)
  {}

  lemma ReturnShape(s: State, t: Req)
    requires Shape(s) && CanReturn(s, t)
    ensures Shape(StepReturn(s, t))
  {
    var s' := StepReturn(s, t);
    assert PcOk(s, t);
    forall u | u in s'.pcs ensures PcOk(s', u) {
      assert PcOk(s, u);
    }
    if s.owner.Some? {
      var u := s.owner.value;
      OwnsKept(s, s', u);
      forall i: nat | s'.base <= i < |s'.order| ensures LinkOk(s', s.pcs[u].stage, i) {
        assert LinkOk(s, s.pcs[u].stage, i);
        ReturnLink(s, u, t, i);
      }
    }
  }

  lemma ReturnLink(s: State, u: Req, t: Req, i: nat)
    requires Owns(s, u) && CanReturn(s, t) && i < |s.order| && LinkOk(s, s.pcs[u].stage, i)
    ensures LinkOk(StepReturn(s, t), s.pcs[u].stage, i)
  {}

  // ---------- the owner ----------

  /** The owner `t` keeps the write right, and writes no link that a producer is still to store. */
  ghost predicate OwnerStep(s: State, s': State, t: Req) {
    && s.owner == Some(t) && s'.owner == s.owner && t in s.pcs && t in s'.pcs && s'.pcs == s.pcs[t := s'.pcs[t]]
    && s.pcs[t].Own? && s'.pcs[t].Own? && s'.order == s.order && s'.data.Keys == s.data.Keys
    && s'.left.Keys == s.left.Keys && s'.next.Keys == s.next.Keys
    && (forall u {:trigger s'.next[u]} :: u in s.pcs && s.pcs[u].Linking? && u in s.next ==> s'.next[u] == s.next[u])
  }

  lemma OwnerStepPc(s: State, s': State, t: Req, u: Req)
    requires OwnerStep(s, s', t) && u in s.pcs && PcOk(s, u)
    ensures u in s'.pcs && PcOk(s', u)
  {}

  lemma OwnerStepShape(s: State, s': State, t: Req)
    requires Shape(s) && OwnerStep(s, s', t) && Owns(s', t) && LinksOk(s', s'.pcs[t].stage)
    ensures Shape(s')
  {
    forall u | u in s'.pcs ensures PcOk(s', u) {
      assert PcOk(s, u);
      OwnerStepPc(s, s', t, u);
    }
  }

  /** Only the owner's program counter and local variables differ, so the links look the same. */
  lemma SameLinks(s: State, s': State, t: Req)
    requires Owns(s, t) && LinksOk(s, s.pcs[t].stage) && Owns(s', t) && s'.pcs == s.pcs[t := s'.pcs[t]]
    requires s'.order == s.order && s'.next == s.next && s'.mid == s.mid && s.base <= s'.base
    requires !s.pcs[t].stage.AtClearNext? && !s'.pcs[t].stage.AtClearNext?
    requires Low(s, s.pcs[t].stage) == High(s, s.pcs[t].stage) && Low(s', s'.pcs[t].stage) == High(s', s'.pcs[t].stage)
    ensures LinksOk(s', s'.pcs[t].stage)
  {
    forall i: nat | s'.base <= i < |s'.order| ensures LinkOk(s', s'.pcs[t].stage, i) {
      assert LinkOk(s, s.pcs[t].stage, i);
    }
  }

  lemma ClearNextShape(s: State, t: Req)
    requires Shape(s) && CanClearNext(s, t)
    ensures Shape(StepClearNext(s, t))
  {
    OwnerIs(s, t);
    var s' := StepClearNext(s, t);
    assert Owns(s', t);
    forall i: nat | s'.base <= i < |s'.order| ensures LinkOk(s', s'.pcs[t].stage, i) {
      assert LinkOk(s, s.pcs[t].stage, i);
      assert i != s.base ==> s.order[i] != s.order[s.base];
    }
    OwnerStepShape(s, s', t);
  }

  lemma FirstSetupOwns(s: State, t: Req, background: bool)
    requires Owns(s, t) && CanFirstSetup(s, t)
    ensures Owns(StepFirstSetup(s, t, background), t)
  {
    assert s.order[..s.base] + [s.order[s.base]] == s.order[..s.mid];
  }

  lemma FirstSetupShape(s: State, t: Req, background: bool)
    requires Shape(s) && CanFirstSetup(s, t)
    ensures Shape(StepFirstSetup(s, t, background))
  {
    OwnerIs(s, t);
    var s' := StepFirstSetup(s, t, background);
    FirstSetupOwns(s, t, background);
    SameLinks(s, s', t);
    OwnerStepShape(s, s', t);
  }

  lemma FirstWriteOwns(s: State, t: Req, n: nat)
    requires Owns(s, t) && CanFirstWrite(s, t, n)
    ensures Owns(StepFirstWrite(s, t, n), t)
  {}

  lemma FirstWriteShape(s: State, t: Req, n: nat)
    requires Shape(s) && CanFirstWrite(s, t, n)
    ensures Shape(StepFirstWrite(s, t, n))
  {
    OwnerIs(s, t);
    var s' := StepFirstWrite(s, t, n);
    FirstWriteOwns(s, t, n);
    SameLinks(s, s', t);
    OwnerStepShape(s, s', t);
  }

  lemma HandoffShape(s: State, t: Req)
    requires Shape(s) && CanHandoff(s, t)
    ensures Shape(StepHandoff(s, t))
  {
    OwnerIs(s, t);
    var s' := StepHandoff(s, t);
    assert Owns(s', t);
    SameLinks(s, s', t);
    OwnerStepShape(s, s', t);
  }

  /** The compare-and-swap sees its old head exactly when no request was exchanged after it. */
  lemma CasSees(s: State, t: Req)
    requires Keys(s) && Owns(s, t) && s.pcs[t].stage.AtCas?
    ensures s.head == Some(s.pcs[t].stage.oldHead) <==> s.mid == |s.order|
  {}

  lemma CasRetriesOwns(s: State, t: Req)
    requires CanCas(s, t) && Owns(s, t) && s.mid == |s.order| && s.head == Some(s.pcs[t].stage.oldHead)
    requires !(s.left[s.pcs[t].stage.oldHead] == [] && s.pcs[t].stage.singular)
    ensures Owns(StepCas(s, t), t)
  {}

  lemma CasRetries(s: State, t: Req)
    requires Shape(s) && CanCas(s, t) && Owns(s, t) && LinksOk(s, s.pcs[t].stage) && s.mid == |s.order|
    requires s.head == Some(s.pcs[t].stage.oldHead)
    requires !(s.left[s.pcs[t].stage.oldHead] == [] && s.pcs[t].stage.singular)
    ensures Shape(StepCas(s, t))
  {
    var s' := StepCas(s, t);
    CasRetriesOwns(s, t);
    SameLinks(s, s', t);
    OwnerStepShape(s, s', t);
  }

  lemma CasShape(s: State, t: Req)
    requires Shape(s) && CanCas(s, t)
    ensures Shape(StepCas(s, t))
  {
    OwnerIs(s, t);
    CasSees(s, t);
    if s.mid == |s.order| && s.left[s.pcs[t].stage.oldHead] == [] && s.pcs[t].stage.singular {
      CasCompletes(s, t);
    } else if s.mid == |s.order| {
      CasRetries(s, t);
    } else {
      CasFinds(s, t);
    }
  }

  lemma CasCompletes(s: State, t: Req)
    requires Shape(s) && CanCas(s, t) && Owns(s, t) && s.mid == |s.order|
    requires s.head == Some(s.pcs[t].stage.oldHead) && s.left[s.pcs[t].stage.oldHead] == [] && s.pcs[t].stage.singular
    ensures Shape(StepCas(s, t))
  {
    var s' := StepCas(s, t);
    assert s.order[..s.mid] == s.order;
    forall u | u in s'.pcs ensures PcOk(s', u) {
      assert PcOk(s, u);
    }
  }

  lemma CasFindsOwns(s: State, t: Req)
    requires CanCas(s, t) && Owns(s, t) && s.mid < |s.order| && s.head != Some(s.pcs[t].stage.oldHead)
    ensures Owns(StepCas(s, t), t)
  {}

  lemma CasFinds(s: State, t: Req)
    requires Shape(s) && CanCas(s, t) && Owns(s, t) && LinksOk(s, s.pcs[t].stage)
    requires s.mid < |s.order| && s.head != Some(s.pcs[t].stage.oldHead)
    ensures Shape(StepCas(s, t))
  {
    var s' := StepCas(s, t);
    CasFindsOwns(s, t);
    SameLinks(s, s', t);
    OwnerStepShape(s, s', t);
  }

  /** The reversal loop stands at a request whose predecessor is the next one to reverse. */
  lemma ReverseAt(s: State, t: Req)
    requires Keys(s) && Owns(s, t) && LinksOk(s, s.pcs[t].stage) && CanReverse(s, t)
    ensures var st := s.pcs[t].stage;
            && 0 < s.mid <= st.j < |s.order| && st.p == s.order[st.j] && s.next[st.p] == To(s.order[st.j - 1])
            && (s.order[st.j - 1] == st.oldHead <==> st.j == s.mid)
            && st.p in s.pcs && !s.pcs[st.p].Linking?
  {
    assert LinkOk(s, s.pcs[t].stage, s.pcs[t].stage.j);
  }

  lemma ReverseLink(s: State, t: Req, i: nat)
    requires Owns(s, t) && CanReverse(s, t) && Owns(StepReverse(s, t), t)
    requires i < |s.order| && LinkOk(s, s.pcs[t].stage, i)
    requires i != s.pcs[t].stage.j ==> s.order[i] != s.pcs[t].stage.p
    requires var st, st' := s.pcs[t].stage, StepReverse(s, t).pcs[t].stage;
             if st.j == s.mid then st'.AtJoin? && st'.h == st.h
             else st'.AtReverse? && st'.j == st.j - 1 && st'.h == st.h
    ensures LinkOk(StepReverse(s, t), StepReverse(s, t).pcs[t].stage, i)
  {}

  lemma ReverseOwns(s: State, t: Req)
    requires Owns(s, t) && CanReverse(s, t) && 0 < s.pcs[t].stage.j
    requires var st := s.pcs[t].stage;
             s.next[st.p] == To(s.order[st.j - 1]) && (s.order[st.j - 1] == st.oldHead <==> st.j == s.mid)
    ensures Owns(StepReverse(s, t), t)
  {}

  lemma ReverseLinks(s: State, t: Req)
    requires Owns(s, t) && LinksOk(s, s.pcs[t].stage) && CanReverse(s, t) && NoDuplicates(s.order)
    requires var st := s.pcs[t].stage;
             s.next[st.p] == To(s.order[st.j - 1]) && (s.order[st.j - 1] == st.oldHead <==> st.j == s.mid)
    requires Owns(StepReverse(s, t), t)
    ensures LinksOk(StepReverse(s, t), StepReverse(s, t).pcs[t].stage)
  {
    var s' := StepReverse(s, t);
    forall i: nat | s'.base <= i < |s'.order| ensures LinkOk(s', s'.pcs[t].stage, i) {
      assert LinkOk(s, s.pcs[t].stage, i);
      ReverseLink(s, t, i);
    }
  }

  lemma ReverseShape(s: State, t: Req)
    requires Shape(s) && CanReverse(s, t)
    ensures Shape(StepReverse(s, t))
  {
    OwnerIs(s, t);
    ReverseAt(s, t);
    ReverseOwns(s, t);
    ReverseLinks(s, t);
    OwnerStepShape(s, StepReverse(s, t), t);
  }

  lemma JoinLink(s: State, t: Req, i: nat)
    requires Owns(s, t) && CanJoin(s, t) && i < |s.order| && LinkOk(s, s.pcs[t].stage, i)
    requires i != s.mid - 1 ==> s.order[i] != s.pcs[t].stage.oldHead
    ensures LinkOk(StepJoin(s, t), StepJoin(s, t).pcs[t].stage, i)
  {}

  lemma JoinOwns(s: State, t: Req)
    requires Owns(s, t) && CanJoin(s, t)
    ensures Owns(StepJoin(s, t), t)
  {}

  lemma JoinLinks(s: State, t: Req)
    requires Owns(s, t) && LinksOk(s, s.pcs[t].stage) && CanJoin(s, t) && NoDuplicates(s.order)
    requires Owns(StepJoin(s, t), t)
    ensures LinksOk(StepJoin(s, t), StepJoin(s, t).pcs[t].stage)
  {
    var s' := StepJoin(s, t);
    forall i: nat | s'.base <= i < |s'.order| ensures LinkOk(s', s'.pcs[t].stage, i) {
      assert LinkOk(s, s.pcs[t].stage, i);
      JoinLink(s, t, i);
    }
  }

  /** Nobody is to store a link in the old head, to which the reversed segment is joined. */
  lemma JoinStep(s: State, t: Req)
    requires Keys(s) && Owns(s, t) && CanJoin(s, t) && LinkOk(s, s.pcs[t].stage, s.mid - 1)
    requires s.pcs[t].stage.oldHead in s.pcs ==> PcOk(s, s.pcs[t].stage.oldHead)
    ensures OwnerStep(s, StepJoin(s, t), t)
  {
    assert s.next[s.pcs[t].stage.oldHead] == Null;
  }

  lemma JoinShape(s: State, t: Req)
    requires Shape(s) && CanJoin(s, t)
    ensures Shape(StepJoin(s, t))
  {
    OwnerIs(s, t);
    assert s.pcs[t].stage.oldHead in s.pcs ==> PcOk(s, s.pcs[t].stage.oldHead);
    JoinOwns(s, t);
    JoinLinks(s, t);
    assert LinkOk(s, s.pcs[t].stage, s.mid - 1);
    JoinStep(s, t);
    OwnerStepShape(s, StepJoin(s, t), t);
  }

  lemma SetupOwns(s: State, t: Req)
    requires Owns(s, t) && CanSetup(s, t)
    requires s.pcs[t].stage.q.To? ==> Forward(s, s.pcs[t].stage.x, s.mid)
    ensures Owns(StepSetup(s, t), t)
  {
    var st := s.pcs[t].stage;
    if st.q.To? { assert s.order[..st.x] + [s.order[st.x]] == s.order[..st.x + 1]; }
  }

  lemma SetupShape(s: State, t: Req)
    requires Shape(s) && CanSetup(s, t)
    ensures Shape(StepSetup(s, t))
  {
    OwnerIs(s, t);
    var s' := StepSetup(s, t);
    var st := s.pcs[t].stage;
    if st.q.To? { assert LinkOk(s, st, st.x); }
    SetupOwns(s, t);
    SameLinks(s, s', t);
    OwnerStepShape(s, s', t);
  }

  /** The first request of the owned chain is followed by the second, if there is one. */
  lemma HeadLink(s: State, t: Req)
    requires Shape(s) && t in s.pcs && s.pcs[t].Own? && !s.pcs[t].stage.AtClearNext?
    ensures Owns(s, t) && s.order[s.base] in s.next && Forward(s, s.base, s.mid)
  {
    OwnerIs(s, t);
    assert LinkOk(s, s.pcs[t].stage, s.base);
  }

  /** The owner moves on, with the same links and local variables. */
  lemma GoOwns(s: State, t: Req, stage: Stage)
    requires Owns(s, t) && Holds(s, t) && (s.pcs[t].stage.AtSkip? || s.pcs[t].stage.AtRelease?)
    requires stage.AtWrite? || stage.AtCas? || stage.AtFindTail?
    requires LocalsOk(s, stage, s.pcs[t].req, s.pcs[t].curTail)
    ensures Owns(Go(s, t, stage), t)
  {}

  lemma GoShape(s: State, t: Req, stage: Stage)
    requires Shape(s) && Holds(s, t) && (s.pcs[t].stage.AtSkip? || s.pcs[t].stage.AtRelease?)
    requires stage.AtWrite? || stage.AtCas? || stage.AtFindTail?
    requires s.base < s.mid <= |s.order| && LocalsOk(s, stage, s.pcs[t].req, s.pcs[t].curTail)
    ensures Shape(Go(s, t, stage))
  {
    OwnerIs(s, t);
    var s' := Go(s, t, stage);
    GoOwns(s, t, stage);
    SameLinks(s, s', t);
    OwnerStepShape(s, s', t);
  }

  lemma DropOwns(s: State, t: Req, stage: Stage)
    requires Owns(s, t) && Holds(s, t) && (s.pcs[t].stage.AtSkip? || s.pcs[t].stage.AtRelease?)
    requires FirstDone(s, t) && Forward(s, s.base, s.mid) && (stage.AtWrite? || stage.AtRelease?)
    ensures Owns(DropFirst(s, t, stage), t)
  {}

  lemma DropShape(s: State, t: Req, stage: Stage)
    requires Shape(s) && Holds(s, t) && (s.pcs[t].stage.AtSkip? || s.pcs[t].stage.AtRelease?)
    requires FirstDone(s, t) && (stage.AtWrite? || stage.AtRelease?)
    ensures Shape(DropFirst(s, t, stage))
  {
    OwnerIs(s, t);
    HeadLink(s, t);
    DropOwns(s, t, stage);
    SameLinks(s, DropFirst(s, t, stage), t);
    OwnerStepShape(s, DropFirst(s, t, stage), t);
  }

  lemma SkipShape(s: State, t: Req)
    requires Shape(s) && CanSkip(s, t)
    ensures Shape(StepSkip(s, t))
  {
    OwnerIs(s, t);
    if FirstDone(s, t) { DropShape(s, t, AtWrite); } else { GoShape(s, t, AtWrite); }
  }

  lemma {:induction false} ConsumeKeys(left: map<Req, seq<Byte>>, chain: seq<Req>, n: nat)
    ensures Consume(left, chain, n).Keys == left.Keys
    decreases |chain|
  {
    if chain != [] && chain[0] in left && n > |left[chain[0]]| {
      ConsumeKeys(left[chain[0] := []], chain[1..], n - |left[chain[0]]|);
    }
  }

  lemma WriteOwns(s: State, t: Req, n: nat)
    requires Owns(s, t) && CanWrite(s, t, n)
    ensures Owns(StepWrite(s, t, n), t) && OwnerStep(s, StepWrite(s, t, n), t)
  {
    ConsumeKeys(s.left, Follow(s.next, s.pcs[t].req, |s.order|), n);
  }

  lemma WriteShape(s: State, t: Req, n: nat)
    requires Shape(s) && CanWrite(s, t, n)
    ensures Shape(StepWrite(s, t, n))
  {
    OwnerIs(s, t);
    WriteOwns(s, t, n);
    SameLinks(s, StepWrite(s, t, n), t);
    OwnerStepShape(s, StepWrite(s, t, n), t);
  }

  lemma ReleaseShape(s: State, t: Req)
    requires Shape(s) && CanRelease(s, t)
    ensures Shape(StepRelease(s, t))
  {
    OwnerIs(s, t);
    var Own(_, req, curTail) := s.pcs[t];
    if FirstDone(s, t) {
      DropShape(s, t, AtRelease);
    } else if curTail.Some? {
      assert s.order[s.base] == s.order[s.mid - 1] <==> s.base == s.mid - 1;
      GoShape(s, t, AtCas(curTail.value, req == curTail.value, true));
    } else {
      GoShape(s, t, AtFindTail(req, s.base));
    }
  }

  lemma FindTailOwns(s: State, t: Req)
    requires Owns(s, t) && CanFindTail(s, t) && Forward(s, s.pcs[t].stage.i, s.mid) && NoDuplicates(s.order)
    ensures Owns(StepFindTail(s, t), t)
  {
    assert s.order[s.base] == s.order[s.mid - 1] <==> s.base == s.mid - 1;
  }

  lemma FindTailKeeps(s: State, t: Req)
    requires Owns(s, t) && LinksOk(s, s.pcs[t].stage) && CanFindTail(s, t) && NoDuplicates(s.order)
    ensures Owns(StepFindTail(s, t), t)
  {
    assert LinkOk(s, s.pcs[t].stage, s.pcs[t].stage.i);
    FindTailOwns(s, t);
  }

  lemma FindTailShape(s: State, t: Req)
    requires Shape(s) && CanFindTail(s, t)
    ensures Shape(StepFindTail(s, t))
  {
    OwnerIs(s, t);
    var s' := StepFindTail(s, t);
    FindTailKeeps(s, t);
    SameLinks(s, s', t);
    OwnerStepShape(s, s', t);
  }

  lemma ProducerShape(s: State, e: Event)
    requires Shape(s) && Enabled(s, e) && (e.Exchange? || e.StoreLink? || e.Return?)
    ensures Shape(Step(s, e))
  {
    match e {
      case Exchange(r, bytes) => ExchangeShape(s, r, bytes);
      case StoreLink(t) => StoreLinkShape(s, t);
      case Return(t) => ReturnShape(s, t);
    }
  }

  lemma CompleteShape(s: State, e: Event)
    requires Shape(s) && Enabled(s, e) && (e.Cas? || e.Reverse? || e.Join? || e.Setup?)
    ensures Shape(Step(s, e))
  {
    match e {
      case Cas(t) => CasShape(s, t);
      case Reverse(t) => ReverseShape(s, t);
      case Join(t) => JoinShape(s, t);
      case Setup(t) => SetupShape(s, t);
    }
  }

  lemma StepShape(s: State, e: Event)
    requires Shape(s) && Enabled(s, e)
    ensures Shape(Step(s, e))
  {
    if e.Exchange? || e.StoreLink? || e.Return? { ProducerShape(s, e); }
    else if e.Cas? || e.Reverse? || e.Join? || e.Setup? { CompleteShape(s, e); }
    else {
      match e {
        case ClearNext(t) => ClearNextShape(s, t);
        case FirstSetup(t, background) => FirstSetupShape(s, t, background);
        case FirstWrite(t, n) => FirstWriteShape(s, t, n);
        case Handoff(t) => HandoffShape(s, t);
        case Skip(t) => SkipShape(s, t);
        case Write(t, n) => WriteShape(s, t, n);
        case Release(t) => ReleaseShape(s, t);
        case FindTail(t) => FindTailShape(s, t);
      }
    }
  }
}
