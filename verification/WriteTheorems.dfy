/** What the write queue guarantees over every run. */
module WriteTheorems {
  import opened Wrappers
  import opened WriteQueue
  import opened WriteShape
  import opened WriteBytes
  import opened WriteReturns

  ghost predicate Good(s: State) {
    Shape(s) && Bytes(s) && Returns(s)
  }

  ghost predicate Reachable(s: State) {
    exists es :: Executable(Init(), es) && After(Init(), es) == s
  }

  lemma {:induction false} RunGood(s: State, es: seq<Event>)
    requires Good(s) && Executable(s, es)
    ensures Good(After(s, es))
    decreases |es|
  {
    if es != [] {
      StepShape(s, es[0]);
      StepBytes(s, es[0]);
      StepReturns(s, es[0]);
      RunGood(Step(s, es[0]), es[1..]);
    }
  }

  lemma ReachableGood(s: State)
    requires Reachable(s)
    ensures Good(s)
  {
    InitShape();
    var es :| Executable(Init(), es) && After(Init(), es) == s;
    RunGood(Init(), es);
  }

  /** At most one thread has the write right, and one has it exactly when `_write_head` is not NULL. */
  lemma OneWriter(s: State, t: Req, u: Req)
    requires Reachable(s) && t in s.pcs && u in s.pcs
    ensures s.pcs[t].Own? && s.pcs[u].Own? ==> t == u
    ensures s.head == None ==> !s.pcs[t].Own?
    ensures s.head.Some? ==> exists w :: w in s.pcs && s.pcs[w].Own?
  {
    ReachableGood(s);
    assert PcOk(s, t) && PcOk(s, u);
    if s.head.Some? {
      assert s.owner.value in s.pcs && s.pcs[s.owner.value].Own?;
    }
  }

  /** The connection carries a prefix of the data in exchange order, all of it while nobody writes. */
  lemma WrittenInOrder(s: State)
    requires Reachable(s)
    ensures s.written <= Concat(s.data, s.order)
    ensures s.head == None ==> s.written == Concat(s.data, s.order)
  {
    ReachableGood(s);
    if s.head == None {
      forall r | r in s.order ensures Get(s.left, r) == [] {
        var i: nat :| i < |s.order| && s.order[i] == r;
        assert ByteOk(s, i);
      }
      ConcatEmpty(s.left, s.order);
    }
  }

  /** Setup is called once per request, in exchange order, and before the first of its bytes is written. */
  lemma SetupInOrder(s: State, r: Req)
    requires Reachable(s)
    ensures s.setups <= s.order && NoDuplicates(s.setups)
    ensures r in s.order && r !in s.setups ==> r in s.left && r in s.data && s.left[r] == s.data[r]
    ensures s.head == None ==> s.setups == s.order
  {
    ReachableGood(s);
    SetupsAre(s);
    if r in s.order && r !in s.setups {
      var i: nat :| i < |s.order| && s.order[i] == r;
      assert forall k :: 0 <= k < |s.setups| ==> s.setups[k] in s.setups && s.setups[k] == s.order[k];
      assert ByteOk(s, i);
    }
  }

  /** The compare-and-swap to NULL succeeds only when every request exchanged so far is written, and it
      leaves KeepWrite's `req` at its `cur_tail`. */
  lemma CompleteMeansWritten(s: State, t: Req)
    requires Reachable(s) && CanCas(s, t)
    ensures StepCas(s, t).head == None ==>
              s.pcs[t].stage.oldHead == s.pcs[t].req && s.written == Concat(s.data, s.order)
  {
    ReachableGood(s);
    OwnerIs(s, t);
    CasSees(s, t);
    CasReturns(s, t);
    if StepCas(s, t).head == None {
      forall r | r in s.order ensures Get(s.left, r) == [] {
        var i: nat :| i < |s.order| && s.order[i] == r;
        assert ByteOk(s, i);
      }
      ConcatEmpty(s.left, s.order);
    }
  }

  /** No request is returned twice, none before it is written; when all threads are done all are returned. */
  lemma ReturnedOnce(s: State, r: Req)
    requires Reachable(s)
    ensures NoDuplicates(s.returned)
    ensures r in s.returned ==> r in s.order && r in s.left && s.left[r] == []
    ensures (forall t :: t in s.pcs ==> s.pcs[t].Done?) ==> (r in s.returned <==> r in s.order)
  {
    ReachableGood(s);
    if r in s.returned {
      assert Passed(s, r);
      var i: nat :| i < s.base && s.order[i] == r;
      assert ByteOk(s, i);
    }
    if (forall t :: t in s.pcs ==> s.pcs[t].Done?) && r in s.order {
      var i: nat :| i < |s.order| && s.order[i] == r;
      assert s.owner == None;
      assert PassedOk(s, i);
    }
  }

  // ---------- IsWriteComplete ----------

  lemma OwnedChain(s: State, t: Req)
    requires Owns(s, t) && LinksOk(s, s.pcs[t].stage) && CanSetup(s, t) && s.pcs[t].stage.q == Null
    ensures s.order[s.mid - 1] == s.pcs[t].stage.newHead && s.setups == s.order[..s.mid]
    ensures Follow(s.next, s.pcs[t].req, |s.order|) == s.order[s.base..s.mid]
  {
    FollowOwned(s, t, s.base, |s.order|);
  }

  /** When IsWriteComplete is done with its new segment, the chain from `req` is the old list followed by
      the new requests in exchange order, and its last request is the head that the CAS saw. */
  lemma ChainAfterReversal(s: State, t: Req)
    requires Reachable(s) && CanSetup(s, t) && s.pcs[t].stage.q == Null
    ensures s.base < s.mid <= |s.order| && s.order[s.mid - 1] == s.pcs[t].stage.newHead
    ensures Follow(s.next, s.pcs[t].req, |s.order|) == s.order[s.base..s.mid]
    ensures s.setups == s.order[..s.mid]
  {
    ReachableGood(s);
    OwnerIs(s, t);
    OwnedChain(s, t);
  }

  /** The requests IsWriteComplete still has to visit: to reverse, then to set up. */
  function Remaining(s: State, stage: Stage): int {
    match stage
    case AtReverse(_, _, _, _, _, h, j) => (j - s.mid + 1) + (h + 1 - s.mid) + 2
    case AtJoin(_, _, _, _, h) => (h + 1 - s.mid) + 2
    case AtSetup(_, _, _, x) => s.mid - x + 1
    case _ => 0
  }

  predicate Completing(stage: Stage) {
    stage.AtReverse? || stage.AtJoin? || stage.AtSetup?
  }

  /** `t` had work left in IsWriteComplete and did one piece of it. */
  ghost predicate Visits(s: State, s': State, t: Req) {
    && t in s.pcs && s.pcs[t].Own? && t in s'.pcs && s'.pcs[t].Own?
    && Remaining(s, s.pcs[t].stage) > 0
    && Remaining(s', s'.pcs[t].stage) == Remaining(s, s.pcs[t].stage) - 1
  }

  lemma ReverseVisits(s: State, t: Req)
    requires Shape(s) && CanReverse(s, t)
    ensures Visits(s, StepReverse(s, t), t)
  {
    OwnerIs(s, t);
    ReverseAt(s, t);
  }

  lemma JoinVisits(s: State, t: Req)
    requires Owns(s, t) && CanJoin(s, t)
    ensures Visits(s, StepJoin(s, t), t)
  {}

  lemma SetupVisits(s: State, t: Req)
    requires Shape(s) && CanSetup(s, t)
    ensures Visits(s, StepSetup(s, t), t)
  {
    OwnerIs(s, t);
    var st := s.pcs[t].stage;
    if st.q.To? { assert LinkOk(s, st, st.x); }
  }

  /** Its loops end: each of its steps visits one request... */
  lemma ReversalEnds(s: State, e: Event)
    requires Reachable(s) && Enabled(s, e) && (e.Reverse? || e.Join? || e.Setup?)
    ensures Visits(s, Step(s, e), e.t)
  {
    ReachableGood(s);
    match e {
      case Reverse(t) => ReverseVisits(s, t);
      case Join(t) => OwnerIs(s, t); JoinVisits(s, t);
      case Setup(t) => SetupVisits(s, t);
    }
  }

  /** ...and no other thread adds to its work, however many requests arrive meanwhile. */
  lemma OthersAddNoWork(s: State, e: Event, t: Req)
    requires Reachable(s) && Enabled(s, e) && t in s.pcs && s.pcs[t].Own? && Completing(s.pcs[t].stage)
    requires e != Reverse(t) && e != Join(t) && e != Setup(t)
    ensures var s' := Step(s, e);
            t in s'.pcs && s'.pcs[t] == s.pcs[t] && Remaining(s', s.pcs[t].stage) == Remaining(s, s.pcs[t].stage)
  {
    ReachableGood(s);
    OwnerIs(s, t);
    OthersKeep(s, e, t);
  }

  predicate IsProducer(e: Event) {
    e.Exchange? || e.StoreLink? || e.Return?
  }

  lemma ProducerKeeps(s: State, e: Event, t: Req)
    requires Enabled(s, e) && IsProducer(e) && t in s.pcs && s.pcs[t].Own? && Owns(s, t)
    ensures var s' := Step(s, e);
            t in s'.pcs && s'.pcs[t] == s.pcs[t] && s'.mid == s.mid
  {}

  lemma OwnerActs(s: State, e: Event)
    requires Shape(s) && Enabled(s, e) && !IsProducer(e)
    ensures s.owner == Some(e.t) && e.t in s.pcs && s.pcs[e.t].Own?
    ensures Completing(s.pcs[e.t].stage) ==> e.Reverse? || e.Join? || e.Setup?
  {
    OwnerIs(s, e.t);
  }

  lemma OthersKeep(s: State, e: Event, t: Req)
    requires Shape(s) && Enabled(s, e) && t in s.pcs && s.pcs[t].Own? && Completing(s.pcs[t].stage) && Owns(s, t)
    requires e != Reverse(t) && e != Join(t) && e != Setup(t)
    ensures var s' := Step(s, e);
            t in s'.pcs && s'.pcs[t] == s.pcs[t] && s'.mid == s.mid
  {
    if IsProducer(e) {
      ProducerKeeps(s, e, t);
    } else {
      OwnerActs(s, e);
    }
  }

  /** The owner is never stuck: it can move, or it spins on a request whose thread can store its link. */
  lemma OwnerProgress(s: State, t: Req) returns (e: Event)
    requires Reachable(s) && t in s.pcs && s.pcs[t].Own?
    ensures Enabled(s, e)
    ensures if e.StoreLink? then s.pcs[t].stage.AtReverse? && e.t == s.pcs[t].stage.p else !e.Exchange? && e.t == t
  {
    ReachableGood(s);
    OwnerIs(s, t);
    assert s.order[s.base] in s.order;
    var st := s.pcs[t].stage;
    match st {
      case AtClearNext => e := ClearNext(t);
      case AtFirstSetup => e := FirstSetup(t, false);
      case AtFirstWrite => e := FirstWrite(t, 0);
      case AtCas(_, _, _) => assert s.order[s.mid - 1] in s.order; e := Cas(t);
      case AtReverse(_, _, _, _, _, _, _) => e := ReverseProgress(s, t);
      case AtJoin(_, _, _, _, _) => assert s.order[s.mid - 1] in s.order; e := Join(t);
      case AtSetup(_, _, _, _) => if st.q.To? { assert s.order[st.x] in s.order; } e := Setup(t);
      case AtHandoff => e := Handoff(t);
      case AtSkip => e := Skip(t);
      case AtWrite => e := Write(t, 0);
      case AtRelease => e := Release(t);
      case AtFindTail(_, i) => assert LinkOk(s, st, i); e := FindTail(t);
    }
  }

  lemma ReverseProgress(s: State, t: Req) returns (e: Event)
    requires Shape(s) && Owns(s, t) && LinksOk(s, s.pcs[t].stage) && s.pcs[t].stage.AtReverse? && Holds(s, t)
    ensures Enabled(s, e) && (e == StoreLink(s.pcs[t].stage.p) || e == Reverse(t))
  {
    var st := s.pcs[t].stage;
    assert LinkOk(s, st, st.j);
    e := if s.pcs[st.p].Linking? then StoreLink(st.p) else Reverse(t);
  }
}
