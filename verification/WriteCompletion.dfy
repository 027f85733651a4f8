/** The write queue gets everything written: when exactly it is complete, and that it can get there. */
module WriteCompletion {
  import opened Wrappers
  import opened WriteQueue
  import opened WriteShape
  import opened WriteBytes
  import opened WriteReturns
  import opened WriteTheorems

  // ---------- after the release loop ----------

  predicate PastRelease(stage: Stage) {
    stage.AtCas? || stage.AtFindTail?
  }

  /** Past the release loop the first request of the chain is the last one, or not written yet. */
  ghost predicate TailOk(s: State) {
    s.owner.Some? && s.owner.value in s.pcs && s.pcs[s.owner.value].Own? && PastRelease(s.pcs[s.owner.value].stage) ==>
      s.base < |s.order| && (s.base + 1 == s.mid || Get(s.left, s.order[s.base]) != [])
  }

  predicate IsPast(e: Event) {
    e.FirstWrite? || e.Cas? || e.Release? || e.FindTail?
  }

  lemma ProducerTail(s: State, e: Event)
    requires Shape(s) && TailOk(s) && Enabled(s, e) && IsProducer(e)
    ensures TailOk(Step(s, e))
  {
    if s.owner.Some? {
      OwnerIs(s, s.owner.value);
      ProducerKeeps(s, e, s.owner.value);
      assert s.order[s.base] in s.order;
    }
  }

  lemma FirstWriteTail(s: State, t: Req, n: nat)
    requires Shape(s) && CanFirstWrite(s, t, n)
    ensures TailOk(StepFirstWrite(s, t, n))
  {
    OwnerIs(s, t);
  }

  lemma CasTail(s: State, t: Req)
    requires Shape(s) && CanCas(s, t)
    ensures TailOk(StepCas(s, t))
  {
    OwnerIs(s, t);
  }

  lemma ReleaseTail(s: State, t: Req)
    requires Shape(s) && CanRelease(s, t)
    ensures TailOk(StepRelease(s, t))
  {
    HeadLink(s, t);
  }

  lemma FindTailTail(s: State, t: Req)
    requires Shape(s) && TailOk(s) && CanFindTail(s, t)
    ensures TailOk(StepFindTail(s, t))
  {
    OwnerIs(s, t);
  }

  /** The other events of the owner leave it in another stage. */
  lemma ElsewhereTail(s: State, e: Event)
    requires Enabled(s, e) && !IsProducer(e) && !IsPast(e) && s.owner == Some(e.t)
    ensures TailOk(Step(s, e))
  {}

  lemma PastTail(s: State, e: Event)
    requires Shape(s) && TailOk(s) && Enabled(s, e) && IsPast(e)
    ensures TailOk(Step(s, e))
  {
    match e {
      case FirstWrite(t, n) => FirstWriteTail(s, t, n);
      case Cas(t) => CasTail(s, t);
      case Release(t) => ReleaseTail(s, t);
      case FindTail(t) => FindTailTail(s, t);
    }
  }

  lemma StepTail(s: State, e: Event)
    requires Shape(s) && TailOk(s) && Enabled(s, e)
    ensures TailOk(Step(s, e))
  {
    if IsProducer(e) {
      ProducerTail(s, e);
    } else if IsPast(e) {
      PastTail(s, e);
    } else {
      OwnerActs(s, e);
      ElsewhereTail(s, e);
    }
  }

  ghost predicate Sound(s: State) {
    Good(s) && TailOk(s)
  }

  lemma StepSound(s: State, e: Event)
    requires Sound(s) && Enabled(s, e)
    ensures Sound(Step(s, e))
  {
    StepShape(s, e);
    StepBytes(s, e);
    StepReturns(s, e);
    StepTail(s, e);
  }

  lemma {:induction false} RunSound(s: State, es: seq<Event>)
    requires Sound(s) && Executable(s, es)
    ensures Sound(After(s, es))
    decreases |es|
  {
    if es != [] {
      StepSound(s, es[0]);
      RunSound(Step(s, es[0]), es[1..]);
    }
  }

  lemma ReachableSound(s: State)
    requires Reachable(s)
    ensures Sound(s)
  {
    InitShape();
    var es :| Executable(Init(), es) && After(Init(), es) == s;
    RunSound(Init(), es);
  }

  // ---------- when the queue is complete ----------

  ghost predicate AllWritten(s: State) {
    forall r {:trigger r in s.order} :: r in s.order ==> Get(s.left, r) == []
  }

  /** Everything that the owner has linked is written. */
  ghost predicate Clean(s: State) {
    forall i: nat {:trigger s.order[i]} :: s.base <= i < s.mid && i < |s.order| ==> Get(s.left, s.order[i]) == []
  }

  lemma CleanIsWritten(s: State)
    requires Good(s) && s.mid == |s.order| && s.base <= s.mid
    ensures Clean(s) <==> AllWritten(s)
  {
    if Clean(s) {
      forall r | r in s.order ensures Get(s.left, r) == [] {
        var i: nat :| i < |s.order| && s.order[i] == r;
        assert ByteOk(s, i);
      }
    } else {
      var i: nat :| s.base <= i < s.mid && Get(s.left, s.order[i]) != [];
      assert s.order[i] in s.order;
    }
  }

  /** With all of its chain written the owner has only one request left. */
  lemma CleanIsSingular(s: State, t: Req)
    requires TailOk(s) && Owns(s, t) && s.pcs[t].stage.AtCas?
    ensures Clean(s) <==> s.base + 1 == s.mid && Get(s.left, s.order[s.mid - 1]) == []
    ensures s.pcs[t].stage.singular <==> s.base + 1 == s.mid
  {}

  lemma SwapOutcome(s: State, t: Req)
    requires CanCas(s, t) && Owns(s, t) && TailOk(s)
    requires s.head == Some(s.pcs[t].stage.oldHead) <==> s.mid == |s.order|
    ensures StepCas(s, t).head == None <==> s.mid == |s.order| && Clean(s)
    ensures StepCas(s, t).head == None ==>
              s.base + 1 == s.mid && StepCas(s, t).pcs[t] == Returning(s.pcs[t].stage.oldHead)
    ensures StepCas(s, t).head.Some? ==> StepCas(s, t).head == s.head && StepCas(s, t).pcs[t].Own?
  {
    CleanIsSingular(s, t);
  }

  /** The compare-and-swap sets the head to NULL exactly if its old head is the request exchanged last and all
      requests are written; then it is the one request that the owner still has, and the thread goes on to
      return it. This holds for both callers. */
  lemma CompleteIff(s: State, t: Req)
    requires Reachable(s) && CanCas(s, t)
    ensures s.order != [] && s.base <= |s.order|
    ensures var last := s.pcs[t].stage.oldHead;
            && (StepCas(s, t).head == None <==> s.order[|s.order| - 1] == last && AllWritten(s))
            && (StepCas(s, t).head == None ==>
                  s.order[s.base..] == [last] && StepCas(s, t).pcs[t] == Returning(last))
            && (StepCas(s, t).head.Some? ==> StepCas(s, t).head == s.head && StepCas(s, t).pcs[t].Own?)
  {
    ReachableSound(s);
    OwnerIs(s, t);
    CasSees(s, t);
    SwapOutcome(s, t);
    if s.mid == |s.order| { CleanIsWritten(s); }
  }

  /** If it does not, the caller goes on with what is left: new requests are reversed, and otherwise
      StartWrite hands over to a KeepWrite thread, which writes again. */
  lemma IncompleteGoesOn(s: State, t: Req)
    requires Reachable(s) && CanCas(s, t) && StepCas(s, t).head.Some?
    ensures var AtCas(oldHead, singular, keep) := s.pcs[t].stage;
            var stage := StepCas(s, t).pcs[t].stage;
            if s.head != Some(oldHead) then
              stage.AtReverse? && s.head == Some(stage.newHead) && stage.p == stage.newHead
            else if keep then stage.AtSkip? && StepCas(s, t).pcs[t].curTail == Some(oldHead)
            else stage.AtHandoff?
  {
    ReachableSound(s);
    OwnerIs(s, t);
  }

  /** StartWrite leaves the first write to KeepWrite exactly if it is told to. */
  lemma HandsOverIffBackground(s: State, t: Req, background: bool)
    requires CanFirstSetup(s, t)
    ensures StepFirstSetup(s, t, background).pcs[t].stage == if background then AtHandoff else AtFirstWrite
    ensures StepFirstSetup(s, t, background).setups == s.setups + [s.pcs[t].req]
  {}

  /** From `s` to `z` the owner `t` has let go of its first request and returned it. */
  ghost predicate LetGo(s: State, z: State, t: Req)
    requires s.base + 1 < |s.order|
  {
    && z.base == s.base + 1 && z.returned == s.returned + [s.order[s.base]]
    && t in z.pcs && z.pcs[t].Own? && z.pcs[t].req == s.order[s.base + 1]
  }

  ghost predicate Kept(s: State, z: State, t: Req) {
    z.base == s.base && z.returned == s.returned && t in s.pcs && s.pcs[t].Own? && t in z.pcs && z.pcs[t].Own?
    && z.pcs[t].req == s.pcs[t].req
  }

  lemma SkipDrops(s: State, t: Req)
    requires CanSkip(s, t) && Owns(s, t) && s.order[s.base] in s.next && Forward(s, s.base, s.mid)
    ensures StepSkip(s, t).pcs[t].stage == AtWrite
    ensures if Get(s.left, s.order[s.base]) == [] && s.base + 1 < s.mid then LetGo(s, StepSkip(s, t), t)
            else Kept(s, StepSkip(s, t), t)
  {}

  lemma ReleaseDrops(s: State, t: Req)
    requires CanRelease(s, t) && Owns(s, t) && s.order[s.base] in s.next && Forward(s, s.base, s.mid)
    ensures if Get(s.left, s.order[s.base]) == [] && s.base + 1 < s.mid then
              LetGo(s, StepRelease(s, t), t) && StepRelease(s, t).pcs[t].stage == AtRelease
            else Kept(s, StepRelease(s, t), t) && !StepRelease(s, t).pcs[t].stage.AtRelease?
  {}

  /** KeepWrite lets go of the first request of its chain, and returns it, exactly if that is written and not
      the last: once before each write... */
  lemma SkipsIffWritten(s: State, t: Req)
    requires Reachable(s) && CanSkip(s, t)
    ensures s.base < s.mid <= |s.order| && s.pcs[t].req == s.order[s.base]
    ensures StepSkip(s, t).pcs[t].stage == AtWrite
    ensures if Get(s.left, s.order[s.base]) == [] && s.base + 1 < s.mid then LetGo(s, StepSkip(s, t), t)
            else Kept(s, StepSkip(s, t), t)
  {
    ReachableSound(s);
    HeadLink(s, t);
    SkipDrops(s, t);
  }

  /** ...and after it as often as this is so. */
  lemma ReleasesIffWritten(s: State, t: Req)
    requires Reachable(s) && CanRelease(s, t)
    ensures s.base < s.mid <= |s.order| && s.pcs[t].req == s.order[s.base]
    ensures if Get(s.left, s.order[s.base]) == [] && s.base + 1 < s.mid then
              LetGo(s, StepRelease(s, t), t) && StepRelease(s, t).pcs[t].stage == AtRelease
            else Kept(s, StepRelease(s, t), t) && !StepRelease(s, t).pcs[t].stage.AtRelease?
  {
    ReachableSound(s);
    HeadLink(s, t);
    ReleaseDrops(s, t);
  }

  // ---------- a way to the end ----------

  /** What happens next if nobody else comes and every write takes all it is given. */
  function Next(s: State, t: Req): Event
    requires t in s.pcs && s.pcs[t].Own?
  {
    var req := s.pcs[t].req;
    match s.pcs[t].stage
    case AtClearNext => ClearNext(t)
    case AtFirstSetup => FirstSetup(t, false)
    case AtFirstWrite => FirstWrite(t, |Get(s.left, req)|)
    case AtCas(_, _, _) => Cas(t)
    case AtReverse(_, _, p, _, _, _, _) => if p in s.pcs && s.pcs[p].Linking? then StoreLink(p) else Reverse(t)
    case AtJoin(_, _, _, _, _) => Join(t)
    case AtSetup(_, _, _, _) => Setup(t)
    case AtHandoff => Handoff(t)
    case AtSkip => Skip(t)
    case AtWrite => Write(t, |Concat(s.left, Follow(s.next, req, |s.order|))|)
    case AtRelease => Release(t)
    case AtFindTail(_, _) => FindTail(t)
  }

  /** The steps until the owned chain is written and released and the compare-and-swap comes, or new
      requests are joined; `n` requests were exchanged, and those at `k` to `m - 1` are owned. */
  function Rank(stage: Stage, n: nat, k: nat, m: nat, clean: bool, spins: bool): int {
    var late := if clean then 8 * n + 30 else 0;
    match stage
    case AtClearNext => 10 * n + 52
    case AtFirstSetup => 10 * n + 51
    case AtFirstWrite => 10 * n + 50
    case AtCas(_, _, _) => 4 * n + 10
    case AtReverse(_, _, _, _, _, _, j) => 2 * (j - m) + 2 + if spins then 1 else 0
    case AtJoin(_, _, _, _, _) => 1
    case AtSetup(_, _, _, x) => late + 3 + (m - x + 1)
    case AtHandoff => late + 2
    case AtSkip => late + 1
    case AtWrite => late
    case AtRelease => 6 * n + 20 + (m - k)
    case AtFindTail(_, i) => 4 * n + 11 + (m - i)
  }

  predicate Spins(s: State, stage: Stage) {
    stage.AtReverse? && stage.p in s.pcs && s.pcs[stage.p].Linking?
  }

  ghost function RankOf(s: State, t: Req): int
    requires t in s.pcs && s.pcs[t].Own?
  {
    Rank(s.pcs[t].stage, |s.order|, s.base, s.mid, Clean(s), Spins(s, s.pcs[t].stage))
  }

  lemma RankNonnegative(s: State, t: Req)
    requires Owns(s, t)
    ensures 0 <= RankOf(s, t) && s.mid <= |s.order|
  {}

  /** The queue is complete, or `t` has come closer to that. */
  ghost predicate Closer(s: State, s': State, t: Req)
    requires t in s.pcs && s.pcs[t].Own?
  {
    && s'.order == s.order && t in s'.pcs
    && (s'.owner == None ||
        (s'.owner == Some(t) && s'.pcs[t].Own? &&
         (s.mid < s'.mid ||
          (s'.mid == s.mid && Clean(s') && !Clean(s)) ||
          (s'.mid == s.mid && (Clean(s') <==> Clean(s)) && RankOf(s', t) < RankOf(s, t)))))
  }

  /** Nothing is written, and at most a written request dropped. */
  lemma SameClean(s: State, s': State)
    requires s'.order == s.order && s'.left == s.left && s'.mid == s.mid && s.base < s.mid <= |s.order|
    requires s'.base == s.base || (s'.base == s.base + 1 && Get(s.left, s.order[s.base]) == [])
    ensures Clean(s') <==> Clean(s)
  {}

  lemma ClearNextCloser(s: State, t: Req)
    requires Owns(s, t) && CanClearNext(s, t)
    ensures Closer(s, StepClearNext(s, t), t)
  {
    SameClean(s, StepClearNext(s, t));
  }

  lemma FirstSetupCloser(s: State, t: Req)
    requires Owns(s, t) && CanFirstSetup(s, t)
    ensures Closer(s, StepFirstSetup(s, t, false), t)
  {
    SameClean(s, StepFirstSetup(s, t, false));
  }

  lemma HandoffCloser(s: State, t: Req)
    requires Owns(s, t) && CanHandoff(s, t)
    ensures Closer(s, StepHandoff(s, t), t)
  {
    SameClean(s, StepHandoff(s, t));
  }

  lemma FirstWriteCloser(s: State, t: Req)
    requires Owns(s, t) && CanFirstWrite(s, t, |Get(s.left, s.pcs[t].req)|)
    ensures Closer(s, StepFirstWrite(s, t, |Get(s.left, s.pcs[t].req)|), t)
  {
    assert Clean(StepFirstWrite(s, t, |Get(s.left, s.pcs[t].req)|));
  }

  lemma CasEnds(s: State, t: Req)
    requires Owns(s, t) && CanCas(s, t) && s.head == Some(s.pcs[t].stage.oldHead)
    requires s.left[s.pcs[t].stage.oldHead] == [] && s.pcs[t].stage.singular
    ensures Closer(s, StepCas(s, t), t)
  {}

  lemma CasRepeats(s: State, t: Req)
    requires Owns(s, t) && CanCas(s, t) && s.head == Some(s.pcs[t].stage.oldHead) && !Clean(s)
    requires s.left[s.pcs[t].stage.oldHead] != [] || !s.pcs[t].stage.singular
    ensures Closer(s, StepCas(s, t), t)
  {
    SameClean(s, StepCas(s, t));
  }

  lemma CasTurns(s: State, t: Req)
    requires Owns(s, t) && CanCas(s, t) && s.head != Some(s.pcs[t].stage.oldHead) && s.mid < |s.order|
    ensures Closer(s, StepCas(s, t), t)
  {
    SameClean(s, StepCas(s, t));
  }

  lemma CasCloser(s: State, t: Req)
    requires Keys(s) && TailOk(s) && Owns(s, t) && CanCas(s, t)
    ensures Closer(s, StepCas(s, t), t)
  {
    CasSees(s, t);
    CleanIsSingular(s, t);
    if s.mid < |s.order| { CasTurns(s, t); }
    else if Clean(s) { CasEnds(s, t); }
    else { CasRepeats(s, t); }
  }

  lemma SpinCloser(s: State, t: Req, p: Req)
    requires Owns(s, t) && CanStoreLink(s, p) && Spins(s, s.pcs[t].stage) && s.pcs[t].stage.p == p
    ensures Closer(s, StepStoreLink(s, p), t)
  {
    SameClean(s, StepStoreLink(s, p));
  }

  lemma ReverseCloser(s: State, t: Req)
    requires Owns(s, t) && CanReverse(s, t) && !Spins(s, s.pcs[t].stage) && 0 < s.mid <= s.pcs[t].stage.j
    ensures Closer(s, StepReverse(s, t), t)
  {
    SameClean(s, StepReverse(s, t));
  }

  lemma JoinCloser(s: State, t: Req)
    requires Owns(s, t) && CanJoin(s, t)
    ensures Closer(s, StepJoin(s, t), t)
  {}

  lemma SetupCloser(s: State, t: Req)
    requires Owns(s, t) && CanSetup(s, t)
    ensures Closer(s, StepSetup(s, t), t)
  {
    SameClean(s, StepSetup(s, t));
  }

  lemma SkipCloser(s: State, t: Req)
    requires Owns(s, t) && CanSkip(s, t)
    ensures Closer(s, StepSkip(s, t), t)
  {
    SameClean(s, StepSkip(s, t));
  }

  lemma ReleaseCloser(s: State, t: Req)
    requires Owns(s, t) && CanRelease(s, t)
    ensures Closer(s, StepRelease(s, t), t)
  {
    SameClean(s, StepRelease(s, t));
  }

  lemma FindTailCloser(s: State, t: Req)
    requires Owns(s, t) && CanFindTail(s, t)
    ensures Closer(s, StepFindTail(s, t), t)
  {
    SameClean(s, StepFindTail(s, t));
  }

  lemma {:induction false} ConcatEmptyAt(m: map<Req, seq<Byte>>, rs: seq<Req>, i: nat)
    requires Concat(m, rs) == [] && i < |rs|
    ensures Get(m, rs[i]) == []
  {
    assert |Concat(m, rs)| == |Get(m, rs[0])| + |Concat(m, rs[1..])|;
    if i > 0 { ConcatEmptyAt(m, rs[1..], i - 1); }
  }

  /** A write that takes all leaves nothing of the chain. */
  lemma ConsumeAll(s: State, chain: seq<Req>, i: nat)
    requires Keys(s) && s.base <= s.mid <= |s.order| && chain == s.order[s.base..s.mid] && s.base <= i < s.mid
    ensures Get(Consume(s.left, chain, |Concat(s.left, chain)|), s.order[i]) == []
  {
    ChainFacts(s, chain);
    NothingLeft(s.left, chain);
    ConcatEmptyAt(Consume(s.left, chain, |Concat(s.left, chain)|), chain, i - s.base);
  }

  lemma NothingLeft(left: map<Req, seq<Byte>>, chain: seq<Req>)
    requires NoDuplicates(chain) && forall i: nat {:trigger chain[i]} :: i < |chain| ==> chain[i] in left
    ensures Concat(Consume(left, chain, |Concat(left, chain)|), chain) == []
  {
    var all := Concat(left, chain);
    ConsumeSplits(left, chain, |all|);
    assert all[..|all|] == all;
  }

  lemma WroteAll(s: State, s': State, t: Req, chain: seq<Req>)
    requires Keys(s) && Owns(s, t) && s.pcs[t].stage.AtWrite? && chain == s.order[s.base..s.mid]
    requires s'.left == Consume(s.left, chain, |Concat(s.left, chain)|)
    requires s'.order == s.order && s'.base == s.base && s'.mid == s.mid && s'.owner == s.owner
    requires t in s'.pcs && s'.pcs[t] == s.pcs[t].(stage := AtRelease)
    ensures Closer(s, s', t)
  {
    forall i: nat | s.base <= i < s.mid ensures Get(s'.left, s'.order[i]) == [] { ConsumeAll(s, chain, i); }
    assert Clean(s');
  }

  lemma WriteCloser(s: State, t: Req)
    requires Keys(s) && Owns(s, t) && LinksOk(s, s.pcs[t].stage) && Holds(s, t) && s.pcs[t].stage.AtWrite?
    ensures var n := |Concat(s.left, Follow(s.next, s.pcs[t].req, |s.order|))|;
            CanWrite(s, t, n) && Closer(s, StepWrite(s, t, n), t)
  {
    var chain := s.order[s.base..s.mid];
    FollowOwned(s, t, s.base, |s.order|);
    WroteAll(s, StepWrite(s, t, |Concat(s.left, chain)|), t, chain);
  }

  lemma ReverseNext(s: State, t: Req)
    requires Shape(s) && Owns(s, t) && LinksOk(s, s.pcs[t].stage) && Holds(s, t) && s.pcs[t].stage.AtReverse?
    ensures Enabled(s, Next(s, t)) && Closer(s, Step(s, Next(s, t)), t)
  {
    var p := s.pcs[t].stage.p;
    assert LinkOk(s, s.pcs[t].stage, s.pcs[t].stage.j);
    if s.pcs[p].Linking? {
      SpinCloser(s, t, p);
    } else {
      ReverseAt(s, t);
      ReverseCloser(s, t);
    }
  }

  /** StartWrite. */
  lemma StartNext(s: State, t: Req)
    requires Owns(s, t) && Holds(s, t)
    requires var st := s.pcs[t].stage; st.AtClearNext? || st.AtFirstSetup? || st.AtFirstWrite? || st.AtHandoff?
    ensures Enabled(s, Next(s, t)) && Closer(s, Step(s, Next(s, t)), t)
  {
    match s.pcs[t].stage {
      case AtClearNext => ClearNextCloser(s, t);
      case AtFirstSetup => FirstSetupCloser(s, t);
      case AtFirstWrite => FirstWriteCloser(s, t);
      case AtHandoff => HandoffCloser(s, t);
    }
  }

  /** IsWriteComplete. */
  lemma CompletingNext(s: State, t: Req)
    requires Shape(s) && TailOk(s) && Owns(s, t) && LinksOk(s, s.pcs[t].stage) && Holds(s, t)
    requires var st := s.pcs[t].stage; st.AtCas? || st.AtJoin? || st.AtSetup?
    ensures Enabled(s, Next(s, t)) && Closer(s, Step(s, Next(s, t)), t)
  {
    var st := s.pcs[t].stage;
    assert s.order[s.mid - 1] in s.order;
    match st {
      case AtCas(_, _, _) => CasCloser(s, t);
      case AtJoin(_, _, _, _, _) => JoinCloser(s, t);
      case AtSetup(_, _, _, _) => if st.q.To? { assert s.order[st.x] in s.order; } SetupCloser(s, t);
    }
  }

  /** KeepWrite. */
  lemma KeepNext(s: State, t: Req)
    requires Owns(s, t) && LinksOk(s, s.pcs[t].stage) && Holds(s, t)
    requires var st := s.pcs[t].stage; st.AtSkip? || st.AtRelease? || st.AtFindTail?
    ensures Enabled(s, Next(s, t)) && Closer(s, Step(s, Next(s, t)), t)
  {
    match s.pcs[t].stage {
      case AtSkip => SkipCloser(s, t);
      case AtRelease => ReleaseCloser(s, t);
      case AtFindTail(_, i) => assert LinkOk(s, s.pcs[t].stage, i); FindTailCloser(s, t);
    }
  }

  lemma NextCloser(s: State, t: Req)
    requires Sound(s) && s.owner == Some(t)
    ensures Owns(s, t) && Enabled(s, Next(s, t)) && !Next(s, t).Exchange? && Closer(s, Step(s, Next(s, t)), t)
  {
    OwnerIs(s, t);
    assert s.order[s.base] in s.order;
    var st := s.pcs[t].stage;
    if st.AtClearNext? || st.AtFirstSetup? || st.AtFirstWrite? || st.AtHandoff? { StartNext(s, t); }
    else if st.AtReverse? { ReverseNext(s, t); }
    else if st.AtCas? || st.AtJoin? || st.AtSetup? { CompletingNext(s, t); }
    else if st.AtWrite? { WriteCloser(s, t); }
    else { KeepNext(s, t); }
  }

  /** Nobody else comes with a request. */
  predicate NoArrival(es: seq<Event>) {
    forall e :: e in es ==> !e.Exchange?
  }

  lemma OneEvent(s: State, e: Event, fs: seq<Event>)
    requires Enabled(s, e) && Executable(Step(s, e), fs) && !e.Exchange? && NoArrival(fs)
    ensures Executable(s, [e] + fs) && NoArrival([e] + fs) && After(s, [e] + fs) == After(Step(s, e), fs)
  {
    assert ([e] + fs)[1..] == fs;
  }

  lemma {:induction false} OwnerFinishes(s: State, t: Req) returns (es: seq<Event>)
    requires Sound(s) && Owns(s, t)
    ensures Executable(s, es) && NoArrival(es)
    ensures Sound(After(s, es)) && After(s, es).owner == None && After(s, es).order == s.order
    decreases |s.order| - s.mid, if Clean(s) then 0 else 1, RankOf(s, t)
  {
    var e := Next(s, t);
    NextCloser(s, t);
    RankNonnegative(s, t);
    StepSound(s, e);
    var s1 := Step(s, e);
    var fs := [];
    if s1.owner.Some? {
      OwnerIs(s1, t);
      RankNonnegative(s1, t);
      fs := OwnerFinishes(s1, t);
    }
    OneEvent(s, e, fs);
    es := [e] + fs;
  }

  /** The threads that have still something to do. */
  function Unfinished(s: State): set<Req> {
    set t | t in s.pcs && !s.pcs[t].Done?
  }

  lemma DoneOne(s: State, s': State, t: Req)
    requires t in s.pcs && !s.pcs[t].Done? && s'.pcs == s.pcs[t := Done]
    ensures Unfinished(s') == Unfinished(s) - {t}
  {}

  lemma FinishOne(s: State, t: Req) returns (e: Event)
    requires Shape(s) && s.owner == None && t in Unfinished(s)
    ensures Enabled(s, e) && !e.Exchange?
    ensures Step(s, e).owner == None && Step(s, e).order == s.order && Unfinished(Step(s, e)) == Unfinished(s) - {t}
  {
    assert PcOk(s, t);
    if s.pcs[t].Linking? {
      e := StoreLink(t);
      DoneOne(s, StepStoreLink(s, t), t);
    } else {
      e := Return(t);
      DoneOne(s, StepReturn(s, t), t);
    }
  }

  lemma {:induction false} OthersFinish(s: State) returns (es: seq<Event>)
    requires Sound(s) && s.owner == None
    ensures Executable(s, es) && NoArrival(es)
    ensures Sound(After(s, es)) && After(s, es).owner == None && After(s, es).order == s.order
    ensures forall t :: t in After(s, es).pcs ==> After(s, es).pcs[t].Done?
    decreases |Unfinished(s)|
  {
    es := [];
    if Unfinished(s) == {} {
      assert forall t :: t in s.pcs && !s.pcs[t].Done? ==> t in Unfinished(s);
    } else {
      var t :| t in Unfinished(s);
      var e := FinishOne(s, t);
      StepSound(s, e);
      var fs := OthersFinish(Step(s, e));
      OneEvent(s, e, fs);
      es := [e] + fs;
    }
  }

  lemma {:induction false} RunJoin(s: State, es: seq<Event>, fs: seq<Event>)
    requires Executable(s, es) && Executable(After(s, es), fs)
    ensures Executable(s, es + fs) && After(s, es + fs) == After(After(s, es), fs)
    decreases |es|
  {
    if es == [] {
      assert es + fs == fs;
    } else {
      assert (es + fs)[0] == es[0] && (es + fs)[1..] == es[1..] + fs;
      RunJoin(Step(s, es[0]), es[1..], fs);
    }
  }

  /** From every reachable state the queue can be completed without further calls: the head is NULL, all
      bytes are on the connection, every request is returned and every thread done. */
  lemma CanComplete(s: State) returns (es: seq<Event>)
    requires Reachable(s)
    ensures Executable(s, es) && NoArrival(es)
    ensures var z := After(s, es);
            && z.order == s.order && z.head == None && z.written == Concat(z.data, z.order)
            && (forall r :: r in z.returned <==> r in z.order) && NoDuplicates(z.returned)
            && (forall t :: t in z.pcs ==> z.pcs[t].Done?)
  {
    ReachableSound(s);
    es := [];
    if s.owner.Some? {
      OwnerIs(s, s.owner.value);
      es := OwnerFinishes(s, s.owner.value);
    }
    var fs := OthersFinish(After(s, es));
    RunJoin(s, es, fs);
    es := es + fs;
    var z := After(s, es);
    ReachableRun(s, es);
    WrittenInOrder(z);
    forall r ensures r in z.returned <==> r in z.order { ReturnedOnce(z, r); }
    ReturnedOnce(z, 0);
  }

  lemma ReachableRun(s: State, es: seq<Event>)
    requires Reachable(s) && Executable(s, es)
    ensures Reachable(After(s, es))
  {
    var ds :| Executable(Init(), ds) && After(Init(), ds) == s;
    RunJoin(Init(), ds, es);
    assert Executable(Init(), ds + es) && After(Init(), ds + es) == After(s, es);
  }
}
