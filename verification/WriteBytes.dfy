/** What the write queue puts on the connection: the bytes of the requests, in exchange order. */
module WriteBytes {
  import opened Wrappers
  import opened WriteQueue
  import opened WriteShape

  // ---------- concatenation ----------

  lemma {:induction false} ConcatAppend(m: map<Req, seq<Byte>>, a: seq<Req>, b: seq<Req>)
    ensures Concat(m, a + b) == Concat(m, a) + Concat(m, b)
  {
    if a == [] {
      assert a + b == b;
    } else {
      ConcatAppend(m, a[1..], b);
      assert (a + b)[1..] == a[1..] + b;
    }
  }

  lemma {:induction false} ConcatSame(m: map<Req, seq<Byte>>, m': map<Req, seq<Byte>>, rs: seq<Req>)
    requires forall r {:trigger Get(m', r)} :: r in rs ==> Get(m', r) == Get(m, r)
    ensures Concat(m', rs) == Concat(m, rs)
  {
    if rs != [] {
      assert rs[0] in rs;
      ConcatSame(m, m', rs[1..]);
    }
  }

  lemma {:induction false} ConcatEmpty(m: map<Req, seq<Byte>>, rs: seq<Req>)
    requires forall r {:trigger Get(m, r)} :: r in rs ==> Get(m, r) == []
    ensures Concat(m, rs) == []
  {
    if rs != [] {
      assert rs[0] in rs;
      ConcatEmpty(m, rs[1..]);
    }
  }

  lemma {:induction false} ConsumeOutside(left: map<Req, seq<Byte>>, chain: seq<Req>, n: nat, r: Req)
    requires r !in chain
    ensures Get(Consume(left, chain, n), r) == Get(left, r)
    decreases |chain|
  {
    if chain != [] && chain[0] in left && n > |left[chain[0]]| {
      ConsumeOutside(left[chain[0] := []], chain[1..], n - |left[chain[0]]|, r);
    }
  }

  lemma CutBehind(have: seq<Byte>, rest: seq<Byte>, kept: seq<Byte>, k: nat)
    requires k <= |rest| && rest[..k] + kept == rest
    ensures (have + rest)[..|have| + k] + kept == have + rest
  {
    assert (have + rest)[..|have| + k] == have + rest[..k];
    assert (have + rest[..k]) + kept == have + (rest[..k] + kept);
  }

  /** Consuming moves `n` bytes off the front of the chain. */
  lemma {:induction false} ConsumeSplits(left: map<Req, seq<Byte>>, chain: seq<Req>, n: nat)
    requires NoDuplicates(chain) && n <= |Concat(left, chain)|
    requires forall i: nat {:trigger chain[i]} :: i < |chain| ==> chain[i] in left
    ensures Concat(left, chain)[..n] + Concat(Consume(left, chain, n), chain) == Concat(left, chain)
    decreases |chain|
  {
    if chain != [] {
      var first, rest := chain[0], chain[1..];
      var have := left[first];
      assert first !in rest;
      if n <= |have| {
        ConsumeWithin(left, chain, n);
      } else {
        var left1 := left[first := []];
        SameBehind(left, left1, first, rest);
        ConsumeSplits(left1, rest, n - |have|);
        ConsumeOutside(left1, rest, n - |have|, first);
        CutBehind(have, Concat(left, rest), Concat(Consume(left, chain, n), rest), n - |have|);
      }
    }
  }

  lemma ConsumeWithin(left: map<Req, seq<Byte>>, chain: seq<Req>, n: nat)
    requires chain != [] && chain[0] !in chain[1..] && chain[0] in left && n <= |left[chain[0]]|
    ensures Concat(left, chain)[..n] + Concat(Consume(left, chain, n), chain) == Concat(left, chain)
  {
    var have, rest := left[chain[0]], chain[1..];
    SameBehind(left, left[chain[0] := have[n..]], chain[0], rest);
    assert Concat(Consume(left, chain, n), chain) == have[n..] + Concat(left, rest);
    assert (have + Concat(left, rest))[..n] == have[..n];
  }

  lemma SameBehind(left: map<Req, seq<Byte>>, left1: map<Req, seq<Byte>>, first: Req, rest: seq<Req>)
    requires first !in rest && first in left1 && left1 == left[first := left1[first]]
    ensures Concat(left1, rest) == Concat(left, rest)
  {
    forall r | r in rest ensures Get(left1, r) == Get(left, r) { }
    ConcatSame(left, left1, rest);
  }

  // ---------- the chain the owner walks ----------

  /** In any stage but the first, following `next` from position `i` visits the owned chain in order. */
  lemma {:induction false} FollowOwned(s: State, t: Req, i: nat, fuel: nat)
    requires Owns(s, t) && LinksOk(s, s.pcs[t].stage) && !s.pcs[t].stage.AtClearNext?
    requires s.base <= i < s.mid && s.mid - i <= fuel
    ensures Follow(s.next, s.order[i], fuel) == s.order[i..s.mid]
    decreases fuel
  {
    assert LinkOk(s, s.pcs[t].stage, i);
    if i + 1 < s.mid {
      FollowOwned(s, t, i + 1, fuel - 1);
    }
  }

  // ---------- the invariant ----------

  /** The request at position `i`: all written before `base`, untouched before its Setup. */
  ghost predicate ByteOk(s: State, i: nat)
    requires i < |s.order|
  {
    var r := s.order[i];
    && r in s.left && r in s.data
    && (i < s.base ==> s.left[r] == []) && (|s.setups| <= i ==> s.left[r] == s.data[r])
  }

  ghost predicate Bytes(s: State) {
    && s.written + Concat(s.left, s.order) == Concat(s.data, s.order)
    && (forall i: nat {:trigger ByteOk(s, i)} :: i < |s.order| ==> ByteOk(s, i))
  }

  lemma ExchangeSum(m: map<Req, seq<Byte>>, order: seq<Req>, r: Req, bytes: seq<Byte>)
    requires r !in order
    ensures Concat(m[r := bytes], order + [r]) == Concat(m, order) + bytes
  {
    ConcatAppend(m[r := bytes], order, [r]);
    SameBehind(m, m[r := bytes], r, order);
  }

  lemma ExchangeByte(s: State, r: Req, bytes: seq<Byte>, i: nat)
    requires Keys(s) && |s.setups| <= |s.order| && CanExchange(s, r) && i <= |s.order| && s.base <= |s.order|
    requires i < |s.order| ==> ByteOk(s, i)
    ensures ByteOk(StepExchange(s, r, bytes), i)
  {
    assert i < |s.order| ==> s.order[i] in s.order;
  }

  lemma ExchangeTotal(s: State, r: Req, bytes: seq<Byte>)
    requires r !in s.order && s.written + Concat(s.left, s.order) == Concat(s.data, s.order)
    ensures s.written + Concat(s.left[r := bytes], s.order + [r]) == Concat(s.data[r := bytes], s.order + [r])
  {
    ExchangeSum(s.left, s.order, r, bytes);
    ExchangeSum(s.data, s.order, r, bytes);
    assert (s.written + Concat(s.left, s.order)) + bytes == s.written + (Concat(s.left, s.order) + bytes);
  }

  lemma ExchangeBytes(s: State, r: Req, bytes: seq<Byte>)
    requires Keys(s) && |s.setups| <= |s.order| && s.base <= |s.order| && Bytes(s) && CanExchange(s, r)
    ensures Bytes(StepExchange(s, r, bytes))
  {
    var s' := StepExchange(s, r, bytes);
    forall i: nat | i < |s'.order| ensures ByteOk(s', i) {
      assert i < |s.order| ==> ByteOk(s, i);
      ExchangeByte(s, r, bytes, i);
    }
    ExchangeTotal(s, r, bytes);
  }

  /** The Setup calls made so far are those of a prefix of the exchange order, at least up to `base`. */
  lemma SetupsAre(s: State)
    requires Shape(s)
    ensures |s.setups| <= |s.order| && s.setups == s.order[..|s.setups|] && s.base <= |s.setups|
  {
    if s.owner == None {
      assert s.order == s.order[..|s.order|];
    } else {
      SetupsOwned(s, s.owner.value);
    }
  }

  lemma SetupsOwned(s: State, t: Req)
    requires Owns(s, t)
    ensures |s.setups| <= |s.order| && s.setups == s.order[..|s.setups|] && s.base <= |s.setups|
  {}

  /** `s'` is `s` after `n` bytes of the owned chain were written. */
  ghost predicate Wrote(s: State, s': State, chain: seq<Req>, n: nat) {
    && s.base <= s.mid <= |s.order| && chain == s.order[s.base..s.mid] && n <= |Concat(s.left, chain)|
    && s'.written == s.written + Concat(s.left, chain)[..n] && s'.left == Consume(s.left, chain, n)
    && s'.data == s.data && s'.order == s.order && s'.base == s.base && s'.setups == s.setups && |s.setups| == s.mid
  }

  lemma ChainFacts(s: State, chain: seq<Req>)
    requires Keys(s) && s.base <= s.mid <= |s.order| && chain == s.order[s.base..s.mid]
    ensures NoDuplicates(chain)
    ensures forall i: nat {:trigger chain[i]} :: i < |chain| ==> chain[i] in s.left
  {
    forall i: nat | i < |chain| ensures chain[i] in s.left {
      assert chain[i] == s.order[s.base + i];
      assert s.order[s.base + i] in s.order;
    }
    forall i, j | 0 <= i < j < |chain| ensures chain[i] != chain[j] {
      assert chain[i] == s.order[s.base + i] && chain[j] == s.order[s.base + j];
    }
  }

  lemma OutsideChain(s: State, chain: seq<Req>, i: nat)
    requires NoDuplicates(s.order) && s.base <= s.mid <= |s.order| && chain == s.order[s.base..s.mid]
    requires i < |s.order| && (i < s.base || s.mid <= i)
    ensures s.order[i] !in chain
  {
    forall k | 0 <= k < |chain| ensures chain[k] != s.order[i] {
      assert chain[k] == s.order[s.base + k];
    }
  }

  lemma WroteBytes(s: State, s': State, chain: seq<Req>, n: nat)
    requires Keys(s) && Bytes(s) && Wrote(s, s', chain, n)
    ensures Bytes(s')
  {
    ConsumeKeys(s.left, chain, n);
    forall i: nat | i < |s'.order| ensures ByteOk(s', i) {
      assert ByteOk(s, i);
      if i < s.base || s.mid <= i {
        OutsideChain(s, chain, i);
        ConsumeOutside(s.left, chain, n, s.order[i]);
      }
    }
    WroteSum(s, s', chain, n);
  }

  /** Before the chain nothing is left, so the bytes left are those of the chain and those behind it. */
  lemma LeftSum(s: State, left: map<Req, seq<Byte>>)
    requires s.base <= s.mid <= |s.order|
    requires forall i: nat {:trigger s.order[i]} :: i < s.base ==> Get(left, s.order[i]) == []
    ensures Concat(left, s.order) == Concat(left, s.order[s.base..s.mid]) + Concat(left, s.order[s.mid..])
  {
    var pre, chain, post := s.order[..s.base], s.order[s.base..s.mid], s.order[s.mid..];
    assert s.order == pre + (chain + post);
    ConcatEmpty(left, pre);
    ConcatAppend(left, pre, chain + post);
    ConcatAppend(left, chain, post);
  }

  lemma Regroup(w: seq<Byte>, cut: seq<Byte>, kept: seq<Byte>, post: seq<Byte>)
    ensures (w + cut) + (kept + post) == w + ((cut + kept) + post)
  {}

  lemma BehindSame(s: State, chain: seq<Req>, n: nat)
    requires Keys(s) && s.base <= s.mid <= |s.order| && chain == s.order[s.base..s.mid]
    ensures Concat(Consume(s.left, chain, n), s.order[s.mid..]) == Concat(s.left, s.order[s.mid..])
  {
    var post := s.order[s.mid..];
    forall r | r in post ensures Get(Consume(s.left, chain, n), r) == Get(s.left, r) {
      var i :| 0 <= i < |post| && post[i] == r;
      OutsideChain(s, chain, s.mid + i);
      ConsumeOutside(s.left, chain, n, r);
    }
    ConcatSame(s.left, Consume(s.left, chain, n), post);
  }

  lemma WroteSum(s: State, s': State, chain: seq<Req>, n: nat)
    requires Keys(s) && Bytes(s) && Wrote(s, s', chain, n)
    requires forall i: nat {:trigger ByteOk(s', i)} :: i < |s'.order| ==> ByteOk(s', i)
    ensures s'.written + Concat(s'.left, s'.order) == Concat(s'.data, s'.order)
  {
    ChainFacts(s, chain);
    ConsumeSplits(s.left, chain, n);
    forall i: nat | i < s.base ensures Get(s.left, s.order[i]) == [] && Get(s'.left, s.order[i]) == [] {
      assert ByteOk(s, i) && ByteOk(s', i);
    }
    LeftSum(s, s.left);
    LeftSum(s, s'.left);
    BehindSame(s, chain, n);
    Regroup(s.written, Concat(s.left, chain)[..n], Concat(s'.left, chain), Concat(s.left, s.order[s.mid..]));
  }

  lemma FirstWriteBytes(s: State, t: Req, n: nat)
    requires Shape(s) && Bytes(s) && CanFirstWrite(s, t, n)
    ensures Bytes(StepFirstWrite(s, t, n))
  {
    OwnerIs(s, t);
    var req := s.pcs[t].req;
    var chain := s.order[s.base..s.mid];
    assert chain == [req];
    assert Concat(s.left, chain) == s.left[req];
    assert Consume(s.left, chain, n) == s.left[req := s.left[req][n..]];
    WroteBytes(s, StepFirstWrite(s, t, n), chain, n);
  }

  lemma WriteBytes(s: State, t: Req, n: nat)
    requires Shape(s) && Bytes(s) && CanWrite(s, t, n)
    ensures Bytes(StepWrite(s, t, n))
  {
    OwnerIs(s, t);
    FollowOwned(s, t, s.base, |s.order|);
    WroteBytes(s, StepWrite(s, t, n), s.order[s.base..s.mid], n);
  }

  /** Every other event leaves the bytes where they are; `base` passes only written requests. */
  ghost predicate SameBytes(s: State, s': State) {
    && s'.written == s.written && s'.left == s.left && s'.data == s.data && s'.order == s.order
    && s.base <= s'.base && |s.setups| <= |s'.setups|
    && (forall i: nat {:trigger s.order[i]} :: s.base <= i < s'.base && i < |s.order| ==> Get(s.left, s.order[i]) == [])
  }

  lemma SameBytesKept(s: State, s': State)
    requires Bytes(s) && SameBytes(s, s')
    ensures Bytes(s')
  {
    forall i: nat | i < |s'.order| ensures ByteOk(s', i) {
      assert ByteOk(s, i);
      assert s.base <= i < s'.base ==> Get(s.left, s.order[i]) == [];
    }
  }

  lemma CasBytes(s: State, t: Req)
    requires Owns(s, t) && CanCas(s, t)
    ensures SameBytes(s, StepCas(s, t))
  {}

  lemma DropBytes(s: State, t: Req, stage: Stage)
    requires Owns(s, t) && Holds(s, t) && FirstDone(s, t)
    ensures SameBytes(s, DropFirst(s, t, stage))
  {}

  lemma StillBytes(s: State, e: Event)
    requires Enabled(s, e)
    requires !e.Exchange? && !e.FirstWrite? && !e.Write? && !e.Cas? && !e.Skip? && !e.Release?
    ensures SameBytes(s, Step(s, e))
  {}

  lemma DropsBytes(s: State, e: Event)
    requires Shape(s) && Enabled(s, e) && (e.Cas? || e.Skip? || e.Release?)
    ensures SameBytes(s, Step(s, e))
  {
    OwnerIs(s, e.t);
    match e {
      case Cas(t) => CasBytes(s, t);
      case Skip(t) => if FirstDone(s, t) { DropBytes(s, t, AtWrite); }
      case Release(t) => if FirstDone(s, t) { DropBytes(s, t, AtRelease); }
    }
  }

  lemma StepBytes(s: State, e: Event)
    requires Shape(s) && Bytes(s) && Enabled(s, e)
    ensures Bytes(Step(s, e))
  {
    if e.Exchange? {
      SetupsAre(s);
      ExchangeBytes(s, e.r, e.bytes);
    } else if e.FirstWrite? {
      FirstWriteBytes(s, e.t, e.n);
    } else if e.Write? {
      WriteBytes(s, e.t, e.n);
    } else {
      if e.Cas? || e.Skip? || e.Release? { DropsBytes(s, e); } else { StillBytes(s, e); }
      SameBytesKept(s, Step(s, e));
    }
  }
}
