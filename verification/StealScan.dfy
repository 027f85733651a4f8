/** The strided scan of TaskControl::steal_task: which group indices are visited when a
    worker starts at its seed and advances by its offset, `ngroup` times. */
module StealScan {
  import opened Arithmetic

  /** `size_t` is 64 bits wide: `s += offset` is taken modulo this. */
  const SIZE_MODULUS: nat := 0x1_0000_0000_0000_0000

  /** The local variable `s` after `i` executions of `s += offset`. */
  function SeedAfter(seed: nat, offset: nat, i: nat): nat {
    (seed + i * offset) % SIZE_MODULUS
  }

  /** The group index looked at in iteration `i`. */
  function Visited(seed: nat, offset: nat, i: nat, ngroup: nat): nat
    requires ngroup > 0
  {
    SeedAfter(seed, offset, i) % ngroup
  }

  /** Iteration `i` looks at index `k`. */
  ghost predicate Hits(seed: nat, offset: nat, ngroup: nat, i: nat, k: nat)
    requires ngroup > 0
  {
    Visited(seed, offset, i, ngroup) == k
  }

  /** One of the first `ngroup` iterations looks at index `k`. */
  ghost predicate IsHit(seed: nat, offset: nat, ngroup: nat, k: nat)
    requires ngroup > 0
  {
    exists i: nat :: i < ngroup && Hits(seed, offset, ngroup, i, k)
  }

  /** Every group index is looked at by one of the first `ngroup` iterations. */
  ghost predicate CoversAll(seed: nat, offset: nat, ngroup: nat)
    requires ngroup > 0
  {
    forall k: nat :: k < ngroup ==> IsHit(seed, offset, ngroup, k)
  }

  /** No index is looked at twice. */
  ghost predicate NoRepeats(seed: nat, offset: nat, ngroup: nat)
    requires ngroup > 0
  {
    forall i, j :: 0 <= i < j < ngroup ==> Visited(seed, offset, i, ngroup) != Visited(seed, offset, j, ngroup)
  }

  /** The additions of the scan never leave the range of `size_t`, or leaving it does not matter
      because the group count divides the modulus. */
  predicate WrapHarmless(seed: nat, offset: nat, ngroup: nat)
    requires ngroup > 0
  {
    seed + (ngroup - 1) * offset < SIZE_MODULUS || SIZE_MODULUS % ngroup == 0
  }

  /** When wrapping is harmless the visited index is the unbounded `(seed + i * offset) % ngroup`. */
  lemma VisitedUnbounded(seed: nat, offset: nat, i: nat, ngroup: nat)
    requires ngroup > 0 && i < ngroup && WrapHarmless(seed, offset, ngroup)
    ensures Visited(seed, offset, i, ngroup) == (seed + i * offset) % ngroup
  {
    if seed + (ngroup - 1) * offset < SIZE_MODULUS {
      ProductMonotone(i, ngroup - 1, offset);
      WrapOnce(seed + i * offset);
    } else {
      WrapByMultiple(seed + i * offset, ngroup);
    }
  }

  lemma WrapByMultiple(s: nat, n: nat)
    requires n > 0 && SIZE_MODULUS % n == 0
    ensures (s % SIZE_MODULUS) % n == s % n
  {
    var k, t := SIZE_MODULUS / n, s / SIZE_MODULUS;
    assert SIZE_MODULUS == n * k;
    assert s == SIZE_MODULUS * t + s % SIZE_MODULUS;
    assert s - s % SIZE_MODULUS == n * (k * t) by {
      assert SIZE_MODULUS * t == (n * k) * t == n * (k * t);
    }
    SameModDivides(n, s % SIZE_MODULUS, s);
  }

  lemma CoprimeNoRepeats(seed: nat, offset: nat, ngroup: nat)
    requires ngroup > 0 && WrapHarmless(seed, offset, ngroup) && Gcd(offset, ngroup) == 1
    ensures NoRepeats(seed, offset, ngroup)
  {
    forall i, j | 0 <= i < j < ngroup
      ensures Visited(seed, offset, i, ngroup) != Visited(seed, offset, j, ngroup)
    {
      VisitedUnbounded(seed, offset, i, ngroup);
      VisitedUnbounded(seed, offset, j, ngroup);
      SameModDivides(ngroup, seed + i * offset, seed + j * offset);
      assert (seed + j * offset) - (seed + i * offset) == (j - i) * offset;
      CoprimeNoMultiple(offset, ngroup, j - i);
    }
  }

  ghost function Below(n: nat): (r: set<nat>)
    ensures forall k: nat :: k in r <==> k < n
  {
    if n == 0 then {} else Below(n - 1) + {n - 1}
  }

  ghost function Elements(s: seq<nat>): set<nat> {
    set x | x in s
  }

  /** A sequence of `n` distinct indices below `n` contains every index below `n`. */
  lemma Pigeonhole(s: seq<nat>, n: nat)
    requires |s| == n
    requires forall i :: 0 <= i < n ==> s[i] < n
    requires forall i, j :: 0 <= i < j < n ==> s[i] != s[j]
    ensures forall k: nat :: k < n ==> k in s
  {
    BelowSize(n);
    DistinctSize(s);
    if Elements(s) < Below(n) {
      SubsetSmaller(Elements(s), Below(n));
    }
    assert Elements(s) == Below(n);
    forall k: nat | k < n
      ensures k in s
    {
      assert k in Below(n);
    }
  }

  lemma {:induction false} BelowSize(n: nat)
    ensures |Below(n)| == n
  {
    if n > 0 {
      BelowSize(n - 1);
    }
  }

  lemma {:induction false} DistinctSize(s: seq<nat>)
    requires forall i, j :: 0 <= i < j < |s| ==> s[i] != s[j]
    ensures |Elements(s)| == |s|
  {
    if s != [] {
      var front, last := s[..|s| - 1], s[|s| - 1];
      DistinctSize(front);
      assert s == front + [last];
      assert Elements(s) == Elements(front) + {last};
    } else {
      assert Elements(s) == {};
    }
  }

  lemma SubsetSmaller(a: set<nat>, b: set<nat>)
    requires a < b
    ensures |a| < |b|
  {
    var rest := b - a;
    assert b == a + rest;
    assert rest != {};
  }

  lemma NoRepeatsCovers(seed: nat, offset: nat, ngroup: nat)
    requires ngroup > 0 && NoRepeats(seed, offset, ngroup)
    ensures CoversAll(seed, offset, ngroup)
  {
    var visits := seq(ngroup, i requires 0 <= i < ngroup => Visited(seed, offset, i, ngroup));
    Pigeonhole(visits, ngroup);
    forall k: nat | k < ngroup
      ensures IsHit(seed, offset, ngroup, k)
    {
      assert k in visits;
      var i :| 0 <= i < |visits| && visits[i] == k;
      assert Hits(seed, offset, ngroup, i, k);
    }
  }

  lemma StaysInResidueClass(seed: int, offset: nat, ngroup: nat, d: nat, i: nat)
    requires ngroup > 0 && d > 0 && Divides(d, offset) && Divides(d, ngroup)
    ensures ((seed + i * offset) % ngroup) % d == seed % d
  {
    var s := seed + i * offset;
    var q := s / ngroup;
    assert s == ngroup * q + s % ngroup;
    DividesSum(d, offset, ngroup, i, -q);
    assert i * offset + -q * ngroup == s % ngroup - seed;
    SameModDivides(d, seed, s % ngroup);
  }

  /** An offset sharing a factor with the group count keeps the scan in one residue class. */
  lemma SharedFactorMisses(seed: nat, offset: nat, ngroup: nat)
    requires ngroup > 0 && WrapHarmless(seed, offset, ngroup) && Gcd(offset, ngroup) != 1
    ensures !CoversAll(seed, offset, ngroup)
  {
    var x, y := GcdBezout(offset, ngroup);
    var d := Gcd(offset, ngroup);
    var m: int :| ngroup == d * m;
    if m <= 0 {
      MulMonotone(d, m, 0);
    } else {
      MulMonotone(d, 1, m);
    }
    var missed := (seed + 1) % d;
    SmallMod(d, seed);
    forall i: nat | i < ngroup
      ensures !Hits(seed, offset, ngroup, i, missed)
    {
      VisitedUnbounded(seed, offset, i, ngroup);
      StaysInResidueClass(seed, offset, ngroup, d, i);
    }
    assert !IsHit(seed, offset, ngroup, missed);
  }

  /** Without a wrap, or with one that does not matter, only the factors count. */
  lemma ScanCoversIffCoprime(seed: nat, offset: nat, ngroup: nat)
    requires ngroup > 0 && WrapHarmless(seed, offset, ngroup)
    ensures CoversAll(seed, offset, ngroup) <==> Gcd(offset, ngroup) == 1
    ensures CoversAll(seed, offset, ngroup) ==> NoRepeats(seed, offset, ngroup)
  {
    if Gcd(offset, ngroup) == 1 {
      CoprimeNoRepeats(seed, offset, ngroup);
      NoRepeatsCovers(seed, offset, ngroup);
    } else {
      SharedFactorMisses(seed, offset, ngroup);
    }
  }

  // ---------- a scan that wraps ----------

  lemma {:induction false} ElementsAtMost(s: seq<nat>)
    ensures |Elements(s)| <= |s|
  {
    if s == [] {
      assert Elements(s) == {};
    } else {
      var front := s[..|s| - 1];
      ElementsAtMost(front);
      assert s == front + [s[|s| - 1]];
      assert Elements(s) == Elements(front) + {s[|s| - 1]};
    }
  }

  /** As many iterations as groups cover them only without repetition. */
  lemma CoversNoRepeats(seed: nat, offset: nat, ngroup: nat)
    requires ngroup > 0 && CoversAll(seed, offset, ngroup)
    ensures NoRepeats(seed, offset, ngroup)
  {
    forall i, j | 0 <= i < j < ngroup
      ensures Visited(seed, offset, i, ngroup) != Visited(seed, offset, j, ngroup)
    {
      if Visited(seed, offset, i, ngroup) == Visited(seed, offset, j, ngroup) {
        var visits := seq(ngroup, k requires 0 <= k < ngroup => Visited(seed, offset, k, ngroup));
        var others := visits[..j] + visits[j + 1..];
        forall k | k in Below(ngroup) ensures k in Elements(others) {
          assert IsHit(seed, offset, ngroup, k);
          var l: nat :| l < ngroup && Hits(seed, offset, ngroup, l, k);
          var m := if l == j then i else l;
          assert others[if m < j then m else m - 1] == visits[m] == k;
        }
        ElementsAtMost(others);
        BelowSize(ngroup);
        SubsetAtMost(Below(ngroup), Elements(others));
        assert false;
      }
    }
  }

  lemma SubsetAtMost(a: set<nat>, b: set<nat>)
    requires a <= b
    ensures |a| <= |b|
  {
    if a != b {
      SubsetSmaller(a, b);
    }
  }

  /** The addition wraps once at most, in iteration `m`. */
  ghost predicate WrapsAt(seed: nat, offset: nat, ngroup: nat, m: nat) {
    && seed < SIZE_MODULUS && ngroup * offset < SIZE_MODULUS && 0 < m < ngroup
    && seed + (m - 1) * offset < SIZE_MODULUS <= seed + m * offset
  }

  lemma {:induction false} FindWrap(seed: nat, offset: nat, ngroup: nat, upper: nat) returns (m: nat)
    requires seed < SIZE_MODULUS && ngroup * offset < SIZE_MODULUS && upper < ngroup
    requires seed + upper * offset >= SIZE_MODULUS
    ensures WrapsAt(seed, offset, ngroup, m)
    decreases upper
  {
    if upper > 0 && seed + (upper - 1) * offset >= SIZE_MODULUS {
      m := FindWrap(seed, offset, ngroup, upper - 1);
    } else {
      m := upper;
    }
  }

  /** The visited index, by the unbounded sum or, from the wrap on, by the sum less the modulus. */
  lemma VisitedAroundWrap(seed: nat, offset: nat, ngroup: nat, m: nat, i: nat)
    requires WrapsAt(seed, offset, ngroup, m) && i < ngroup
    ensures i < m ==> Visited(seed, offset, i, ngroup) == (seed + i * offset) % ngroup
    ensures i >= m ==> seed + i * offset >= SIZE_MODULUS
    ensures i >= m ==> Visited(seed, offset, i, ngroup) == (seed + i * offset - SIZE_MODULUS) % ngroup
  {
    ProductMonotone(i, ngroup, offset);
    if i < m {
      ProductMonotone(i, m - 1, offset);
      WrapOnce(seed + i * offset);
    } else {
      ProductMonotone(m, i, offset);
      WrapOnce(seed + i * offset);
    }
  }

  lemma WrapOnce(x: nat)
    requires x < 2 * SIZE_MODULUS
    ensures x % SIZE_MODULUS == if x < SIZE_MODULUS then x else x - SIZE_MODULUS
  {}

  /** Indices `c` apart, one before and one after the wrap, are the same if `c` offsets make up the modulus. */
  lemma WrapRepeats(seed: nat, offset: nat, ngroup: nat, m: nat, i: nat, j: nat)
    requires WrapsAt(seed, offset, ngroup, m) && i < m <= j < ngroup
    requires Divides(ngroup, (j - i) * offset - SIZE_MODULUS)
    ensures Visited(seed, offset, i, ngroup) == Visited(seed, offset, j, ngroup)
  {
    VisitedAroundWrap(seed, offset, ngroup, m, i);
    VisitedAroundWrap(seed, offset, ngroup, m, j);
    assert (seed + j * offset - SIZE_MODULUS) - (seed + i * offset) == (j - i) * offset - SIZE_MODULUS by {
      assert (j - i) * offset == j * offset - i * offset;
    }
    SameModDivides(ngroup, seed + i * offset, seed + j * offset - SIZE_MODULUS);
  }

  /** A wrap that does matter spoils a coprime scan: the visits before and after it overlap. */
  lemma CoprimeWrapMisses(seed: nat, offset: nat, ngroup: nat, m: nat)
    requires WrapsAt(seed, offset, ngroup, m) && SIZE_MODULUS % ngroup != 0 && Gcd(offset, ngroup) == 1
    ensures !CoversAll(seed, offset, ngroup)
  {
    var c := CoprimeReaches(offset, ngroup, SIZE_MODULUS);
    if c == 0 {
      DividesSum(ngroup, 0 - SIZE_MODULUS, 0 - SIZE_MODULUS, -1, 0);
      ModZeroDivides(ngroup, SIZE_MODULUS);
    }
    var i := if m >= c then m - c else 0;
    WrapRepeats(seed, offset, ngroup, m, i, i + c);
    if CoversAll(seed, offset, ngroup) {
      CoversNoRepeats(seed, offset, ngroup);
    }
  }

  /** A wrapping scan with a shared factor stays in two residue classes, or in one if that factor divides the
      modulus, as 2 does. */
  lemma SharedFactorWrapMisses(seed: nat, offset: nat, ngroup: nat, m: nat)
    requires WrapsAt(seed, offset, ngroup, m) && Gcd(offset, ngroup) != 1
    ensures !CoversAll(seed, offset, ngroup)
  {
    var x, y := GcdBezout(offset, ngroup);
    var d := Gcd(offset, ngroup);
    FactorAtMost(d, ngroup);
    var missed := ThirdClass(d, seed);
    forall i: nat | i < ngroup
      ensures !Hits(seed, offset, ngroup, i, missed)
    {
      VisitedAroundWrap(seed, offset, ngroup, m, i);
      StaysInResidueClass(if i < m then seed else seed - SIZE_MODULUS, offset, ngroup, d, i);
      assert i >= m ==> seed - SIZE_MODULUS + i * offset == seed + i * offset - SIZE_MODULUS;
    }
    assert !IsHit(seed, offset, ngroup, missed);
  }

  /** A residue class that a sum is in neither before nor after the wrap. */
  lemma ThirdClass(d: nat, seed: nat) returns (k: nat)
    requires d > 1
    ensures k < d && k % d == k && k != seed % d && k != (seed - SIZE_MODULUS) % d
  {
    var before, behind := seed % d, (seed - SIZE_MODULUS) % d;
    if d == 2 {
      assert before == behind;
      k := 1 - before;
    } else {
      k := if before != 0 && behind != 0 then 0 else if before != 1 && behind != 1 then 1 else 2;
    }
    SmallModIs(k, d);
  }

  /** The scan of steal_task looks at every group, each exactly once, exactly when the offset is coprime to
      the group count and the seed does not wrap, or wraps without effect. */
  lemma ScanCoversIff(seed: nat, offset: nat, ngroup: nat)
    requires ngroup > 0 && seed < SIZE_MODULUS && ngroup * offset < SIZE_MODULUS
    ensures CoversAll(seed, offset, ngroup) <==> Gcd(offset, ngroup) == 1 && WrapHarmless(seed, offset, ngroup)
    ensures CoversAll(seed, offset, ngroup) ==> NoRepeats(seed, offset, ngroup)
  {
    if WrapHarmless(seed, offset, ngroup) {
      ScanCoversIffCoprime(seed, offset, ngroup);
    } else {
      var m := FindWrap(seed, offset, ngroup, ngroup - 1);
      if Gcd(offset, ngroup) == 1 {
        CoprimeWrapMisses(seed, offset, ngroup, m);
      } else {
        SharedFactorWrapMisses(seed, offset, ngroup, m);
      }
    }
  }

  /** Coprimality alone is not enough: with three groups, offset 1 and a seed at the top of the
      `size_t` range the addition wraps and the scan visits 0, 0, 1 and never 2. */
  lemma WrapCanSkipAGroup()
    ensures Gcd(1, 3) == 1 && !WrapHarmless(SIZE_MODULUS - 1, 1, 3) && !CoversAll(SIZE_MODULUS - 1, 1, 3)
  {
    assert Visited(SIZE_MODULUS - 1, 1, 0, 3) == 0;
    assert Visited(SIZE_MODULUS - 1, 1, 1, 3) == 0;
    assert Visited(SIZE_MODULUS - 1, 1, 2, 3) == 1;
    assert Gcd(1, 3) == Gcd(3, 1) == Gcd(1, 0);
    if IsHit(SIZE_MODULUS - 1, 1, 3, 2) {
      var i: nat :| i < 3 && Hits(SIZE_MODULUS - 1, 1, 3, i, 2);
    }
    assert !IsHit(SIZE_MODULUS - 1, 1, 3, 2);
  }
}
