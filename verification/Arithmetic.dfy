/** Quotients, remainders and divisors. */
module Arithmetic {
  ghost predicate Divides(d: nat, a: int)
    requires d > 0
  {
    exists q: int :: a == d * q
  }

  function Gcd(a: nat, b: nat): (g: nat)
    decreases b
  {
    if b == 0 then a else Gcd(b, a % b)
  }

  lemma Assoc(a: int, b: int, c: int)
    ensures (a * b) * c == a * (b * c)
  {}

  lemma Distrib(a: int, b: int, c: int)
    ensures a * (b + c) == a * b + a * c
  {}

  lemma Commute(a: int, b: int)
    ensures a * b == b * a
  {}

  lemma DividesSum(d: nat, a: int, b: int, x: int, y: int)
    requires d > 0 && Divides(d, a) && Divides(d, b)
    ensures Divides(d, x * a + y * b)
  {
    var p: int :| a == d * p;
    var q: int :| b == d * q;
    assert x * a + y * b == d * (x * p + y * q) by {
      assert x * (d * p) == d * (x * p);
      assert y * (d * q) == d * (y * q);
    }
  }

  lemma MulMonotone(n: nat, a: int, b: int)
    requires a <= b
    ensures n * a <= n * b
  {
    assert n * b - n * a == n * (b - a);
  }

  lemma ProductMonotone(a: nat, b: nat, o: nat)
    requires a <= b
    ensures a * o <= b * o
  {
    assert b * o - a * o == (b - a) * o;
  }

  /** A multiple of `n` lying strictly between `-n` and `n` is zero. */
  lemma SmallMultiple(n: nat, t: int)
    requires n > 0 && 0 - n < n * t < n
    ensures t == 0
  {
    if t >= 1 {
      MulMonotone(n, 1, t);
    } else if t <= -1 {
      MulMonotone(n, t, -1);
    }
  }

  lemma MultipleModZero(n: nat, q: int)
    requires n > 0
    ensures (n * q) % n == 0
  {
    var r := (n * q) % n;
    var t := (n * q) / n;
    assert n * q == n * t + r;
    assert n * (q - t) == n * q - n * t;
    SmallMultiple(n, q - t);
  }

  lemma ModZeroDivides(n: nat, a: int)
    requires n > 0
    ensures a % n == 0 <==> Divides(n, a)
  {
    if a % n == 0 {
      assert a == n * (a / n);
    }
    if Divides(n, a) {
      var q: int :| a == n * q;
      MultipleModZero(n, q);
    }
  }

  lemma SameModDivides(n: nat, a: int, b: int)
    requires n > 0
    ensures a % n == b % n <==> Divides(n, b - a)
  {
    var qa, ra := a / n, a % n;
    var qb, rb := b / n, b % n;
    assert n * (qb - qa) == n * qb - n * qa;
    assert b - a == n * (qb - qa) + (rb - ra);
    if Divides(n, b - a) {
      var q: int :| b - a == n * q;
      assert n * (q - (qb - qa)) == n * q - n * (qb - qa);
      SmallMultiple(n, q - (qb - qa));
    }
  }

  lemma SmallMod(d: nat, a: nat)
    requires d > 1
    ensures ((a + 1) % d) % d != a % d
  {
    SameModDivides(d, (a + 1) % d, a + 1);
    assert a + 1 - (a + 1) % d == d * ((a + 1) / d);
    if (a + 1) % d == a % d {
      SameModDivides(d, a, a + 1);
      var q: int :| a + 1 - a == d * q;
      SmallMultiple(d, q);
    }
  }

  lemma SmallModIs(a: nat, d: nat)
    requires a < d
    ensures a % d == a
  {}

  lemma FactorAtMost(d: nat, n: nat)
    requires d > 0 && n > 0 && Divides(d, n)
    ensures d <= n
  {
    var m: int :| n == d * m;
    if m <= 0 {
      MulMonotone(d, m, 0);
    } else {
      MulMonotone(d, 1, m);
    }
  }

  lemma SplitIndex(n: nat, k: nat, slot: nat)
    requires slot < n
    ensures (k * n + slot) / n == k && (k * n + slot) % n == slot
  {
    var q, r := (k * n + slot) / n, (k * n + slot) % n;
    assert k * n + slot == q * n + r;
    assert q < k ==> (q + 1) * n <= k * n;
    assert k < q ==> (k + 1) * n <= q * n;
  }

  lemma NextRemainder(x: nat, n: nat)
    requires n > 0
    ensures (x + 1) % n == if x % n + 1 == n then 0 else x % n + 1
  {
    var q, r := x / n, x % n;
    assert x == q * n + r;
    if r + 1 == n { SplitIndex(n, q + 1, 0); } else { SplitIndex(n, q, r + 1); }
  }

  lemma SameRemainder(a: nat, b: nat, n: nat)
    requires a <= b && n > 0
    ensures a % n == b % n <==> (b - a) % n == 0
  {
    SameModDivides(n, a, b);
    ModZeroDivides(n, b - a);
  }

  lemma BezoutStep(b: int, q: int, r: int, u: int, v: int)
    ensures v * (b * q + r) + (u - v * q) * b == u * b + v * r
  {
    assert v * (b * q + r) == v * (b * q) + v * r;
    assert (u - v * q) * b == u * b - (v * q) * b;
    assert v * (b * q) == (v * q) * b;
  }

  /** The greatest common divisor divides both arguments and is an integer combination of them. */
  lemma {:induction false} GcdBezout(a: nat, b: nat) returns (x: int, y: int)
    requires a > 0 || b > 0
    ensures Gcd(a, b) > 0 && Divides(Gcd(a, b), a) && Divides(Gcd(a, b), b)
    ensures x * a + y * b == Gcd(a, b)
    decreases b
  {
    if b == 0 {
      x, y := 1, 0;
      assert a == a * 1 && 0 == a * 0;
    } else {
      var u, v := GcdBezout(b, a % b);
      x, y := v, u - v * (a / b);
      var q, r := a / b, a % b;
      assert a == b * q + r;
      BezoutStep(b, q, r, u, v);
      DividesSum(Gcd(a, b), b, r, q, 1);
      assert q * b + 1 * r == a;
    }
  }

  /** Both sides of x * a + y * n == 1 times `d`. */
  lemma BezoutTimes(a: int, n: int, d: int, x: int, y: int)
    requires x * a + y * n == 1
    ensures d * (x * a) + d * (y * n) == d
  {
    Distrib(d, x * a, y * n);
  }

  /** A positive number below `n` is no multiple of `n` once multiplied by something coprime to `n`. */
  lemma CoprimeNoMultiple(a: nat, n: nat, d: nat)
    requires 0 < d < n && Gcd(a, n) == 1
    ensures !Divides(n, d * a)
  {
    if Divides(n, d * a) {
      var x, y := GcdBezout(a, n);
      BezoutTimes(a, n, d, x, y);
      var q: int :| d * a == n * q;
      assert d == n * (x * q + d * y) by {
        Assoc(d, x, a);
        Commute(d, x);
        Assoc(x, d, a);
        Assoc(x, n, q);
        Commute(x, n);
        Assoc(n, x, q);
        Assoc(d, y, n);
        Commute(d * y, n);
        Distrib(n, x * q, d * y);
      }
      SmallMultiple(n, x * q + d * y);
    }
  }

  /** A coprime offset reaches the residue of every number. */
  lemma CoprimeReaches(a: nat, n: nat, b: nat) returns (c: nat)
    requires n > 0 && Gcd(a, n) == 1
    ensures c < n && Divides(n, c * a - b)
  {
    var x, y := GcdBezout(a, n);
    c := (b * x) % n;
    var q := (b * x) / n;
    BezoutTimes(a, n, b, x, y);
    ReachedDifference(a, n, b, x, y, q, c);
  }

  lemma ReachedDifference(a: int, n: int, b: int, x: int, y: int, q: int, c: int)
    requires b * x == n * q + c && b * (x * a) + b * (y * n) == b
    ensures c * a - b == n * (-(q * a) + -(b * y))
  {
    calc {
      c * a + n * (q * a);
      { Assoc(n, q, a); Commute(a, n * q + c); Distrib(a, n * q, c); Commute(a, n * q); Commute(a, c); }
      (b * x) * a;
      { Assoc(b, x, a); }
      b * (x * a);
    }
    Assoc(b, y, n);
    Commute(b * y, n);
    Distrib(n, -(q * a), -(b * y));
  }
}
