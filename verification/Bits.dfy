/** Unsigned numbers bit by bit: shifts, masks and the bitwise or. */
module Bits {
  import opened Arithmetic

  function Pow2(n: nat): (p: nat)
    ensures p > 0
  {
    if n == 0 then 1 else 2 * Pow2(n - 1)
  }

  /** `x >> n`. */
  function ShiftRight(x: nat, n: nat): nat {
    if n == 0 then x else ShiftRight(x / 2, n - 1)
  }

  /** `x & ((1 << n) - 1)`, bit by bit. */
  function LowBits(x: nat, n: nat): nat
    decreases n
  {
    if n == 0 then 0 else x % 2 + 2 * LowBits(x / 2, n - 1)
  }

  lemma Double(o: nat, p: nat, bit: nat, low: nat)
    ensures bit + 2 * (o * p + low) == o * (2 * p) + (bit + 2 * low)
  {}

  lemma LowBit(x: nat)
    ensures x == x % 2 + 2 * (x / 2)
  {}

  /** Shifting gives the quotient by a power of two and masking the remainder. */
  lemma {:induction false} ShiftAndMask(x: nat, n: nat)
    ensures x == ShiftRight(x, n) * Pow2(n) + LowBits(x, n) && LowBits(x, n) < Pow2(n)
    decreases n
  {
    if n > 0 {
      ShiftAndMask(x / 2, n - 1);
      LowBit(x);
      Double(ShiftRight(x / 2, n - 1), Pow2(n - 1), x % 2, LowBits(x / 2, n - 1));
    }
  }

  /** `a | b`, bit by bit. */
  function Or(a: nat, b: nat): nat
    decreases a + b
  {
    if a == 0 then b else if b == 0 then a
    else (if a % 2 == 1 || b % 2 == 1 then 1 else 0) + 2 * Or(a / 2, b / 2)
  }

  lemma OrZero(a: nat)
    ensures Or(a, 0) == a && Or(0, a) == a
  {}

  lemma OrHalves(a: nat, b: nat)
    ensures Or(a, b) % 2 == (if a % 2 == 1 || b % 2 == 1 then 1 else 0) && Or(a, b) / 2 == Or(a / 2, b / 2)
  {
    OrZero(a / 2);
    OrZero(b / 2);
  }

  lemma OrBit(a: nat, b: nat)
    ensures Or(2 * a, b) == b % 2 + 2 * Or(a, b / 2)
  {
    if a == 0 { OrZero(b); OrZero(b / 2); }
    if b == 0 { OrZero(2 * a); OrZero(a); }
  }

  lemma DoubledProduct(v: nat, p: nat)
    ensures v * (2 * p) == 2 * (v * p)
  {}

  /** Shifting left by `n` leaves the low `n` bits to the other operand. */
  lemma {:induction false} OrShifted(v: nat, s: nat, n: nat)
    ensures Or(v * Pow2(n), s) == Or(v, ShiftRight(s, n)) * Pow2(n) + LowBits(s, n)
    decreases n
  {
    if n > 0 {
      var p := Pow2(n - 1);
      calc {
        Or(v * Pow2(n), s);
        { DoubledProduct(v, p); }
        Or(2 * (v * p), s);
        { OrBit(v * p, s); }
        s % 2 + 2 * Or(v * p, s / 2);
        { OrShifted(v, s / 2, n - 1); }
        s % 2 + 2 * (Or(v, ShiftRight(s, n)) * p + LowBits(s / 2, n - 1));
        { Double(Or(v, ShiftRight(s, n)), p, s % 2, LowBits(s / 2, n - 1)); }
        Or(v, ShiftRight(s, n)) * Pow2(n) + LowBits(s, n);
      }
    }
  }

  /** The high part and the low `n` bits of a number are determined by it. */
  lemma BitsOf(x: nat, n: nat, high: nat, low: nat)
    requires x == high * Pow2(n) + low && low < Pow2(n)
    ensures ShiftRight(x, n) == high && LowBits(x, n) == low
  {
    ShiftAndMask(x, n);
    SplitIndex(Pow2(n), high, low);
    SplitIndex(Pow2(n), ShiftRight(x, n), LowBits(x, n));
  }

  lemma SmallBits(x: nat, n: nat)
    ensures x < Pow2(n) ==> LowBits(x, n) == x && ShiftRight(x, n) == 0
    ensures LowBits(x, n) == x ==> x < Pow2(n)
  {
    ShiftAndMask(x, n);
    var q := ShiftRight(x, n);
    assert q >= 1 ==> q * Pow2(n) >= Pow2(n);
  }

  /** Every bit that is set among the low `n` bits of `a` is set in `b`. */
  predicate BitsWithin(a: nat, b: nat, n: nat)
    decreases n
  {
    n > 0 ==> (a % 2 == 1 ==> b % 2 == 1) && BitsWithin(a / 2, b / 2, n - 1)
  }

  /** The bitwise or leaves the low bits alone exactly if it has none to add. */
  lemma {:induction false} OrKeepsIff(a: nat, b: nat, n: nat)
    ensures LowBits(Or(a, b), n) == LowBits(a, n) <==> BitsWithin(b, a, n)
    decreases n
  {
    if n > 0 {
      OrHalves(a, b);
      OrKeepsIff(a / 2, b / 2, n - 1);
    }
  }
}
