/** Shifts and masks on unsigned words, bit by bit, and what they are for powers of two. */
module Bits {
  import opened Bytes

  function Pow2(k: nat): (p: nat)
    ensures p > 0
  {
    if k == 0 then 1 else 2 * Pow2(k - 1)
  }

  /** `x >> k`. */
  function ShiftRight(x: nat, k: nat): nat {
    if k == 0 then x else ShiftRight(x / 2, k - 1)
  }

  /** `x << k` on uint64_t: each step drops the top bit. */
  function ShiftLeft(x: nat, k: nat): nat
    decreases k
  {
    if k == 0 then x % U64 else ShiftLeft(2 * x % U64, k - 1)
  }

  /** `x & y`. */
  function And(x: nat, y: nat): nat {
    if x == 0 || y == 0 then 0 else 2 * And(x / 2, y / 2) + (if x % 2 == 1 && y % 2 == 1 then 1 else 0)
  }

  /** spdk_u64log2: the number of the highest set bit. */
  function Log2(x: nat): nat {
    if x <= 1 then 0 else 1 + Log2(x / 2)
  }

  predicate PowerOfTwo(x: nat) {
    x > 0 && Pow2(Log2(x)) == x
  }

  lemma {:induction false} Log2OfPow2(k: nat)
    ensures Log2(Pow2(k)) == k && PowerOfTwo(Pow2(k))
  {
    if k > 0 { Log2OfPow2(k - 1); }
  }

  lemma {:induction false} ShiftRightDivides(x: nat, k: nat)
    ensures ShiftRight(x, k) == x / Pow2(k)
  {
    if k > 0 {
      ShiftRightDivides(x / 2, k - 1);
      HalfThenDivide(x, Pow2(k - 1));
    }
  }

  lemma HalfThenDivide(x: nat, p: nat)
    requires p > 0
    ensures x / 2 / p == x / (2 * p) && x % (2 * p) == 2 * (x / 2 % p) + x % 2
  {
    var q, r := x / 2 / p, x / 2 % p;
    assert x / 2 == q * p + r;
    assert x == q * (2 * p) + (2 * r + x % 2);
    MulDivMod(q, 2 * p, 2 * r + x % 2);
  }

  lemma {:induction false} ShiftLeftMultiplies(x: nat, k: nat)
    requires x * Pow2(k) < U64
    ensures ShiftLeft(x, k) == x * Pow2(k)
    decreases k
  {
    hide ShiftLeft;
    if k == 0 {
      ShiftLeftOnce(x, 0);
    } else {
      AtLeast(x, Pow2(k - 1));
      AtLeast(2 * x, Pow2(k - 1));
      ShiftLeftOnce(x, k);
      ShiftLeftMultiplies(2 * x, k - 1);
    }
  }

  lemma ShiftLeftOnce(x: nat, k: nat)
    ensures k == 0 && x < U64 ==> ShiftLeft(x, k) == x
    ensures k > 0 && 2 * x < U64 ==> ShiftLeft(x, k) == ShiftLeft(2 * x, k - 1)
  {}

  lemma AtLeast(x: nat, p: nat)
    requires p > 0
    ensures x <= x * p && x * (2 * p) == 2 * x * p
  {}

  lemma {:induction false} MaskIsRemainder(x: nat, k: nat)
    ensures And(x, Pow2(k) - 1) == x % Pow2(k)
  {
    hide And;
    if k == 0 {
      MaskOfNone(x);
    } else {
      var p := Pow2(k - 1);
      MaskStep(x, p);
      MaskIsRemainder(x / 2, k - 1);
      HalfThenDivide(x, p);
    }
  }

  lemma MaskOfNone(x: nat)
    ensures And(x, 0) == 0 == x % 1
  {}

  /** The lowest bit of a mask of ones. */
  lemma MaskStep(x: nat, p: nat)
    requires p > 0
    ensures And(x, 2 * p - 1) == 2 * And(x / 2, p - 1) + x % 2
  {
    assert (2 * p - 1) / 2 == p - 1 && (2 * p - 1) % 2 == 1;
  }
}
