/** Bits of natural numbers, so that shifts and bitwise operators can be read as arithmetic. */
module Bits {
  function Pow2(n: nat): (p: nat)
    ensures p > 0
  {
    if n == 0 then 1 else 2 * Pow2(n - 1)
  }

  /** Bit k of n, counting from the least significant. */
  function Bit(n: nat, k: nat): (b: nat)
    ensures b <= 1
  {
    if k == 0 then n % 2 else Bit(n / 2, k - 1)
  }

  function BitOr(a: nat, b: nat): nat
    decreases a + b
  {
    if a == 0 && b == 0 then 0
    else (if a % 2 == 1 || b % 2 == 1 then 1 else 0) + 2 * BitOr(a / 2, b / 2)
  }

  function BitXor(a: nat, b: nat): nat
    decreases a + b
  {
    if a == 0 && b == 0 then 0
    else (if a % 2 != b % 2 then 1 else 0) + 2 * BitXor(a / 2, b / 2)
  }

  /** How many bits n needs, so that an n below 2^w has w - BitLength(n) leading zeros in w bits. */
  function BitLength(n: nat): nat {
    if n == 0 then 0 else 1 + BitLength(n / 2)
  }

  lemma {:induction false} Pow2Sum(a: nat, b: nat)
    ensures Pow2(a + b) == Pow2(a) * Pow2(b)
  {
    if a > 0 {
      Pow2Sum(a - 1, b);
      assert Pow2(a + b) == 2 * Pow2(a - 1 + b);
      assert (2 * Pow2(a - 1)) * Pow2(b) == 2 * (Pow2(a - 1) * Pow2(b));
    }
  }

  /** A bitwise or of parts that do not overlap is their sum. */
  lemma {:induction false} OrIsSum(low: nat, high: nat, shift: nat)
    requires low < Pow2(shift)
    ensures BitOr(low, high * Pow2(shift)) == low + high * Pow2(shift)
  {
    if shift == 0 {
      OrZero(high);
    } else {
      var p := Pow2(shift - 1);
      assert high * Pow2(shift) == 2 * (high * p);
      OrIsSum(low / 2, high, shift - 1);
    }
  }

  lemma {:induction false} OrZero(n: nat)
    ensures BitOr(0, n) == n
  {
    if n > 0 {
      OrZero(n / 2);
    }
  }

  lemma {:induction false} XorBit(a: nat, b: nat, k: nat)
    ensures Bit(BitXor(a, b), k) == if Bit(a, k) != Bit(b, k) then 1 else 0
    decreases k
  {
    if a == 0 && b == 0 {
      ZeroBits(k);
    } else if k > 0 {
      XorBit(a / 2, b / 2, k - 1);
    }
  }

  lemma {:induction false} ZeroBits(k: nat)
    ensures Bit(0, k) == 0
  {
    if k > 0 {
      ZeroBits(k - 1);
    }
  }

  lemma {:induction false} XorBelow(a: nat, b: nat, w: nat)
    requires a < Pow2(w) && b < Pow2(w)
    ensures BitXor(a, b) < Pow2(w)
  {
    if w > 0 && !(a == 0 && b == 0) {
      XorBelow(a / 2, b / 2, w - 1);
    }
  }

  /** The highest set bit sits just below the bit length, and nothing is set at or above it. */
  lemma {:induction false} TopBit(n: nat, k: nat)
    ensures n > 0 ==> BitLength(n) > 0 && Bit(n, BitLength(n) - 1) == 1
    ensures k >= BitLength(n) ==> Bit(n, k) == 0
    decreases n
  {
    if n == 0 {
      ZeroBits(k);
    } else if n > 1 {
      TopBit(n / 2, if k > 0 then k - 1 else 0);
    } else {
      ZeroBits(if k > 0 then k - 1 else 0);
    }
  }

  lemma {:induction false} LengthBelow(n: nat, w: nat)
    requires n < Pow2(w)
    ensures BitLength(n) <= w
  {
    if n > 0 {
      LengthBelow(n / 2, w - 1);
    }
  }

  /** Numbers of w bits with the same bits are the same number. */
  lemma {:induction false} BitsDetermine(a: nat, b: nat, w: nat)
    requires a < Pow2(w) && b < Pow2(w)
    requires forall k: nat :: k < w ==> Bit(a, k) == Bit(b, k)
    ensures a == b
  {
    if w > 0 {
      assert Bit(a, 0) == Bit(b, 0);
      forall k: nat | k < w - 1
        ensures Bit(a / 2, k) == Bit(b / 2, k)
      {
        assert Bit(a, k + 1) == Bit(b, k + 1);
      }
      BitsDetermine(a / 2, b / 2, w - 1);
    }
  }
}
