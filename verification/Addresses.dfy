/** Addresses as bit paths through the tree. */
module Addresses {
  import opened Types
  import Bits

  /** Addresses have this many bits, so no two of them share a longer prefix and no tree is deeper. */
  const DEPTH: nat := 256

  /** Which way an address goes at a depth, most significant bit first. */
  function BitAt(a: Address, depth: nat): (b: nat)
    requires depth < DEPTH
    ensures b <= 1
  {
    Bits.Bit(a[depth / 8], 7 - depth % 8)
  }

  /** The byte-wise search for the first difference, from byte i on. */
  function PrefixFrom(a: Address, b: Address, i: nat): (p: nat)
    requires i <= 32
    ensures p <= DEPTH
    decreases 32 - i
  {
    if i == 32 then DEPTH
    else if a[i] != b[i] then
      ByteDivergence(a[i], b[i], 0);
      i * 8 + (8 - Bits.BitLength(Bits.BitXor(a[i], b[i])))
    else PrefixFrom(a, b, i + 1)
  }

  function CommonPrefixLen(a: Address, b: Address): (p: nat)
    ensures p <= DEPTH
  {
    PrefixFrom(a, b, 0)
  }

  /** a and b agree on their first d bits. */
  ghost predicate SharePrefix(a: Address, b: Address, d: nat)
    requires d <= DEPTH
  {
    forall i: nat :: i < d ==> BitAt(a, i) == BitAt(b, i)
  }

  /** Two bytes first differ, reading from the top, at the leading zeros of their exclusive or. */
  lemma ByteDivergence(x: byte, y: byte, k: nat)
    requires x != y && k < 8
    ensures 1 <= Bits.BitLength(Bits.BitXor(x, y)) <= 8
    ensures k < 8 - Bits.BitLength(Bits.BitXor(x, y)) ==> Bits.Bit(x, 7 - k) == Bits.Bit(y, 7 - k)
    ensures k == 8 - Bits.BitLength(Bits.BitXor(x, y)) ==> Bits.Bit(x, 7 - k) != Bits.Bit(y, 7 - k)
  {
    var z := Bits.BitXor(x, y);
    assert Bits.Pow2(8) == 256 by { assert Bits.Pow2(4) == 16; Bits.Pow2Sum(4, 4); }
    Bits.XorBelow(x, y, 8);
    Bits.LengthBelow(z, 8);
    if z == 0 {
      forall j: nat | j < 8
        ensures Bits.Bit(x, j) == Bits.Bit(y, j)
      {
        Bits.XorBit(x, y, j);
        Bits.ZeroBits(j);
      }
      Bits.BitsDetermine(x, y, 8);
      assert false;
    }
    Bits.TopBit(z, 7 - k);
    Bits.XorBit(x, y, 7 - k);
  }

  lemma {:induction false} PrefixFromDiverges(a: Address, b: Address, i: nat)
    requires i <= 32
    requires SharePrefix(a, b, 8 * i)
    requires a[..i] == b[..i]
    ensures SharePrefix(a, b, PrefixFrom(a, b, i))
    ensures PrefixFrom(a, b, i) < DEPTH ==>
              BitAt(a, PrefixFrom(a, b, i)) != BitAt(b, PrefixFrom(a, b, i))
    ensures PrefixFrom(a, b, i) == DEPTH <==> a == b
    decreases 32 - i
  {
    if i == 32 {
      assert a == a[..32] && b == b[..32];
    } else if a[i] == b[i] {
      assert a[..i + 1] == a[..i] + [a[i]] && b[..i + 1] == b[..i] + [b[i]];
      assert SharePrefix(a, b, 8 * (i + 1));
      PrefixFromDiverges(a, b, i + 1);
    } else {
      var p := PrefixFrom(a, b, i);
      var k := p - i * 8;
      ByteDivergence(a[i], b[i], 0);
      ByteDivergence(a[i], b[i], k);
      forall j: nat | j < p
        ensures BitAt(a, j) == BitAt(b, j)
      {
        if j >= 8 * i {
          ByteDivergence(a[i], b[i], j - 8 * i);
          assert j / 8 == i && j % 8 == j - 8 * i;
        }
      }
      assert p / 8 == i && p % 8 == k;
    }
  }

  /**
   * The byte-level search finds the least depth at which the paths of two addresses part, and
   * reports the full depth exactly when they never do.
   */
  lemma CommonPrefixIsFirstDivergence(a: Address, b: Address)
    ensures SharePrefix(a, b, CommonPrefixLen(a, b))
    ensures CommonPrefixLen(a, b) == DEPTH <==> a == b
    ensures CommonPrefixLen(a, b) < DEPTH ==>
              BitAt(a, CommonPrefixLen(a, b)) != BitAt(b, CommonPrefixLen(a, b))
    ensures forall d: nat :: d <= DEPTH ==> (SharePrefix(a, b, d) <==> d <= CommonPrefixLen(a, b))
  {
    assert a[..0] == b[..0];
    PrefixFromDiverges(a, b, 0);
    var p := CommonPrefixLen(a, b);
    forall d: nat | d <= DEPTH && d > p
      ensures !SharePrefix(a, b, d)
    {
      assert BitAt(a, p) != BitAt(b, p);
    }
  }

  lemma CommonPrefixSymmetric(a: Address, b: Address)
    ensures CommonPrefixLen(a, b) == CommonPrefixLen(b, a)
  {
    CommonPrefixIsFirstDivergence(a, b);
    CommonPrefixIsFirstDivergence(b, a);
    var p, q := CommonPrefixLen(a, b), CommonPrefixLen(b, a);
    assert SharePrefix(b, a, p) && SharePrefix(a, b, q);
  }

  /** Bytes are compared until the first pair that differs. */
  method CommonPrefixLength(a: Address, b: Address) returns (length: nat)
    ensures length == CommonPrefixLen(a, b)
    ensures length <= DEPTH && SharePrefix(a, b, length)
    ensures length == DEPTH <==> a == b
    ensures length < DEPTH ==> BitAt(a, length) != BitAt(b, length)
  {
    CommonPrefixIsFirstDivergence(a, b);
    for index := 0 to 32
      invariant CommonPrefixLen(a, b) == PrefixFrom(a, b, index)
    {
      if a[index] != b[index] {
        return index * 8 + (8 - Bits.BitLength(Bits.BitXor(a[index], b[index])));
      }
    }
    return DEPTH;
  }
}
