/** Fixed-width big-endian integers. */
module Encoding {
  import opened Types
  import Bits

  function BigEndian(n: nat, width: nat): (s: seq<byte>)
    ensures |s| == width
  {
    if width == 0 then [] else BigEndian(n / 256, width - 1) + [n % 256]
  }

  function FromBigEndian(s: seq<byte>): nat {
    if s == [] then 0 else 256 * FromBigEndian(s[..|s| - 1]) + s[|s| - 1]
  }

  function U64Bytes(n: u64): (s: seq<byte>)
    ensures |s| == 8
  {
    BigEndian(n, 8)
  }

  lemma {:induction false} BigEndianRoundTrip(n: nat, width: nat)
    requires n < Bits.Pow2(8 * width)
    ensures FromBigEndian(BigEndian(n, width)) == n
  {
    if width > 0 {
      Bits.Pow2Sum(8, 8 * (width - 1));
      Pow2Of8();
      assert n / 256 < Bits.Pow2(8 * (width - 1));
      BigEndianRoundTrip(n / 256, width - 1);
      var s := BigEndian(n, width);
      assert s[..width - 1] == BigEndian(n / 256, width - 1);
    }
  }

  lemma Pow2Of8()
    ensures Bits.Pow2(8) == 256
  {
    assert Bits.Pow2(4) == 16;
    Bits.Pow2Sum(4, 4);
  }

  lemma Pow2Of64()
    ensures Bits.Pow2(64) == MAX_U64 + 1
  {
    hide Bits.Pow2;
    Pow2Of8();
    Bits.Pow2Sum(8, 8);
    Bits.Pow2Sum(16, 16);
    Bits.Pow2Sum(32, 32);
  }

  lemma U64RoundTrip(n: u64)
    ensures FromBigEndian(U64Bytes(n)) == n
  {
    Pow2Of64();
    BigEndianRoundTrip(n, 8);
  }

  /** Eight bytes never read as more than a u64 holds. */
  lemma {:induction false} FromBigEndianBound(s: seq<byte>)
    ensures FromBigEndian(s) < Bits.Pow2(8 * |s|)
  {
    if s != [] {
      var p := Bits.Pow2(8 * (|s| - 1));
      FromBigEndianBound(s[..|s| - 1]);
      assert Bits.Pow2(8 * |s|) == 256 * p by {
        Bits.Pow2Sum(8, 8 * (|s| - 1));
        Pow2Of8();
      }
    }
  }

  function ReadU64(s: seq<byte>): u64
    requires |s| == 8
  {
    FromBigEndianBound(s);
    Pow2Of64();
    FromBigEndian(s)
  }
}
