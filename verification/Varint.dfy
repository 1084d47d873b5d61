/** LEB128 integers and the parsers under both wire formats, as functions on byte strings. */
module Varint {
  import opened Types
  import opened Encoding
  import Bits

  datatype DecodeError =
    | UnsupportedVersion(version: byte)
    | UnexpectedEnd
    | TrailingBytes
    | MalformedVarint
    | ImplausibleLength
    | UnknownTransactionKind(kind: byte)
    | UnknownScheme(identifier: seq<byte>)
    | UnknownSlotKind(slot: byte)
    | UnknownPresenceTag(tag: byte)
    | UnknownAddressRef(reference: u64)
    | ProofTooDeep(depth: nat)
    | SidecarLengthMismatch(expected: nat, found: nat)

  /** What a parser makes of a byte string: a value and what is left, or why not. */
  type Parsed<T> = Result<(T, seq<byte>), DecodeError>

  function TakeBytes(s: seq<byte>, n: nat): Parsed<seq<byte>> {
    if |s| < n then Err(UnexpectedEnd) else Ok((s[..n], s[n..]))
  }

  function TakeByte(s: seq<byte>): Parsed<byte> {
    if |s| < 1 then Err(UnexpectedEnd) else Ok((s[0], s[1..]))
  }

  function PutVarint(value: nat): (s: seq<byte>)
    ensures |s| >= 1
  {
    if value < 128 then [value] else [value % 128 + 128] + PutVarint(value / 128)
  }

  /** Read base-128 digits, least significant first, with value already read below the shift. */
  function TakeVarintFrom(s: seq<byte>, value: nat, shift: nat): Parsed<nat>
    decreases |s|
  {
    if |s| < 1 then Err(UnexpectedEnd)
    else
      var payload := s[0] % 128;
      if shift >= 64 || payload > MAX_U64 / Bits.Pow2(shift) then Err(MalformedVarint)
      else
        var next := value + payload * Bits.Pow2(shift);
        if s[0] < 128 then Ok((next, s[1..])) else TakeVarintFrom(s[1..], next, shift + 7)
  }

  function TakeVarint(s: seq<byte>): Parsed<nat> {
    TakeVarintFrom(s, 0, 0)
  }

  /**
   * TakeVarint, refusing a value that would need more than what is left at stride bytes apiece. On
   * inputs that fit in memory this also answers for a value too large for a machine word.
   */
  function TakeCount(s: seq<byte>, stride: nat): Parsed<nat> {
    var (count, rest) :- TakeVarint(s);
    if count * stride > |rest| then Err(ImplausibleLength) else Ok((count, rest))
  }

  function TakeVersion(s: seq<byte>, expected: byte): Parsed<()> {
    var (version, rest) :- TakeByte(s);
    if version == expected then Ok(((), rest)) else Err(UnsupportedVersion(version))
  }

  // ----- what a varint is -----

  /** The number a string of base-128 digits spells, least significant first. */
  function Spells(s: seq<byte>): nat {
    if s == [] then 0 else s[0] % 128 + 128 * Spells(s[1..])
  }

  /** Every byte but the last continues, and the last does not. */
  predicate Terminated(s: seq<byte>) {
    && s != []
    && s[|s| - 1] < 128
    && forall i :: 0 <= i < |s| - 1 ==> s[i] >= 128
  }

  lemma Pow2Shift(shift: nat)
    ensures Bits.Pow2(shift + 7) == 128 * Bits.Pow2(shift)
  {
    assert Bits.Pow2(7) == 128 by {
      assert Bits.Pow2(4) == 16;
      Bits.Pow2Sum(4, 3);
    }
    Bits.Pow2Sum(shift, 7);
  }

  lemma {:induction false} Pow2Monotonic(a: nat, b: nat)
    requires a <= b
    ensures Bits.Pow2(a) <= Bits.Pow2(b)
  {
    if a < b {
      Pow2Monotonic(a, b - 1);
    }
  }

  /** The overflow test lets a digit in exactly when it keeps a value below the shift within a u64. */
  lemma DigitFits(value: nat, payload: nat, shift: nat)
    requires value < Bits.Pow2(shift) && shift <= 64
    ensures payload <= MAX_U64 / Bits.Pow2(shift) <==> value + payload * Bits.Pow2(shift) <= MAX_U64
  {
    hide Bits.Pow2;
    Pow2Of64();
    Bits.Pow2Sum(shift, 64 - shift);
    QuotientFits(MAX_U64, Bits.Pow2(shift), Bits.Pow2(64 - shift), value, payload);
  }

  lemma QuotientFits(max: nat, p: nat, q: nat, value: nat, payload: nat)
    requires p > 0 && p * q == max + 1 && value < p
    ensures payload <= max / p <==> value + payload * p <= max
  {
    assert p * (q - 1) == p * q - p;
    DivideExactly(max, p, q - 1, p - 1);
    if payload <= q - 1 {
      Scaled(payload, q - 1, p);
    } else {
      Scaled(q, payload, p);
    }
  }

  lemma Scaled(a: nat, b: nat, p: nat)
    requires a <= b
    ensures p * a <= p * b && p * a == a * p
  {
  }

  lemma DivideExactly(n: nat, d: nat, q: nat, r: nat)
    requires n == d * q + r && r < d
    ensures n / d == q
  {
    var x, y := n / d, n % d;
    assert n == d * x + y;
    assert d * (x - q) == r - y;
    SmallMultiple(d, x - q);
  }

  lemma SmallMultiple(d: nat, k: int)
    requires 0 < d * k + d && d * k < d
    ensures k == 0
  {
  }

  /** What a reader part-way through a varint will accept, and only that. */
  predicate Acceptable(body: seq<byte>, value: nat, shift: nat) {
    && Terminated(body)
    && shift + 7 * (|body| - 1) < 64
    && value + Spells(body) * Bits.Pow2(shift) <= MAX_U64
  }

  lemma SpellsStep(body: seq<byte>, value: nat, shift: nat)
    requires body != []
    ensures value + Spells(body) * Bits.Pow2(shift)
         == (value + body[0] % 128 * Bits.Pow2(shift)) + Spells(body[1..]) * Bits.Pow2(shift + 7)
  {
    Pow2Shift(shift);
    var p, t := Bits.Pow2(shift), Spells(body[1..]);
    assert (body[0] % 128 + 128 * t) * p == body[0] % 128 * p + t * (128 * p);
  }

  lemma NextFits(value: nat, payload: nat, shift: nat)
    requires value < Bits.Pow2(shift) && payload < 128
    ensures value + payload * Bits.Pow2(shift) < Bits.Pow2(shift + 7)
  {
    Pow2Shift(shift);
    var p := Bits.Pow2(shift);
    assert payload * p <= 127 * p;
  }

  /** Reading one digit of an acceptable string leaves an acceptable string spelling the same number. */
  lemma AcceptableStep(body: seq<byte>, value: nat, shift: nat)
    requires value < Bits.Pow2(shift) && Acceptable(body, value, shift)
    ensures var payload := body[0] % 128;
            var next := value + payload * Bits.Pow2(shift);
            && shift < 64 && payload <= MAX_U64 / Bits.Pow2(shift)
            && next < Bits.Pow2(shift + 7)
            && value + Spells(body) * Bits.Pow2(shift) == next + Spells(body[1..]) * Bits.Pow2(shift + 7)
            && (if |body| == 1 then body[0] < 128 else body[0] >= 128 && Acceptable(body[1..], next, shift + 7))
  {
    hide Bits.Pow2, Spells;
    SpellsStep(body, value, shift);
    DigitFits(value, body[0] % 128, shift);
    NextFits(value, body[0] % 128, shift);
  }

  lemma {:induction false} AcceptableIsRead(body: seq<byte>, rest: seq<byte>, value: nat, shift: nat)
    requires value < Bits.Pow2(shift) && Acceptable(body, value, shift)
    ensures TakeVarintFrom(body + rest, value, shift) == Ok((value + Spells(body) * Bits.Pow2(shift), rest))
    decreases |body|
  {
    hide Bits.Pow2, Acceptable, Spells;
    AcceptableStep(body, value, shift);
    assert body != [] by { AcceptableIsSome(body, value, shift); }
    assert (body + rest)[1..] == body[1..] + rest;
    if |body| == 1 {
      assert body[1..] == [];
      SpellsNothing();
      assert Spells(body[1..]) * Bits.Pow2(shift + 7) == 0;
    } else {
      AcceptableIsRead(body[1..], rest, value + body[0] % 128 * Bits.Pow2(shift), shift + 7);
    }
  }

  lemma AcceptableIsSome(body: seq<byte>, value: nat, shift: nat)
    requires Acceptable(body, value, shift)
    ensures body != []
  {
  }

  lemma {:induction false} ReadIsAcceptable(s: seq<byte>, value: nat, shift: nat) returns (body: seq<byte>)
    requires value < Bits.Pow2(shift) && TakeVarintFrom(s, value, shift).Ok?
    ensures Acceptable(body, value, shift)
    ensures s == body + TakeVarintFrom(s, value, shift).value.1
    decreases |s|
  {
    hide Bits.Pow2;
    var payload := s[0] % 128;
    var next := value + payload * Bits.Pow2(shift);
    DigitFits(value, payload, shift);
    NextFits(value, payload, shift);
    if s[0] < 128 {
      body := [s[0]];
      assert body[1..] == [];
      SpellsStep(body, value, shift);
    } else {
      var tail := ReadIsAcceptable(s[1..], next, shift + 7);
      body := [s[0]] + tail;
      assert body[1..] == tail;
      SpellsStep(body, value, shift);
    }
  }

  /**
   * A varint is read exactly when the input begins with a terminated string of at most ten digits
   * that spells a u64, minimal or not; the value is what it spells and the rest is left alone.
   */
  lemma VarintIsExact(s: seq<byte>, value: nat, rest: seq<byte>)
    ensures TakeVarint(s) == Ok((value, rest)) <==>
            exists body ::
              s == body + rest && Terminated(body) && |body| <= 10 && Spells(body) == value && value <= MAX_U64
  {
    hide Spells, Terminated, TakeVarintFrom, Bits.Pow2, Acceptable;
    if TakeVarint(s) == Ok((value, rest)) {
      var body := ReadBody(s);
    }
    if exists body ::
        s == body + rest && Terminated(body) && |body| <= 10 && Spells(body) == value && value <= MAX_U64
    {
      var body :|
        s == body + rest && Terminated(body) && |body| <= 10 && Spells(body) == value && value <= MAX_U64;
      BodyIsRead(body, rest);
    }
  }

  lemma ReadBody(s: seq<byte>) returns (body: seq<byte>)
    requires TakeVarint(s).Ok?
    ensures s == body + TakeVarint(s).value.1 && Terminated(body) && |body| <= 10
    ensures Spells(body) == TakeVarint(s).value.0 <= MAX_U64
  {
    hide Spells, Terminated, TakeVarintFrom, Bits.Pow2;
    Pow2Of0();
    body := ReadIsAcceptable(s, 0, 0);
    AcceptableIsRead(body, TakeVarint(s).value.1, 0, 0);
  }

  lemma BodyIsRead(body: seq<byte>, rest: seq<byte>)
    requires Terminated(body) && |body| <= 10 && Spells(body) <= MAX_U64
    ensures TakeVarint(body + rest) == Ok((Spells(body), rest))
  {
    hide Spells, Terminated, TakeVarintFrom, Bits.Pow2;
    Pow2Of0();
    AcceptableIsRead(body, rest, 0, 0);
  }

  lemma Pow2Of0()
    ensures Bits.Pow2(0) == 1
  {
  }

  lemma AtLeastTwo(value: nat, width: nat)
    requires 128 <= value < Bits.Pow2(7 * width)
    ensures width > 1
  {
    assert Bits.Pow2(0) == 1;
    Pow2Shift(0);
  }

  lemma ShortenBy7(value: nat, width: nat)
    requires width > 1 && value < Bits.Pow2(7 * width)
    ensures value / 128 < Bits.Pow2(7 * (width - 1))
  {
    hide Bits.Pow2;
    Pow2Shift(7 * (width - 1));
  }

  lemma Prepend(digit: byte, tail: seq<byte>)
    ensures Spells([digit] + tail) == digit % 128 + 128 * Spells(tail)
    ensures digit >= 128 && Terminated(tail) ==> Terminated([digit] + tail)
    ensures digit < 128 && tail == [] ==> Terminated([digit] + tail)
  {
    var s := [digit] + tail;
    assert s[1..] == tail;
    assert forall i :: 1 <= i < |s| ==> s[i] == tail[i - 1];
  }

  /** What is written spells the value, terminated, in one byte for each seven bits begun. */
  lemma {:induction false} PutVarintSpells(value: nat, width: nat)
    requires value < Bits.Pow2(7 * width) && width > 0
    ensures Terminated(PutVarint(value)) && Spells(PutVarint(value)) == value && |PutVarint(value)| <= width
  {
    hide Bits.Pow2, Spells, Terminated;
    if value < 128 {
      Prepend(value, []);
      assert [value] == [value] + [];
      assert Spells([]) == 0 by { SpellsNothing(); }
    } else {
      AtLeastTwo(value, width);
      ShortenBy7(value, width);
      PutVarintSpells(value / 128, width - 1);
      Prepend(value % 128 + 128, PutVarint(value / 128));
    }
  }

  lemma SpellsNothing()
    ensures Spells([]) == 0
  {
  }

  /** Reading inverts writing on every u64, with anything after it. */
  lemma VarintRoundTrip(value: u64, rest: seq<byte>)
    ensures TakeVarint(PutVarint(value) + rest) == Ok((value, rest))
    ensures 1 <= |PutVarint(value)| <= 10
  {
    Pow2Of64();
    Pow2Monotonic(64, 70);
    PutVarintSpells(value, 10);
    VarintIsExact(PutVarint(value) + rest, value, rest);
  }

  /** Whatever is read is a u64 and leaves less behind than it found. */
  lemma VarintBounds(s: seq<byte>)
    ensures TakeVarint(s).Ok? ==> TakeVarint(s).value.0 <= MAX_U64 && |TakeVarint(s).value.1| < |s|
  {
    if TakeVarint(s).Ok? {
      VarintIsExact(s, TakeVarint(s).value.0, TakeVarint(s).value.1);
    }
  }
}
