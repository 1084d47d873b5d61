/** When decoding a batch and encoding it again gives the same bytes back: exactly when none were wasted. */
module BatchCanon {
  import opened Types
  import opened Varint
  import opened Transactions
  import opened BatchCodec

  /** Every number is spelled in as few digits as it needs: one, or ending in a digit that counts. */
  predicate Shortest(body: seq<byte>) {
    body != [] && (|body| == 1 || body[|body| - 1] != 0)
  }

  /** The number s begins with is as short as it can be. */
  predicate ShortNumber(s: seq<byte>) {
    TakeU64(s).Ok? && |TakeU64(s).value.1| <= |s| && Shortest(s[..|s| - |TakeU64(s).value.1|])
  }

  /** The address s begins with is a short reference, or a literal that has not been met before. */
  predicate FreshAddress(s: seq<byte>, seen: seq<Address>) {
    && ShortNumber(s)
    && TakeAddress(s, seen).Ok?
    && (TakeU64(s).value.0 == 0 ==> TakeAddress(s, seen).value.0.0 !in seen)
  }

  /** Nothing in the transaction s begins with is longer than it needs to be. */
  predicate ShortTxn(s: seq<byte>, seen: seq<Address>)
    requires TakeTxn(s, seen).Ok?
  {
    var rest := s[1..];
    FreshAddress(rest, seen)
    && var ((_, seen1), rest1) := TakeAddress(rest, seen).value;
      if s[0] == KIND_PAYMENT then
        ShortNumber(rest1)
        && var rest2 := TakeU64(rest1).value.1;
          FreshAddress(rest2, seen1) && ShortNumber(TakeAddress(rest2, seen1).value.1)
      else if s[0] == KIND_DEPOSIT then ShortNumber(rest1)
      else if s[0] == KIND_WITHDRAWAL then
        ShortNumber(rest1)
        && var rest2 := TakeU64(rest1).value.1;
          |rest2| >= 32 && ShortNumber(rest2[32..])
      else true
  }

  predicate ShortTxns(s: seq<byte>, seen: seq<Address>, count: nat)
    requires TakeTxns(s, seen, count).Ok?
    decreases count
  {
    count == 0
    || (ShortTxn(s, seen)
        && var ((_, seen1), rest) := TakeTxn(s, seen).value; ShortTxns(rest, seen1, count - 1))
  }

  /** A batch that decodes and wastes no byte: its count, and every number and address after it. */
  predicate Minimal(bytes: seq<byte>)
    requires DecodeBatch(bytes).Ok?
  {
    ShortNumber(bytes[1..])
    && var (count, rest) := TakeVarint(bytes[1..]).value; ShortTxns(rest, [], count)
  }

  // ----- numbers -----

  /** The encoder's digits are the one shortest spelling. */
  lemma {:induction false} ShortestIsWritten(body: seq<byte>)
    requires Terminated(body)
    ensures PutVarint(Spells(body)) == body <==> Shortest(body)
  {
    var tail, value := body[1..], Spells(body);
    if |body| == 1 {
      assert tail == [];
    } else {
      assert body == [body[0]] + tail;
      assert tail[|tail| - 1] == body[|body| - 1];
      assert forall i :: 0 <= i < |tail| - 1 ==> tail[i] == body[i + 1];
      ShortestIsWritten(tail);
      SpellsZero(tail);
      assert value % 128 + 128 == body[0] && value / 128 == Spells(tail);
    }
  }

  /** Only zeros spell zero, so a number with a digit that counts at the end needs all its digits. */
  lemma {:induction false} SpellsZero(body: seq<byte>)
    requires Terminated(body)
    ensures body[|body| - 1] != 0 ==> Spells(body) > 0
  {
    if |body| > 1 {
      var tail := body[1..];
      assert forall i :: 0 <= i < |tail| - 1 ==> tail[i] == body[i + 1];
      SpellsZero(tail);
    } else {
      assert body[1..] == [];
    }
  }

  lemma NumberCanon(s: seq<byte>)
    requires TakeU64(s).Ok?
    ensures PutVarint(TakeU64(s).value.0) + TakeU64(s).value.1 == s <==> ShortNumber(s)
    ensures |TakeU64(s).value.1| < |s|
  {
    hide PutVarint, Spells, Terminated, TakeVarint, Shortest;
    var (value, rest) := TakeU64(s).value;
    var body := ReadBody(s);
    ShortestIsWritten(body);
    VarintBounds(s);
    assert s[..|s| - |rest|] == body;
    if PutVarint(value) + rest == s {
      assert |PutVarint(value)| == |body|;
      assert (PutVarint(value) + rest)[..|body|] == PutVarint(value);
    }
  }

  // ----- addresses -----

  lemma SyncedMembers(dict: Positions, seen: seq<Address>, a: Address)
    requires Synced(dict, seen)
    ensures a in dict <==> a in seen
    ensures a in dict ==> dict[a] >= 1
  {
    if a in dict {
      PositionOf(dict, seen, a);
    }
  }

  lemma SyncedReference(dict: Positions, seen: seq<Address>, i: nat)
    requires Synced(dict, seen) && i < |seen|
    ensures seen[i] in dict && dict[seen[i]] == i + 1
  {
  }

  /** What the encoder would write for the address just read is what was read, if nothing was wasted. */
  lemma AddressCanon(dict: Positions, seen: seq<Address>, s: seq<byte>)
    requires Synced(dict, seen) && |dict| <= MAX_U64 && TakeAddress(s, seen).Ok?
    ensures var ((a, seen1), rest) := TakeAddress(s, seen).value;
            && (PutAddress(dict, a).0 + rest == s <==> FreshAddress(s, seen))
            && (FreshAddress(s, seen) ==> seen1 == Met(dict, seen, a))
  {
    hide PutVarint, TakeU64, Synced, ShortNumber;
    var ((a, seen1), rest) := TakeAddress(s, seen).value;
    var (reference, rest0) := TakeU64(s).value;
    NumberCanon(s);
    SyncedMembers(dict, seen, a);
    if reference == 0 {
      PutVarintZero();
      assert rest0 == a + rest;
      assert [0] + rest0 == ([0] + a) + rest;
      if a in dict && PutVarint(dict[a]) + rest == s {
        SyncedLength(dict, seen);
        PositionOf(dict, seen, a);
        U64RoundTrip(dict[a], rest);
      }
    } else {
      SyncedReference(dict, seen, reference - 1);
    }
  }

  lemma SyncedLength(dict: Positions, seen: seq<Address>)
    requires Synced(dict, seen)
    ensures |dict| == |seen|
  {
  }

  // ----- transactions -----

  /** One field in front of what is left: if the whole is kind, field and rest, so is its tail. */
  lemma AfterKind(kind: byte, fields: seq<byte>, rest: seq<byte>, s: seq<byte>)
    requires s != [] && s[0] == kind
    ensures ([kind] + fields) + rest == s <==> fields + rest == s[1..]
  {
    assert s == [s[0]] + s[1..];
    assert (([kind] + fields) + rest)[1..] == fields + rest;
    if fields + rest == s[1..] {
      assert ([kind] + fields) + rest == [kind] + (fields + rest);
    }
  }

  lemma AddressThen(dict: Positions, seen: seq<Address>, s: seq<byte>, more: seq<byte>)
    requires Synced(dict, seen) && |dict| <= MAX_U64 && TakeAddress(s, seen).Ok?
    ensures var ((a, seen1), rest) := TakeAddress(s, seen).value;
            && (PutAddress(dict, a).0 + more == s <==> FreshAddress(s, seen) && more == rest)
            && (FreshAddress(s, seen) ==> seen1 == Met(dict, seen, a) && Synced(PutAddress(dict, a).1, seen1))
            && |PutAddress(dict, a).1| <= |dict| + 1
  {
    hide TakeAddress, PutAddress, Synced, FreshAddress, Met;
    var ((a, _), rest) := TakeAddress(s, seen).value;
    AddressCanon(dict, seen, s);
    AddressRoundTrip(dict, seen, a, more);
  }

  lemma NumberThen(s: seq<byte>, more: seq<byte>)
    requires TakeU64(s).Ok?
    ensures var (value, rest) := TakeU64(s).value;
            PutVarint(value) + more == s <==> ShortNumber(s) && more == rest
  {
    hide TakeU64, PutVarint, ShortNumber;
    NumberCanon(s);
    U64RoundTrip(TakeU64(s).value.0, more);
  }

  lemma WordThen(s: seq<byte>, more: seq<byte>)
    requires TakeBytes32(s).Ok?
    ensures var (word, rest) := TakeBytes32(s).value;
            && |s| >= 32 && rest == s[32..]
            && (word + more == s <==> more == rest)
  {
    assert s == s[..32] + s[32..];
    assert (s[..32] + more)[32..] == more;
  }

  lemma PaymentCanon(dict: Positions, seen: seq<Address>, s: seq<byte>)
    requires Synced(dict, seen) && |dict| + 1 <= MAX_U64 && TakeTxn(s, seen).Ok? && s[0] == KIND_PAYMENT
    ensures var ((txn, seen1), rest) := TakeTxn(s, seen).value;
            && (PutTxn(dict, txn).0 + rest == s <==> ShortTxn(s, seen))
            && (ShortTxn(s, seen) ==> seen1 == SeenAfter(dict, seen, txn))
  {
    hide TakeAddress, TakeU64, PutAddress, PutVarint, Synced, FreshAddress, ShortNumber, Met;
    var ((txn, _), rest) := TakeTxn(s, seen).value;
    var ((sender, seen1), rest1) := TakeAddress(s[1..], seen).value;
    var (fee, rest2) := TakeU64(rest1).value;
    var ((receiver, seen2), rest3) := TakeAddress(rest2, seen1).value;
    var (from, dict1) := PutAddress(dict, sender);
    var fees, sum := PutVarint(fee), PutVarint(txn.amount);
    var to := PutAddress(dict1, receiver).0;
    AfterKind(KIND_PAYMENT, from + (fees + (to + sum)), rest, s);
    assert (from + (fees + (to + sum))) + rest == from + (fees + (to + (sum + rest)));
    AddressThen(dict, seen, s[1..], fees + (to + (sum + rest)));
    if FreshAddress(s[1..], seen) {
      NumberThen(rest1, to + (sum + rest));
      AddressThen(dict1, seen1, rest2, sum + rest);
      NumberThen(rest3, rest);
    }
  }

  lemma TxnCanon(dict: Positions, seen: seq<Address>, s: seq<byte>)
    requires Synced(dict, seen) && |dict| + 1 <= MAX_U64 && TakeTxn(s, seen).Ok?
    ensures var ((txn, seen1), rest) := TakeTxn(s, seen).value;
            && (PutTxn(dict, txn).0 + rest == s <==> ShortTxn(s, seen))
            && (ShortTxn(s, seen) ==> seen1 == SeenAfter(dict, seen, txn))
  {
    hide TakeAddress, TakeU64, TakeBytes32, PutAddress, PutVarint, Synced, FreshAddress, ShortNumber, Met;
    var ((txn, _), rest) := TakeTxn(s, seen).value;
    var ((a, seen1), rest1) := TakeAddress(s[1..], seen).value;
    var (who, dict1) := PutAddress(dict, a);
    match txn {
      case Payment(_, _, _) =>
        PaymentCanon(dict, seen, s);
      case Deposit(_, _, amount) =>
        var sum := PutVarint(amount);
        AfterKind(KIND_DEPOSIT, who + sum, rest, s);
        assert (who + sum) + rest == who + (sum + rest);
        AddressThen(dict, seen, s[1..], sum + rest);
        NumberThen(rest1, rest);
      case Withdrawal(header, recipient, amount) =>
        var fees, sum := PutVarint(header.fee), PutVarint(amount);
        var rest2 := TakeU64(rest1).value.1;
        AfterKind(KIND_WITHDRAWAL, who + (fees + (recipient + sum)), rest, s);
        assert (who + (fees + (recipient + sum))) + rest == who + (fees + (recipient + (sum + rest)));
        AddressThen(dict, seen, s[1..], fees + (recipient + (sum + rest)));
        NumberThen(rest1, recipient + (sum + rest));
        WordThen(rest2, sum + rest);
        NumberThen(rest2[32..], rest);
      case ForcedWithdrawal(_, recipient) =>
        AfterKind(KIND_FORCED_WITHDRAWAL, who + recipient, rest, s);
        assert (who + recipient) + rest == who + (recipient + rest);
        AddressThen(dict, seen, s[1..], recipient + rest);
        WordThen(rest1, rest);
    }
  }

  lemma {:induction false} TxnsCanon(dict: Positions, seen: seq<Address>, s: seq<byte>, count: nat)
    requires Synced(dict, seen) && |dict| + 2 * count <= MAX_U64 && TakeTxns(s, seen, count).Ok?
    ensures var (txns, rest) := TakeTxns(s, seen, count).value;
            PutTxns(dict, txns) + rest == s <==> ShortTxns(s, seen, count)
    decreases count
  {
    hide TakeTxn, PutTxn, Synced, ShortTxn, SeenAfter;
    if count == 0 {
      assert [] + s == s;
    } else {
      var ((txn, seen1), rest1) := TakeTxn(s, seen).value;
      var (txns, rest) := TakeTxns(s, seen, count).value;
      var (bytes, dict1) := PutTxn(dict, txn);
      var tail := PutTxns(dict1, txns[1..]);
      assert txns[0] == txn && txns[1..] == TakeTxns(rest1, seen1, count - 1).value.0;
      assert (bytes + tail) + rest == bytes + (tail + rest);
      DecodedHeader(s, seen);
      TxnRoundTrip(dict, seen, txn, tail + rest);
      TxnCanon(dict, seen, s);
      if ShortTxn(s, seen) {
        TxnsCanon(dict1, seen1, rest1, count - 1);
      }
    }
  }

  lemma DecodedHeader(s: seq<byte>, seen: seq<Address>)
    requires TakeTxn(s, seen).Ok?
    ensures ConstructorHeader(TakeTxn(s, seen).value.0.0)
  {
    hide TakeAddress, TakeU64, TakeBytes32;
  }

  /**
   * Encoding what was decoded gives the bytes back exactly when none were wasted: every number spelled
   * as shortly as it can be, and no address written out twice. The bound is on strings no machine
   * could hold.
   */
  lemma ReencodingIsExact(bytes: seq<byte>)
    requires DecodeBatch(bytes).Ok? && |bytes| <= MAX_U64
    ensures EncodeBatch(DecodeBatch(bytes).value) == bytes <==> Minimal(bytes)
  {
    hide TakeTxns, PutTxns, PutVarint, TakeU64, TakeVarint, ShortNumber, ShortTxns;
    var rest0 := bytes[1..];
    var (count, rest) := TakeVarint(rest0).value;
    var txns := DecodeBatch(bytes).value.txns;
    DecodedHeaders(rest, [], count);
    CountIsU64(rest0);
    var body := PutTxns(map[], txns);
    AfterKind(BATCH_VERSION, PutVarint(count) + body, [], bytes);
    assert ([BATCH_VERSION] + (PutVarint(count) + body)) + [] == EncodeBatch(Batch(txns));
    assert (PutVarint(count) + body) + [] == PutVarint(count) + body;
    NumberThen(rest0, body);
    TxnsCanon(map[], [], rest, count);
    assert body + [] == body;
  }

  lemma CountIsU64(s: seq<byte>)
    requires TakeVarint(s).Ok?
    ensures TakeU64(s).Ok? && TakeU64(s).value == TakeVarint(s).value
    ensures |TakeVarint(s).value.1| < |s|
  {
    VarintBounds(s);
  }

  // ----- an input for each way of wasting bytes -----

  /** A deposit of five to a, its address written out in full. */
  function LiteralDeposit(a: Address): seq<byte> {
    [KIND_DEPOSIT, 0] + (a + [5])
  }

  lemma NumberRead(digit: byte, rest: seq<byte>)
    requires digit < 128
    ensures TakeU64([digit] + rest) == Ok((digit, rest))
  {
    assert PutVarint(digit) == [digit];
    U64RoundTrip(digit, rest);
  }

  lemma LiteralDepositRead(a: Address, seen: seq<Address>, rest: seq<byte>)
    ensures TakeTxn(LiteralDeposit(a) + rest, seen) == Ok(((NewDeposit(a, 5), seen + [a]), rest))
    ensures ShortTxn(LiteralDeposit(a) + rest, seen) ==> a !in seen
  {
    hide TakeU64, TakeBytes32, ShortNumber;
    var s := LiteralDeposit(a) + rest;
    assert s[1..] == [0] + (a + ([5] + rest));
    NumberRead(0, a + ([5] + rest));
    Bytes32RoundTrip(a, [5] + rest);
    NumberRead(5, rest);
  }

  /** A batch that writes the same address out twice. */
  function RepeatedLiteral(a: Address): seq<byte> {
    [BATCH_VERSION, 2] + (LiteralDeposit(a) + LiteralDeposit(a))
  }

  /**
   * The decoder accepts both kinds of waste, a padded number and a repeated literal, so neither string
   * below is what encoding its batch writes.
   */
  lemma DecodingIsNotCanonical(a: Address)
    ensures DecodeBatch([BATCH_VERSION, 128, 0]) == Ok(Batch([]))
    ensures EncodeBatch(Batch([])) == [BATCH_VERSION, 0] != [BATCH_VERSION, 128, 0]
    ensures DecodeBatch(RepeatedLiteral(a)) == Ok(Batch([NewDeposit(a, 5), NewDeposit(a, 5)]))
    ensures EncodeBatch(Batch([NewDeposit(a, 5), NewDeposit(a, 5)])) != RepeatedLiteral(a)
  {
    PaddedCount();
    RepeatedLiteralDecodes(a);
    ReencodingIsExact(RepeatedLiteral(a));
  }

  lemma PaddedCount()
    ensures DecodeBatch([BATCH_VERSION, 128, 0]) == Ok(Batch([]))
    ensures EncodeBatch(Batch([])) == [BATCH_VERSION, 0]
  {
    hide TakeVarint, TakeTxns, PutVarint;
    var s: seq<byte> := [128, 0];
    assert [BATCH_VERSION, 128, 0][1..] == s;
    PaddedZero();
    PutVarintZero();
    assert TakeCount(s, MIN_ENCODED_TXN_SIZE) == Ok((0, []));
    NoTxns([], []);
  }

  lemma NoTxns(s: seq<byte>, seen: seq<Address>)
    ensures TakeTxns(s, seen, 0) == Ok(([], s))
    ensures PutTxns(map[], []) == []
  {
  }

  /** Zero in two digits where one would do. */
  lemma PaddedZero()
    ensures TakeVarint([128, 0]) == Ok((0, []))
  {
    hide TakeVarint;
    var s: seq<byte> := [128, 0];
    assert s[1..] == [0] && s[1..][1..] == [];
    assert Spells(s) == 0 && Terminated(s);
    BodyIsRead(s, []);
    assert s + [] == s;
  }

  lemma RepeatedLiteralDecodes(a: Address)
    ensures DecodeBatch(RepeatedLiteral(a)) == Ok(Batch([NewDeposit(a, 5), NewDeposit(a, 5)]))
    ensures !Minimal(RepeatedLiteral(a))
  {
    hide TakeTxn, ShortTxn, TakeU64, TakeVarint;
    var one := LiteralDeposit(a);
    var body := one + one;
    var s := RepeatedLiteral(a);
    assert s[1..] == [2] + body;
    NumberRead(2, body);
    CountRead(2, body);
    LiteralDepositRead(a, [], one);
    assert one + [] == one && [] + [a] == [a];
    LiteralDepositRead(a, [a], []);
    LastTxn(one, [a]);
    assert TakeCount(s[1..], MIN_ENCODED_TXN_SIZE) == Ok((2, body));
    assert TakeTxns(body, [], 2) == Ok(([NewDeposit(a, 5)] + [NewDeposit(a, 5)], []));
    assert [NewDeposit(a, 5)] + [NewDeposit(a, 5)] == [NewDeposit(a, 5), NewDeposit(a, 5)];
  }

  lemma LastTxn(s: seq<byte>, seen: seq<Address>)
    requires TakeTxn(s, seen).Ok?
    ensures TakeTxns(s, seen, 1) == Ok(([TakeTxn(s, seen).value.0.0], TakeTxn(s, seen).value.1))
  {
    hide TakeTxn;
    var ((txn, seen1), rest) := TakeTxn(s, seen).value;
    assert TakeTxns(rest, seen1, 0) == Ok(([], rest));
    assert [txn] + [] == [txn];
  }

  lemma CountRead(digit: byte, rest: seq<byte>)
    requires digit < 128
    ensures TakeVarint([digit] + rest) == Ok((digit, rest))
  {
    NumberRead(digit, rest);
  }
}
