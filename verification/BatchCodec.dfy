/** The published half of a block as bytes: what the encoder writes and the decoder accepts. */
module BatchCodec {
  import opened Types
  import opened Varint
  import opened Transactions

  const BATCH_VERSION: byte := 1

  const KIND_PAYMENT: byte := 0
  const KIND_DEPOSIT: byte := 1
  const KIND_WITHDRAWAL: byte := 2
  const KIND_FORCED_WITHDRAWAL: byte := 3

  /** PutTxn writes at least this many bytes: a kind, and one byte for each of two numbers. */
  const MIN_ENCODED_TXN_SIZE: nat := 3

  /** The encoder's dictionary: one-based positions of the addresses already written out. */
  type Positions = map<Address, nat>

  function PutAddress(dict: Positions, a: Address): (seq<byte>, Positions) {
    if a in dict then (PutVarint(dict[a]), dict)
    else ([0] + a, dict[a := |dict| + 1])
  }

  function PutTxn(dict: Positions, txn: Transaction): (seq<byte>, Positions) {
    match txn
    case Payment(header, receiver, amount) =>
      var (sender, dict1) := PutAddress(dict, header.sender);
      var (to, dict2) := PutAddress(dict1, receiver);
      ([KIND_PAYMENT] + (sender + (PutVarint(header.fee) + (to + PutVarint(amount)))), dict2)
    case Deposit(_, receiver, amount) =>
      var (to, dict1) := PutAddress(dict, receiver);
      ([KIND_DEPOSIT] + (to + PutVarint(amount)), dict1)
    case Withdrawal(header, recipient, amount) =>
      var (sender, dict1) := PutAddress(dict, header.sender);
      ([KIND_WITHDRAWAL] + (sender + (PutVarint(header.fee) + (recipient + PutVarint(amount)))), dict1)
    case ForcedWithdrawal(header, recipient) =>
      var (owner, dict1) := PutAddress(dict, header.sender);
      ([KIND_FORCED_WITHDRAWAL] + (owner + recipient), dict1)
  }

  function PutTxns(dict: Positions, txns: seq<Transaction>): seq<byte>
    decreases |txns|
  {
    if txns == [] then []
    else
      var (bytes, dict1) := PutTxn(dict, txns[0]);
      bytes + PutTxns(dict1, txns[1..])
  }

  function EncodeBatch(b: Batch): seq<byte> {
    [BATCH_VERSION] + (PutVarint(|b.txns|) + PutTxns(map[], b.txns))
  }

  function TakeU64(s: seq<byte>): Parsed<u64> {
    VarintBounds(s);
    var (value, rest) :- TakeVarint(s);
    Ok((value, rest))
  }

  function TakeBytes32(s: seq<byte>): Parsed<Bytes32> {
    var (bytes, rest) :- TakeBytes(s, 32);
    Ok((bytes, rest))
  }

  /** Parse an address: a zero and 32 bytes, which seen then ends with, or one more than an index into seen. */
  function TakeAddress(s: seq<byte>, seen: seq<Address>): Parsed<(Address, seq<Address>)> {
    var (reference, rest) :- TakeU64(s);
    if reference == 0 then
      var (a, rest1) :- TakeBytes32(rest);
      Ok(((a, seen + [a]), rest1))
    else if reference - 1 < |seen| then Ok(((seen[reference - 1], seen), rest))
    else Err(UnknownAddressRef(reference))
  }

  function TakeTxn(s: seq<byte>, seen: seq<Address>): Parsed<(Transaction, seq<Address>)> {
    var (kind, rest) :- TakeByte(s);
    if kind == KIND_PAYMENT then
      var ((sender, seen1), rest1) :- TakeAddress(rest, seen);
      var (fee, rest2) :- TakeU64(rest1);
      var ((receiver, seen2), rest3) :- TakeAddress(rest2, seen1);
      var (amount, rest4) :- TakeU64(rest3);
      Ok(((Payment(TransactionHeader(sender, fee), receiver, amount), seen2), rest4))
    else if kind == KIND_DEPOSIT then
      var ((receiver, seen1), rest1) :- TakeAddress(rest, seen);
      var (amount, rest2) :- TakeU64(rest1);
      Ok(((NewDeposit(receiver, amount), seen1), rest2))
    else if kind == KIND_WITHDRAWAL then
      var ((sender, seen1), rest1) :- TakeAddress(rest, seen);
      var (fee, rest2) :- TakeU64(rest1);
      var (recipient, rest3) :- TakeBytes32(rest2);
      var (amount, rest4) :- TakeU64(rest3);
      Ok(((Withdrawal(TransactionHeader(sender, fee), recipient, amount), seen1), rest4))
    else if kind == KIND_FORCED_WITHDRAWAL then
      var ((address, seen1), rest1) :- TakeAddress(rest, seen);
      var (recipient, rest2) :- TakeBytes32(rest1);
      Ok(((NewForcedWithdrawal(address, recipient), seen1), rest2))
    else Err(UnknownTransactionKind(kind))
  }

  function TakeTxns(s: seq<byte>, seen: seq<Address>, count: nat): Parsed<seq<Transaction>>
    decreases count
  {
    if count == 0 then Ok(([], s))
    else
      var ((txn, seen1), rest) :- TakeTxn(s, seen);
      var (txns, rest1) :- TakeTxns(rest, seen1, count - 1);
      Ok(([txn] + txns, rest1))
  }

  function DecodeBatch(bytes: seq<byte>): Result<Batch, DecodeError> {
    var (_, rest) :- TakeVersion(bytes, BATCH_VERSION);
    var (count, rest1) :- TakeCount(rest, MIN_ENCODED_TXN_SIZE);
    var (txns, rest2) :- TakeTxns(rest1, [], count);
    if rest2 == [] then Ok(Batch(txns)) else Err(TrailingBytes)
  }

  // ----- the two dictionaries stay in step -----

  /** Encoder and decoder have met the same addresses in the same order. */
  ghost predicate Synced<T>(dict: map<T, nat>, seen: seq<T>) {
    && |dict| == |seen|
    && (forall i :: 0 <= i < |seen| ==> seen[i] in dict && dict[seen[i]] == i + 1)
    && (forall a :: a in dict ==> a in seen)
  }

  /** What the decoder's dictionary becomes when the encoder writes a. */
  function Met(dict: Positions, seen: seq<Address>, a: Address): seq<Address> {
    if a in dict then seen else seen + [a]
  }

  lemma U64RoundTrip(value: u64, rest: seq<byte>)
    ensures TakeU64(PutVarint(value) + rest) == Ok((value, rest))
  {
    VarintRoundTrip(value, rest);
  }

  lemma Bytes32RoundTrip(a: Bytes32, rest: seq<byte>)
    ensures TakeBytes32(a + rest) == Ok((a, rest))
  {
    assert (a + rest)[..32] == a && (a + rest)[32..] == rest;
  }

  lemma MeetKeepsSync(dict: Positions, seen: seq<Address>, a: Address)
    requires Synced(dict, seen)
    ensures Synced(PutAddress(dict, a).1, Met(dict, seen, a))
    ensures |PutAddress(dict, a).1| <= |dict| + 1
  {
    if a !in dict {
      ExtendSync(dict, seen, a, dict[a := |dict| + 1], seen + [a]);
    }
  }

  lemma ExtendSync<T>(dict: map<T, nat>, seen: seq<T>, a: T, dict1: map<T, nat>, seen1: seq<T>)
    requires Synced(dict, seen) && a !in dict
    requires dict1 == dict[a := |dict| + 1] && seen1 == seen + [a]
    ensures Synced(dict1, seen1) && |dict1| == |dict| + 1
  {
    assert dict1.Keys == dict.Keys + {a};
    forall i | 0 <= i < |seen1|
      ensures seen1[i] in dict1 && dict1[seen1[i]] == i + 1
    {
      if i < |seen| {
        assert seen[i] in dict;
      }
    }
  }

  lemma PositionOf(dict: Positions, seen: seq<Address>, a: Address)
    requires Synced(dict, seen) && a in dict
    ensures 1 <= dict[a] <= |dict| == |seen| && seen[dict[a] - 1] == a
  {
    var i :| 0 <= i < |seen| && seen[i] == a;
  }

  lemma AddressRoundTrip(dict: Positions, seen: seq<Address>, a: Address, rest: seq<byte>)
    requires Synced(dict, seen) && |dict| <= MAX_U64
    ensures TakeAddress(PutAddress(dict, a).0 + rest, seen) == Ok(((a, Met(dict, seen, a)), rest))
    ensures Synced(PutAddress(dict, a).1, Met(dict, seen, a))
    ensures |PutAddress(dict, a).1| <= |dict| + 1
    ensures |PutAddress(dict, a).0| >= 1
  {
    hide TakeU64, PutVarint, TakeBytes32, Synced;
    MeetKeepsSync(dict, seen, a);
    if a in dict {
      PositionOf(dict, seen, a);
      U64RoundTrip(dict[a], rest);
    } else {
      U64RoundTrip(0, a + rest);
      PutVarintZero();
      assert ([0] + a) + rest == [0] + (a + rest);
      Bytes32RoundTrip(a, rest);
    }
  }

  lemma PutVarintZero()
    ensures PutVarint(0) == [0]
  {
  }

  /** How the decoder's dictionary grows over one transaction. L1 recipients never enter it. */
  function SeenAfter(dict: Positions, seen: seq<Address>, txn: Transaction): seq<Address> {
    match txn
    case Payment(header, receiver, _) =>
      Met(PutAddress(dict, header.sender).1, Met(dict, seen, header.sender), receiver)
    case Deposit(_, receiver, _) => Met(dict, seen, receiver)
    case Withdrawal(header, _, _) => Met(dict, seen, header.sender)
    case ForcedWithdrawal(header, _) => Met(dict, seen, header.sender)
  }

  lemma TxnRoundTrip(dict: Positions, seen: seq<Address>, txn: Transaction, rest: seq<byte>)
    requires Synced(dict, seen) && |dict| + 1 <= MAX_U64 && ConstructorHeader(txn)
    ensures TakeTxn(PutTxn(dict, txn).0 + rest, seen) == Ok(((txn, SeenAfter(dict, seen, txn)), rest))
    ensures Synced(PutTxn(dict, txn).1, SeenAfter(dict, seen, txn))
    ensures |PutTxn(dict, txn).1| <= |dict| + 2
    ensures |PutTxn(dict, txn).0| >= MIN_ENCODED_TXN_SIZE
  {
    hide TakeU64, TakeBytes32, PutVarint, TakeAddress, PutAddress, Synced, Met;
    match txn {
      case Payment(header, receiver, amount) =>
        var (sender, dict1) := PutAddress(dict, header.sender);
        var seen1 := Met(dict, seen, header.sender);
        AddressRoundTrip(dict, seen, header.sender, []);
        var (to, dict2) := PutAddress(dict1, receiver);
        var fee, sum := PutVarint(header.fee), PutVarint(amount);
        AddressRoundTrip(dict, seen, header.sender, fee + (to + (sum + rest)));
        U64RoundTrip(header.fee, to + (sum + rest));
        AddressRoundTrip(dict1, seen1, receiver, sum + rest);
        U64RoundTrip(amount, rest);
        assert ([KIND_PAYMENT] + (sender + (fee + (to + sum))) + rest)[1..] == sender + (fee + (to + (sum + rest)));
      case Deposit(_, receiver, amount) =>
        var (to, dict1) := PutAddress(dict, receiver);
        var sum := PutVarint(amount);
        AddressRoundTrip(dict, seen, receiver, sum + rest);
        U64RoundTrip(amount, rest);
        assert ([KIND_DEPOSIT] + (to + sum) + rest)[1..] == to + (sum + rest);
      case Withdrawal(header, recipient, amount) =>
        var (sender, dict1) := PutAddress(dict, header.sender);
        var fee, sum := PutVarint(header.fee), PutVarint(amount);
        AddressRoundTrip(dict, seen, header.sender, fee + (recipient + (sum + rest)));
        U64RoundTrip(header.fee, recipient + (sum + rest));
        Bytes32RoundTrip(recipient, sum + rest);
        U64RoundTrip(amount, rest);
        assert ([KIND_WITHDRAWAL] + (sender + (fee + (recipient + sum))) + rest)[1..]
            == sender + (fee + (recipient + (sum + rest)));
      case ForcedWithdrawal(header, recipient) =>
        var (owner, dict1) := PutAddress(dict, header.sender);
        AddressRoundTrip(dict, seen, header.sender, recipient + rest);
        Bytes32RoundTrip(recipient, rest);
        assert ([KIND_FORCED_WITHDRAWAL] + (owner + recipient) + rest)[1..] == owner + (recipient + rest);
    }
  }

  lemma {:induction false} TxnsRoundTrip(dict: Positions, seen: seq<Address>, txns: seq<Transaction>, rest: seq<byte>)
    requires Synced(dict, seen) && |dict| + 2 * |txns| <= MAX_U64
    requires forall txn :: txn in txns ==> ConstructorHeader(txn)
    ensures TakeTxns(PutTxns(dict, txns) + rest, seen, |txns|) == Ok((txns, rest))
    ensures |PutTxns(dict, txns)| >= MIN_ENCODED_TXN_SIZE * |txns|
    decreases |txns|
  {
    hide PutTxn, TakeTxn, Synced, ConstructorHeader, SeenAfter;
    if txns == [] {
      assert [] + rest == rest;
    } else {
      var (bytes, dict1) := PutTxn(dict, txns[0]);
      var tail := PutTxns(dict1, txns[1..]);
      TxnRoundTrip(dict, seen, txns[0], tail + rest);
      TxnsRoundTrip(dict1, SeenAfter(dict, seen, txns[0]), txns[1..], rest);
      assert (bytes + tail) + rest == bytes + (tail + rest);
      assert txns == [txns[0]] + txns[1..];
    }
  }

  /**
   * Every batch whose deposits and forced withdrawals have their constructor headers survives the
   * wire. The bound is on lists no machine could hold: a vector has fewer than 2^63 elements.
   */
  lemma BatchRoundTrip(b: Batch)
    requires 2 * |b.txns| <= MAX_U64
    requires forall txn :: txn in b.txns ==> ConstructorHeader(txn)
    ensures DecodeBatch(EncodeBatch(b)) == Ok(b)
  {
    hide TakeVarint, PutVarint, PutTxns, TakeTxns, ConstructorHeader;
    var n, body := |b.txns|, PutTxns(map[], b.txns);
    TxnsRoundTrip(map[], [], b.txns, []);
    assert body + [] == body;
    VarintRoundTrip(n, body);
    assert EncodeBatch(b)[1..] == PutVarint(n) + body;
  }

  /** Whatever decodes has constructor headers: no other deposit can be written down. */
  lemma {:induction false} DecodedHeaders(s: seq<byte>, seen: seq<Address>, count: nat)
    requires TakeTxns(s, seen, count).Ok?
    ensures |TakeTxns(s, seen, count).value.0| == count
    ensures forall txn :: txn in TakeTxns(s, seen, count).value.0 ==> ConstructorHeader(txn)
    decreases count
  {
    hide TakeAddress, TakeU64, TakeBytes32;
    if count > 0 {
      var ((txn, seen1), rest) := TakeTxn(s, seen).value;
      DecodedHeaders(rest, seen1, count - 1);
    }
  }
}
