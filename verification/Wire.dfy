/** The byte buffer and cursor of the codec, and the batch format written and read through them. */
module Wire {
  import opened Types
  import opened Varint
  import opened Transactions
  import opened BatchCodec
  import opened SidecarCodec
  import Bits

  /** A read answers as the parser on the same bytes does, leaving the cursor on what is left. */
  predicate Follows<T(==)>(parsed: Parsed<T>, r: Result<T, DecodeError>, left: seq<byte>) {
    match parsed
    case Ok((value, rest)) => r == Ok(value) && left == rest
    case Err(e) => r == Err(e)
  }

  // ----- writing -----

  class Buffer {
    var bytes: seq<byte>

    constructor ()
      ensures bytes == []
    {
      bytes := [];
    }

    method Push(b: byte)
      modifies this
      ensures bytes == old(bytes) + [b]
    {
      bytes := bytes + [b];
    }

    method Extend(more: seq<byte>)
      modifies this
      ensures bytes == old(bytes) + more
    {
      bytes := bytes + more;
    }

    method WriteVarint(number: u64)
      modifies this
      ensures bytes == old(bytes) + PutVarint(number)
    {
      var value: nat := number;
      while true
        invariant bytes + PutVarint(value) == old(bytes) + PutVarint(number)
        decreases value
      {
        var digit := value % 128;
        ghost var before := value;
        value := value / 128;
        if value == 0 {
          Push(digit);
          return;
        }
        ContinuationBit(digit);
        Push(Bits.BitOr(digit, 0x80));
        assert PutVarint(before) == [digit + 128] + PutVarint(value);
      }
    }

    method WriteLengthPrefixed(s: seq<byte>)
      requires |s| <= MAX_U64
      modifies this
      ensures bytes == old(bytes) + PutBytes(s)
    {
      WriteVarint(|s|);
      Extend(s);
    }
  }

  lemma ContinuationBit(digit: nat)
    requires digit < 128
    ensures Bits.BitOr(digit, 0x80) == digit + 128
  {
    assert Bits.Pow2(4) == 16;
    Bits.Pow2Sum(4, 3);
    Bits.OrIsSum(digit, 1, 7);
  }

  /** Positions count up from one, so each fits wherever the number of them does. */
  ghost predicate Dense(positions: Positions) {
    forall a :: a in positions ==> positions[a] <= |positions|
  }

  lemma DenseStep(positions: Positions, a: Address)
    requires Dense(positions)
    ensures a in positions ==> positions[a] <= |positions|
    ensures a !in positions ==>
              && Dense(positions[a := |positions| + 1])
              && |positions[a := |positions| + 1]| == |positions| + 1
  {
    if a !in positions {
      assert positions[a := |positions| + 1].Keys == positions.Keys + {a};
    }
  }

  /** The encoder's dictionary. */
  class Dictionary {
    var positions: Positions

    constructor ()
      ensures positions == map[]
    {
      positions := map[];
    }

    method Put(buf: Buffer, a: Address)
      requires |positions| < MAX_U64
      requires Dense(positions)
      modifies this, buf
      ensures buf.bytes == old(buf.bytes) + PutAddress(old(positions), a).0
      ensures positions == PutAddress(old(positions), a).1
      ensures |positions| <= |old(positions)| + 1
      ensures Dense(positions)
    {
      hide PutVarint, Dense;
      DenseStep(positions, a);
      if a in positions {
        buf.WriteVarint(positions[a]);
      } else {
        buf.Push(0);
        buf.Extend(a);
        positions := positions[a := |positions| + 1];
      }
    }

    /** An address and a number: a sender and its fee, or a receiver and its amount. */
    method PutPair(buf: Buffer, a: Address, number: u64)
      requires |positions| < MAX_U64 && Dense(positions)
      modifies this, buf
      ensures buf.bytes == old(buf.bytes) + (PutAddress(old(positions), a).0 + PutVarint(number))
      ensures positions == PutAddress(old(positions), a).1
      ensures |positions| <= |old(positions)| + 1 && Dense(positions)
    {
      hide PutVarint, PutAddress, Dense;
      Put(buf, a);
      buf.WriteVarint(number);
    }

    method PutTransaction(buf: Buffer, txn: Transaction)
      requires |positions| + 1 < MAX_U64 && Dense(positions)
      modifies this, buf
      ensures buf.bytes == old(buf.bytes) + PutTxn(old(positions), txn).0
      ensures positions == PutTxn(old(positions), txn).1
      ensures |positions| <= |old(positions)| + 2 && Dense(positions)
    {
      hide PutVarint, PutAddress, Dense;
      match txn {
        case Payment(header, receiver, amount) =>
          buf.Push(KIND_PAYMENT);
          PutPair(buf, header.sender, header.fee);
          PutPair(buf, receiver, amount);
        case Deposit(_, receiver, amount) =>
          buf.Push(KIND_DEPOSIT);
          PutPair(buf, receiver, amount);
        case Withdrawal(header, recipient, amount) =>
          buf.Push(KIND_WITHDRAWAL);
          PutPair(buf, header.sender, header.fee);
          buf.Extend(recipient);
          buf.WriteVarint(amount);
        case ForcedWithdrawal(header, recipient) =>
          buf.Push(KIND_FORCED_WITHDRAWAL);
          Put(buf, header.sender);
          buf.Extend(recipient);
      }
    }
  }

  /** Batch::encode. */
  method Encode(b: Batch) returns (bytes: seq<byte>)
    requires 2 * |b.txns| <= MAX_U64 - 1
    ensures bytes == EncodeBatch(b)
  {
    hide PutVarint, PutTxn;
    var buf := new Buffer();
    var dict := new Dictionary();
    buf.Push(BATCH_VERSION);
    buf.WriteVarint(|b.txns|);
    assert b.txns[0..] == b.txns;
    for i := 0 to |b.txns|
      invariant buf.bytes + PutTxns(dict.positions, b.txns[i..]) == EncodeBatch(b)
      invariant |dict.positions| <= 2 * i
      invariant Dense(dict.positions)
    {
      assert b.txns[i..][0] == b.txns[i] && b.txns[i..][1..] == b.txns[i + 1..];
      dict.PutTransaction(buf, b.txns[i]);
    }
    bytes := buf.bytes;
  }

  // ----- reading -----

  /** What is left of the input, shortened by each read that succeeds. */
  class Reader {
    var bytes: seq<byte>

    constructor (s: seq<byte>)
      ensures bytes == s
    {
      bytes := s;
    }

    method Take(length: nat) returns (r: Result<seq<byte>, DecodeError>)
      modifies this
      ensures Follows(TakeBytes(old(bytes), length), r, bytes)
    {
      if |bytes| < length {
        return Err(UnexpectedEnd);
      }
      r := Ok(bytes[..length]);
      bytes := bytes[length..];
    }

    method Byte() returns (r: Result<byte, DecodeError>)
      modifies this
      ensures Follows(TakeByte(old(bytes)), r, bytes)
    {
      var head :- Take(1);
      r := Ok(head[0]);
    }

    method Word() returns (r: Result<Bytes32, DecodeError>)
      modifies this
      ensures Follows(TakeBytes32(old(bytes)), r, bytes)
    {
      var head :- Take(32);
      r := Ok(head);
    }

    /** The digits are joined by a bitwise or; the parser adds them up. */
    method Number() returns (r: Result<u64, DecodeError>)
      modifies this
      ensures Follows(TakeU64(old(bytes)), r, bytes)
    {
      hide Bits.Pow2, Bits.BitOr;
      ghost var parsed := TakeVarint(bytes);
      Pow2Of0();
      var value: nat, shift: nat := 0, 0;
      while true
        invariant TakeVarintFrom(bytes, value, shift) == parsed
        invariant value < Bits.Pow2(shift) && value <= MAX_U64
        decreases |bytes|
      {
        var next :- Byte();
        var payload := next % 128;
        if shift >= 64 || payload > MAX_U64 / Bits.Pow2(shift) {
          return Err(MalformedVarint);
        }
        DigitFits(value, payload, shift);
        NextFits(value, payload, shift);
        Bits.OrIsSum(value, payload, shift);
        value := Bits.BitOr(value, payload * Bits.Pow2(shift));
        if next < 128 {
          return Ok(value);
        }
        shift := shift + 7;
      }
    }

    method ExpectVersion(expected: byte) returns (r: Result<(), DecodeError>)
      modifies this
      ensures Follows(TakeVersion(old(bytes), expected), r, bytes)
    {
      var version :- Byte();
      r := if version == expected then Ok(()) else Err(UnsupportedVersion(version));
    }

    method Count(stride: nat) returns (r: Result<nat, DecodeError>)
      modifies this
      ensures Follows(TakeCount(old(bytes), stride), r, bytes)
    {
      hide TakeVarint;
      var count :- Number();
      r := if count * stride > |bytes| then Err(ImplausibleLength) else Ok(count);
    }

    method LengthPrefixed() returns (r: Result<seq<byte>, DecodeError>)
      modifies this
      ensures Follows(TakeLengthPrefixed(old(bytes)), r, bytes)
    {
      hide TakeCount;
      var length :- Count(1);
      r := Take(length);
    }

    method ReadAccount() returns (r: Result<Account, DecodeError>)
      modifies this
      ensures Follows(TakeAccount(old(bytes)), r, bytes)
    {
      var s :- Take(ENCODED_ACCOUNT_SIZE);
      r := Ok(Account(Encoding.ReadU64(s[..8]), Encoding.ReadU64(s[8..16]), s[16..]));
    }

    method Finish() returns (r: Result<(), DecodeError>)
      ensures r == if bytes == [] then Ok(()) else Err(TrailingBytes)
    {
      r := if |bytes| == 0 then Ok(()) else Err(TrailingBytes);
    }
  }

  /** The seen of TakeAddress, grown by each literal Take reads. */
  class DictionaryReader {
    var seen: seq<Address>

    constructor ()
      ensures seen == []
    {
      seen := [];
    }

    method Take(reader: Reader) returns (r: Result<Address, DecodeError>)
      modifies this, reader
      ensures FollowsSeen(TakeAddress(old(reader.bytes), old(seen)), r, reader.bytes, seen)
    {
      hide TakeU64;
      var reference :- reader.Number();
      if reference == 0 {
        var a :- reader.Word();
        seen := seen + [a];
        return Ok(a);
      }
      r := if reference - 1 < |seen| then Ok(seen[reference - 1]) else Err(UnknownAddressRef(reference));
    }

    method TakeTransaction(reader: Reader) returns (r: Result<Transaction, DecodeError>)
      modifies this, reader
      ensures FollowsSeen(TakeTxn(old(reader.bytes), old(seen)), r, reader.bytes, seen)
    {
      hide TakeU64, TakeAddress, TakeBytes32;
      var kind :- reader.Byte();
      if kind == KIND_PAYMENT {
        var sender :- Take(reader);
        var fee :- reader.Number();
        var receiver :- Take(reader);
        var amount :- reader.Number();
        return Ok(Payment(TransactionHeader(sender, fee), receiver, amount));
      } else if kind == KIND_DEPOSIT {
        var receiver :- Take(reader);
        var amount :- reader.Number();
        return Ok(NewDeposit(receiver, amount));
      } else if kind == KIND_WITHDRAWAL {
        var sender :- Take(reader);
        var fee :- reader.Number();
        var recipient :- reader.Word();
        var amount :- reader.Number();
        return Ok(Withdrawal(TransactionHeader(sender, fee), recipient, amount));
      } else if kind == KIND_FORCED_WITHDRAWAL {
        var address :- Take(reader);
        var recipient :- reader.Word();
        return Ok(NewForcedWithdrawal(address, recipient));
      }
      r := Err(UnknownTransactionKind(kind));
    }
  }

  /** As Follows, for a read that may also grow the decoder's dictionary. */
  predicate FollowsSeen<T(==)>(parsed: Parsed<(T, seq<Address>)>, r: Result<T, DecodeError>,
                               left: seq<byte>, seen: seq<Address>)
  {
    match parsed
    case Ok(((value, met), rest)) => r == Ok(value) && left == rest && seen == met
    case Err(e) => r == Err(e)
  }

  /** What a list parser makes of the input as a whole once the items in done have been read. */
  function Resumed<T>(done: seq<T>, parsed: Parsed<seq<T>>): Parsed<seq<T>> {
    match parsed
    case Ok((more, rest)) => Ok((done + more, rest))
    case Err(e) => Err(e)
  }

  lemma ResumedStep<T>(done: seq<T>, x: T, parsed: Parsed<seq<T>>)
    ensures Resumed(done, Resumed([x], parsed)) == Resumed(done + [x], parsed)
  {
    if parsed.Ok? {
      assert done + ([x] + parsed.value.0) == done + [x] + parsed.value.0;
    }
  }

  lemma ResumedNothing<T>(parsed: Parsed<seq<T>>)
    ensures Resumed([], parsed) == parsed
  {
    if parsed.Ok? {
      assert [] + parsed.value.0 == parsed.value.0;
    }
  }

  /** Batch::decode. */
  method Decode(bytes: seq<byte>) returns (r: Result<Batch, DecodeError>)
    ensures r == DecodeBatch(bytes)
  {
    hide TakeCount, TakeTxn;
    var reader := new Reader(bytes);
    var dict := new DictionaryReader();
    var _ :- reader.ExpectVersion(BATCH_VERSION);
    var count :- reader.Count(MIN_ENCODED_TXN_SIZE);
    ghost var parsed := TakeTxns(reader.bytes, [], count);
    var txns := [];
    ResumedNothing(parsed);
    for i := 0 to count
      invariant Resumed(txns, TakeTxns(reader.bytes, dict.seen, count - i)) == parsed
    {
      ghost var s, seen := reader.bytes, dict.seen;
      var txn :- dict.TakeTransaction(reader);
      ResumedStep(txns, txn, TakeTxns(reader.bytes, dict.seen, count - i - 1));
      assert TakeTxns(s, seen, count - i) == Resumed([txn], TakeTxns(reader.bytes, dict.seen, count - i - 1));
      txns := txns + [txn];
    }
    assert txns + [] == txns;
    var _ :- reader.Finish();
    r := Ok(Batch(txns));
  }
}
