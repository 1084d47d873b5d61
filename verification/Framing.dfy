/** Both wire formats say where they end: no string that decodes goes on, or stops short, and still decodes. */
module Framing {
  import opened Types
  import opened Varint
  import opened Transactions
  import opened BatchCodec
  import opened SidecarCodec
  import Semantics

  /** What a parser reads from s it reads from s with more behind it, and leaves the more unread. */
  predicate Extends<T(==)>(short: Parsed<T>, long: Parsed<T>, more: seq<byte>) {
    short.Ok? ==> long == Ok((short.value.0, short.value.1 + more))
  }

  lemma BytesExtend(s: seq<byte>, n: nat, more: seq<byte>)
    ensures Extends(TakeBytes(s, n), TakeBytes(s + more, n), more)
    ensures Extends(TakeByte(s), TakeByte(s + more), more)
    ensures Extends(TakeBytes32(s), TakeBytes32(s + more), more)
  {
    if n <= |s| {
      assert (s + more)[..n] == s[..n] && (s + more)[n..] == s[n..] + more;
    }
    if 1 <= |s| {
      assert (s + more)[1..] == s[1..] + more;
    }
    if 32 <= |s| {
      assert (s + more)[..32] == s[..32] && (s + more)[32..] == s[32..] + more;
    }
  }

  lemma NumberExtends(s: seq<byte>, more: seq<byte>)
    ensures Extends(TakeVarint(s), TakeVarint(s + more), more)
    ensures Extends(TakeU64(s), TakeU64(s + more), more)
  {
    hide TakeVarint, Terminated, Spells;
    if TakeVarint(s).Ok? {
      var rest := TakeVarint(s).value.1;
      var body := ReadBody(s);
      assert s + more == body + (rest + more);
      BodyIsRead(body, rest + more);
    }
  }

  lemma CountExtends(s: seq<byte>, stride: nat, more: seq<byte>)
    ensures Extends(TakeCount(s, stride), TakeCount(s + more, stride), more)
  {
    hide TakeVarint;
    NumberExtends(s, more);
  }

  // ----- batches -----

  lemma AddressExtends(s: seq<byte>, seen: seq<Address>, more: seq<byte>)
    ensures Extends(TakeAddress(s, seen), TakeAddress(s + more, seen), more)
  {
    hide TakeU64, TakeBytes32;
    NumberExtends(s, more);
    if TakeU64(s).Ok? {
      BytesExtend(TakeU64(s).value.1, 32, more);
    }
  }

  lemma TxnExtends(s: seq<byte>, seen: seq<Address>, more: seq<byte>)
    ensures Extends(TakeTxn(s, seen), TakeTxn(s + more, seen), more)
  {
    hide TakeU64, TakeBytes32, TakeAddress;
    if TakeTxn(s, seen).Ok? {
      BytesExtend(s, 1, more);
      var ((_, seen1), rest1) := TakeAddress(s[1..], seen).value;
      AddressExtends(s[1..], seen, more);
      NumberExtends(rest1, more);
      BytesExtend(rest1, 32, more);
      if s[0] == KIND_PAYMENT {
        var rest2 := TakeU64(rest1).value.1;
        AddressExtends(rest2, seen1, more);
        NumberExtends(TakeAddress(rest2, seen1).value.1, more);
      } else if s[0] == KIND_WITHDRAWAL {
        var rest2 := TakeU64(rest1).value.1;
        BytesExtend(rest2, 32, more);
        NumberExtends(TakeBytes32(rest2).value.1, more);
      }
    }
  }

  lemma {:induction false} TxnsExtend(s: seq<byte>, seen: seq<Address>, count: nat, more: seq<byte>)
    ensures Extends(TakeTxns(s, seen, count), TakeTxns(s + more, seen, count), more)
    decreases count
  {
    hide TakeTxn;
    if count > 0 && TakeTxn(s, seen).Ok? {
      var ((_, seen1), rest) := TakeTxn(s, seen).value;
      TxnExtends(s, seen, more);
      TxnsExtend(rest, seen1, count - 1, more);
    }
  }

  lemma LongerBatch(bytes: seq<byte>, more: seq<byte>)
    requires DecodeBatch(bytes).Ok? && more != []
    ensures DecodeBatch(bytes + more) == Err(TrailingBytes)
  {
    hide TakeCount, TakeTxns;
    var rest := bytes[1..];
    assert (bytes + more)[1..] == rest + more;
    var (count, rest1) := TakeCount(rest, MIN_ENCODED_TXN_SIZE).value;
    CountExtends(rest, MIN_ENCODED_TXN_SIZE, more);
    TxnsExtend(rest1, [], count, more);
  }

  /**
   * No batch is the beginning of another: cut short anywhere a batch is refused, and with anything
   * added it is refused for exactly that.
   */
  lemma BatchesArePrefixFree(bytes: seq<byte>, k: nat, more: seq<byte>)
    requires DecodeBatch(bytes).Ok?
    ensures k < |bytes| ==> DecodeBatch(bytes[..k]).Err?
    ensures more != [] ==> DecodeBatch(bytes + more) == Err(TrailingBytes)
  {
    hide DecodeBatch;
    assert k < |bytes| ==> bytes[..k] + bytes[k..] == bytes;
    if k < |bytes| && DecodeBatch(bytes[..k]).Ok? {
      LongerBatch(bytes[..k], bytes[k..]);
    }
    if more != [] {
      LongerBatch(bytes, more);
    }
  }

  // ----- sidecars -----

  lemma AccountExtends(s: seq<byte>, more: seq<byte>)
    ensures Extends(TakeAccount(s), TakeAccount(s + more), more)
  {
    hide TakeBytes;
    BytesExtend(s, ENCODED_ACCOUNT_SIZE, more);
  }

  lemma OptionalAccountExtends(s: seq<byte>, more: seq<byte>)
    ensures Extends(TakeOptionalAccount(s), TakeOptionalAccount(s + more), more)
  {
    hide TakeAccount;
    BytesExtend(s, 1, more);
    if s != [] {
      AccountExtends(s[1..], more);
    }
  }

  lemma {:induction false} SiblingsExtend(wire: DigestWire, s: seq<byte>, depth: nat, more: seq<byte>)
    ensures Extends(TakeSiblings(wire, s, depth), TakeSiblings(wire, s + more, depth), more)
    decreases depth
  {
    hide TakeBytes32;
    if depth > 0 && TakeBytes32(s).Ok? {
      BytesExtend(s, 32, more);
      SiblingsExtend(wire, TakeBytes32(s).value.1, depth - 1, more);
    }
  }

  lemma SlotExtends(s: seq<byte>, more: seq<byte>)
    ensures Extends(TakeSlot(s), TakeSlot(s + more), more)
  {
    hide TakeAccount, TakeBytes32;
    BytesExtend(s, 1, more);
    if s != [] {
      BytesExtend(s[1..], 32, more);
      if TakeBytes32(s[1..]).Ok? {
        AccountExtends(TakeBytes32(s[1..]).value.1, more);
      }
    }
  }

  lemma WitnessExtends(wire: DigestWire, s: seq<byte>, more: seq<byte>)
    ensures Extends(TakeWitness(wire, s), TakeWitness(wire, s + more), more)
  {
    hide TakeOptionalAccount, TakeCount, TakeSiblings, TakeSlot;
    if TakeWitness(wire, s).Ok? {
      var rest := TakeOptionalAccount(s).value.1;
      var (depth, rest1) := TakeCount(rest, 32).value;
      OptionalAccountExtends(s, more);
      CountExtends(rest, 32, more);
      SiblingsExtend(wire, rest1, depth, more);
      SlotExtends(TakeSiblings(wire, rest1, depth).value.1, more);
    }
  }

  lemma LengthPrefixedExtends(s: seq<byte>, more: seq<byte>)
    ensures Extends(TakeLengthPrefixed(s), TakeLengthPrefixed(s + more), more)
  {
    hide TakeCount, TakeBytes;
    CountExtends(s, 1, more);
    if TakeCount(s, 1).Ok? {
      BytesExtend(TakeCount(s, 1).value.1, TakeCount(s, 1).value.0, more);
    }
  }

  lemma SignatureExtends(s: seq<byte>, more: seq<byte>)
    ensures Extends(TakeSignature(s), TakeSignature(s + more), more)
  {
    hide TakeLengthPrefixed;
    if TakeSignature(s).Ok? {
      BytesExtend(s, 3, more);
      LengthPrefixedExtends(s[3..], more);
      LengthPrefixedExtends(TakeLengthPrefixed(s[3..]).value.1, more);
    }
  }

  lemma EntryExtends(wire: DigestWire, s: seq<byte>, txn: Transaction, more: seq<byte>)
    ensures Extends(TakeEntry(wire, s, txn), TakeEntry(wire, s + more, txn), more)
  {
    hide TakeSignature, TakeWitness;
    if TakeEntry(wire, s, txn).Ok? {
      if Semantics.NeedsSignature(txn) {
        var rest := TakeSignature(s).value.1;
        var rest1 := TakeWitness(wire, rest).value.1;
        SignatureExtends(s, more);
        WitnessExtends(wire, rest, more);
        WitnessExtends(wire, rest1, more);
        if txn.Payment? {
          WitnessExtends(wire, TakeWitness(wire, rest1).value.1, more);
        }
      } else {
        WitnessExtends(wire, s, more);
      }
    }
  }

  lemma {:induction false} EntriesExtend(wire: DigestWire, s: seq<byte>, txns: seq<Transaction>, more: seq<byte>)
    ensures Extends(TakeEntries(wire, s, txns), TakeEntries(wire, s + more, txns), more)
    decreases |txns|
  {
    hide TakeEntry;
    if txns != [] && TakeEntry(wire, s, txns[0]).Ok? {
      EntryExtends(wire, s, txns[0], more);
      EntriesExtend(wire, TakeEntry(wire, s, txns[0]).value.1, txns[1..], more);
    }
  }

  lemma LongerSidecar(wire: DigestWire, bytes: seq<byte>, batch: Batch, more: seq<byte>)
    requires DecodeSidecar(wire, bytes, batch).Ok? && more != []
    ensures DecodeSidecar(wire, bytes + more, batch) == Err(TrailingBytes)
  {
    hide TakeCount, TakeEntries;
    var rest := bytes[1..];
    assert (bytes + more)[1..] == rest + more;
    CountExtends(rest, MIN_ENCODED_ENTRY_SIZE, more);
    EntriesExtend(wire, TakeCount(rest, MIN_ENCODED_ENTRY_SIZE).value.1, batch.txns, more);
  }

  /** And no sidecar for a batch is the beginning of another. */
  lemma SidecarsArePrefixFree(wire: DigestWire, bytes: seq<byte>, batch: Batch, k: nat, more: seq<byte>)
    requires DecodeSidecar(wire, bytes, batch).Ok?
    ensures k < |bytes| ==> DecodeSidecar(wire, bytes[..k], batch).Err?
    ensures more != [] ==> DecodeSidecar(wire, bytes + more, batch) == Err(TrailingBytes)
  {
    hide DecodeSidecar;
    assert k < |bytes| ==> bytes[..k] + bytes[k..] == bytes;
    if k < |bytes| && DecodeSidecar(wire, bytes[..k], batch).Ok? {
      LongerSidecar(wire, bytes[..k], batch, bytes[k..]);
    }
    if more != [] {
      LongerSidecar(wire, bytes, batch, more);
    }
  }
}
