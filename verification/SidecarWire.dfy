/** The sidecar format written and read through the codec's buffer and cursor. */
module SidecarWire {
  import opened Types
  import opened Encoding
  import opened Varint
  import opened Addresses
  import opened MerkleProofs
  import opened Transactions
  import opened BatchCodec
  import opened SidecarCodec
  import opened Wire

  // ----- writing -----

  method WriteAccount(buf: Buffer, x: Account)
    modifies buf
    ensures buf.bytes == old(buf.bytes) + PutAccount(x)
  {
    buf.Extend(U64Bytes(x.nonce));
    buf.Extend(U64Bytes(x.amount));
    buf.Extend(x.authAddress);
  }

  method WriteWitness(wire: DigestWire, buf: Buffer, w: LeafWitness)
    requires |w.proof.siblings| <= MAX_U64
    modifies buf
    ensures buf.bytes == old(buf.bytes) + PutWitness(wire, w)
  {
    hide PutVarint, PutAccount;
    if w.priorAccount.None? {
      buf.Push(ABSENT);
    } else {
      buf.Push(PRESENT);
      WriteAccount(buf, w.priorAccount.value);
    }
    var siblings := w.proof.siblings;
    buf.WriteVarint(|siblings|);
    WriteSiblings(wire, buf, siblings);
    WriteSlot(buf, w.proof.slot);
  }

  method WriteSiblings(wire: DigestWire, buf: Buffer, siblings: seq<Digest>)
    modifies buf
    ensures buf.bytes == old(buf.bytes) + PutSiblings(wire, siblings)
  {
    assert siblings[0..] == siblings;
    for i := 0 to |siblings|
      invariant buf.bytes + PutSiblings(wire, siblings[i..]) == old(buf.bytes) + PutSiblings(wire, siblings)
    {
      assert siblings[i..][0] == siblings[i] && siblings[i..][1..] == siblings[i + 1..];
      buf.Extend(wire.encode(siblings[i]));
    }
  }

  method WriteSlot(buf: Buffer, slot: Slot)
    modifies buf
    ensures buf.bytes == old(buf.bytes) + PutSlot(slot)
  {
    hide PutAccount;
    match slot {
      case Own =>
        buf.Push(SLOT_OWN);
      case Neighbor(address, account) =>
        buf.Push(SLOT_NEIGHBOR);
        buf.Extend(address);
        WriteAccount(buf, account);
    }
  }

  method WriteSignature(buf: Buffer, sig: Signature)
    requires Sized(sig)
    modifies buf
    ensures buf.bytes == old(buf.bytes) + PutSignature(sig)
  {
    hide PutBytes, Scheme.Identifier;
    buf.Extend(sig.scheme.Identifier());
    buf.WriteLengthPrefixed(sig.pubKey);
    buf.WriteLengthPrefixed(sig.sig);
  }

  method WriteOptionalWitness(wire: DigestWire, buf: Buffer, w: Option<LeafWitness>)
    requires w.Some? ==> |w.value.proof.siblings| <= MAX_U64
    modifies buf
    ensures buf.bytes == old(buf.bytes) + PutOptionalWitness(wire, w)
  {
    hide PutWitness;
    if w.Some? {
      WriteWitness(wire, buf, w.value);
    }
  }

  /** Every length in an entry is one a machine can hold. */
  predicate Storable(entry: TxnSidecar) {
    match entry
    case PaymentSidecar(sig, sender, receiver, sink) =>
      Sized(sig) && Short(Some(sender)) && Short(Some(receiver)) && Short(sink)
    case DepositSidecar(receiver) => Short(Some(receiver))
    case WithdrawalSidecar(sig, sender, sink) => Sized(sig) && Short(Some(sender)) && Short(sink)
    case ForcedWithdrawalSidecar(sender) => Short(Some(sender))
  }

  predicate Short(w: Option<LeafWitness>) {
    w.Some? ==> |w.value.proof.siblings| <= MAX_U64
  }

  method WriteEntry(wire: DigestWire, buf: Buffer, entry: TxnSidecar)
    requires Storable(entry)
    modifies buf
    ensures buf.bytes == old(buf.bytes) + PutEntry(wire, entry)
  {
    hide PutSignature, PutWitness, PutOptionalWitness, Sized;
    match entry {
      case PaymentSidecar(sig, sender, receiver, sink) =>
        WriteSignature(buf, sig);
        WriteWitness(wire, buf, sender);
        WriteWitness(wire, buf, receiver);
        WriteOptionalWitness(wire, buf, sink);
      case DepositSidecar(receiver) =>
        WriteWitness(wire, buf, receiver);
      case WithdrawalSidecar(sig, sender, sink) =>
        WriteSignature(buf, sig);
        WriteWitness(wire, buf, sender);
        WriteOptionalWitness(wire, buf, sink);
      case ForcedWithdrawalSidecar(sender) =>
        WriteWitness(wire, buf, sender);
    }
  }

  /** Sidecar::encode. */
  method Encode(wire: DigestWire, s: Sidecar) returns (bytes: seq<byte>)
    requires |s.entries| <= MAX_U64
    requires forall i :: 0 <= i < |s.entries| ==> Storable(s.entries[i])
    ensures bytes == EncodeSidecar(wire, s)
  {
    hide PutVarint, PutEntry, Storable;
    var buf := new Buffer();
    buf.Push(SIDECAR_VERSION);
    buf.WriteVarint(|s.entries|);
    assert s.entries[0..] == s.entries;
    for i := 0 to |s.entries|
      invariant buf.bytes + PutEntries(wire, s.entries[i..]) == EncodeSidecar(wire, s)
    {
      assert s.entries[i..][0] == s.entries[i] && s.entries[i..][1..] == s.entries[i + 1..];
      WriteEntry(wire, buf, s.entries[i]);
    }
    bytes := buf.bytes;
  }

  // ----- reading -----

  method ReadOptionalAccount(reader: Reader) returns (r: Result<Option<Account>, DecodeError>)
    modifies reader
    ensures Follows(TakeOptionalAccount(old(reader.bytes)), r, reader.bytes)
  {
    hide TakeAccount;
    var tag :- reader.Byte();
    if tag == ABSENT {
      return Ok(None);
    } else if tag == PRESENT {
      var account :- reader.ReadAccount();
      return Ok(Some(account));
    }
    r := Err(UnknownPresenceTag(tag));
  }

  method ReadSiblings(wire: DigestWire, reader: Reader, depth: nat) returns (r: Result<seq<Digest>, DecodeError>)
    modifies reader
    ensures Follows(TakeSiblings(wire, old(reader.bytes), depth), r, reader.bytes)
  {
    hide TakeBytes32;
    ghost var parsed := TakeSiblings(wire, reader.bytes, depth);
    var siblings := [];
    ResumedNothing(parsed);
    for i := 0 to depth
      invariant Resumed(siblings, TakeSiblings(wire, reader.bytes, depth - i)) == parsed
    {
      ghost var s := reader.bytes;
      var word :- reader.Word();
      ghost var later := TakeSiblings(wire, reader.bytes, depth - i - 1);
      ResumedStep(siblings, wire.decode(word), later);
      assert TakeSiblings(wire, s, depth - i) == Resumed([wire.decode(word)], later);
      siblings := siblings + [wire.decode(word)];
    }
    assert siblings + [] == siblings;
    r := Ok(siblings);
  }

  method ReadSlot(reader: Reader) returns (r: Result<Slot, DecodeError>)
    modifies reader
    ensures Follows(TakeSlot(old(reader.bytes)), r, reader.bytes)
  {
    hide TakeAccount, TakeBytes32;
    var kind :- reader.Byte();
    if kind == SLOT_OWN {
      return Ok(Own);
    } else if kind == SLOT_NEIGHBOR {
      var address :- reader.Word();
      var account :- reader.ReadAccount();
      return Ok(Neighbor(address, account));
    }
    r := Err(UnknownSlotKind(kind));
  }

  method ReadWitness(wire: DigestWire, reader: Reader) returns (r: Result<LeafWitness, DecodeError>)
    modifies reader
    ensures Follows(TakeWitness(wire, old(reader.bytes)), r, reader.bytes)
  {
    hide TakeOptionalAccount, TakeCount, TakeSiblings, TakeSlot;
    var prior :- ReadOptionalAccount(reader);
    var depth :- reader.Count(32);
    if depth > DEPTH {
      return Err(ProofTooDeep(depth));
    }
    var siblings :- ReadSiblings(wire, reader, depth);
    var slot :- ReadSlot(reader);
    r := Ok(LeafWitness(prior, MerkleProof(siblings, slot)));
  }

  method ReadFeeWitness(wire: DigestWire, reader: Reader,
                        fee: u64) returns (r: Result<Option<LeafWitness>, DecodeError>)
    modifies reader
    ensures Follows(TakeFeeWitness(wire, old(reader.bytes), fee), r, reader.bytes)
  {
    hide TakeWitness;
    if fee == 0 {
      return Ok(None);
    }
    var w :- ReadWitness(wire, reader);
    r := Ok(Some(w));
  }

  method ReadSignature(reader: Reader) returns (r: Result<Signature, DecodeError>)
    modifies reader
    ensures Follows(TakeSignature(old(reader.bytes)), r, reader.bytes)
  {
    hide TakeLengthPrefixed, SchemeFromIdentifier;
    var identifier :- reader.Take(3);
    var scheme := SchemeFromIdentifier(identifier);
    if scheme.None? {
      return Err(UnknownScheme(identifier));
    }
    var pubKey :- reader.LengthPrefixed();
    var sig :- reader.LengthPrefixed();
    r := Ok(Signature(scheme.value, pubKey, sig));
  }

  method ReadEntry(wire: DigestWire, reader: Reader, txn: Transaction) returns (r: Result<TxnSidecar, DecodeError>)
    modifies reader
    ensures Follows(TakeEntry(wire, old(reader.bytes), txn), r, reader.bytes)
  {
    hide TakeSignature, TakeWitness, TakeFeeWitness;
    match txn {
      case Payment(header, _, _) =>
        var sig :- ReadSignature(reader);
        var sender :- ReadWitness(wire, reader);
        var receiver :- ReadWitness(wire, reader);
        var sink :- ReadFeeWitness(wire, reader, header.fee);
        r := Ok(PaymentSidecar(sig, sender, receiver, sink));
      case Deposit(_, _, _) =>
        var receiver :- ReadWitness(wire, reader);
        r := Ok(DepositSidecar(receiver));
      case Withdrawal(header, _, _) =>
        var sig :- ReadSignature(reader);
        var sender :- ReadWitness(wire, reader);
        var sink :- ReadFeeWitness(wire, reader, header.fee);
        r := Ok(WithdrawalSidecar(sig, sender, sink));
      case ForcedWithdrawal(_, _) =>
        var sender :- ReadWitness(wire, reader);
        r := Ok(ForcedWithdrawalSidecar(sender));
    }
  }

  /** Sidecar::decode: both the count and each entry's shape come from the batch. */
  method Decode(wire: DigestWire, bytes: seq<byte>, batch: Batch) returns (r: Result<Sidecar, DecodeError>)
    ensures r == DecodeSidecar(wire, bytes, batch)
  {
    hide TakeCount, TakeEntry;
    var txns := batch.txns;
    var reader := new Reader(bytes);
    var _ :- reader.ExpectVersion(SIDECAR_VERSION);
    var found :- reader.Count(MIN_ENCODED_ENTRY_SIZE);
    if found != |txns| {
      return Err(DecodeError.SidecarLengthMismatch(|txns|, found));
    }
    ghost var parsed := TakeEntries(wire, reader.bytes, txns);
    var entries := [];
    ResumedNothing(parsed);
    assert txns[0..] == txns;
    for i := 0 to |txns|
      invariant Resumed(entries, TakeEntries(wire, reader.bytes, txns[i..])) == parsed
    {
      ghost var s := reader.bytes;
      assert txns[i..][0] == txns[i] && txns[i..][1..] == txns[i + 1..];
      var entry :- ReadEntry(wire, reader, txns[i]);
      ghost var later := TakeEntries(wire, reader.bytes, txns[i + 1..]);
      ResumedStep(entries, entry, later);
      assert TakeEntries(wire, s, txns[i..]) == Resumed([entry], later);
      entries := entries + [entry];
    }
    assert entries + [] == entries;
    var _ :- reader.Finish();
    r := Ok(Sidecar(entries));
  }
}
