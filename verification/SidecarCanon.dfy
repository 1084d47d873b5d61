/** Which sidecars the wire can carry, and when reading one and writing it again gives the same bytes back. */
module SidecarCanon {
  import opened Types
  import opened Encoding
  import opened Varint
  import opened Transactions
  import opened BatchCodec
  import opened SidecarCodec
  import opened BatchCanon

  /** Every 32-byte word is some digest's, and is what that digest is written as. */
  ghost predicate WordsKept(wire: DigestWire) {
    forall word: Bytes32 :: wire.encode(wire.decode(word)) == word
  }

  /** The depth of the proof s begins with is spelled in as few digits as it needs. */
  predicate ShortWitness(wire: DigestWire, s: seq<byte>)
    requires TakeWitness(wire, s).Ok?
  {
    ShortNumber(TakeOptionalAccount(s).value.1)
  }

  predicate ShortFeeWitness(wire: DigestWire, s: seq<byte>, fee: u64)
    requires TakeFeeWitness(wire, s, fee).Ok?
  {
    fee != 0 ==> ShortWitness(wire, s)
  }

  predicate ShortSignature(s: seq<byte>)
    requires TakeSignature(s).Ok?
  {
    ShortNumber(s[3..]) && ShortNumber(TakeLengthPrefixed(s[3..]).value.1)
  }

  /** And so is every length and depth in an entry. */
  predicate ShortEntry(wire: DigestWire, s: seq<byte>, txn: Transaction)
    requires TakeEntry(wire, s, txn).Ok?
  {
    match txn
    case Payment(header, _, _) =>
      ShortSignature(s)
      && var rest := TakeSignature(s).value.1;
        ShortWitness(wire, rest)
        && var rest1 := TakeWitness(wire, rest).value.1;
          ShortWitness(wire, rest1) && ShortFeeWitness(wire, TakeWitness(wire, rest1).value.1, header.fee)
    case Withdrawal(header, _, _) =>
      ShortSignature(s)
      && var rest := TakeSignature(s).value.1;
        ShortWitness(wire, rest) && ShortFeeWitness(wire, TakeWitness(wire, rest).value.1, header.fee)
    case _ => ShortWitness(wire, s)
  }

  predicate ShortEntries(wire: DigestWire, s: seq<byte>, txns: seq<Transaction>)
    requires TakeEntries(wire, s, txns).Ok?
    decreases |txns|
  {
    txns == []
    || (ShortEntry(wire, s, txns[0]) && ShortEntries(wire, TakeEntry(wire, s, txns[0]).value.1, txns[1..]))
  }

  /** A sidecar that decodes and pads none of its numbers. */
  predicate MinimalSidecar(wire: DigestWire, bytes: seq<byte>, batch: Batch)
    requires DecodeSidecar(wire, bytes, batch).Ok?
  {
    ShortNumber(bytes[1..])
    && ShortEntries(wire, TakeCount(bytes[1..], MIN_ENCODED_ENTRY_SIZE).value.1, batch.txns)
  }

  // ----- fields of fixed width -----

  lemma {:induction false} ReadBackBytes(s: seq<byte>)
    ensures BigEndian(FromBigEndian(s), |s|) == s
  {
    if s != [] {
      ReadBackBytes(s[..|s| - 1]);
      assert s == s[..|s| - 1] + [s[|s| - 1]];
    }
  }

  lemma PrefixThen(head: seq<byte>, s: seq<byte>, more: seq<byte>)
    requires |head| <= |s| && head == s[..|head|]
    ensures head + more == s <==> more == s[|head|..]
  {
    assert s == s[..|head|] + s[|head|..];
    assert (head + more)[|head|..] == more;
  }

  lemma AccountThen(s: seq<byte>, more: seq<byte>)
    requires TakeAccount(s).Ok?
    ensures var (x, rest) := TakeAccount(s).value;
            PutAccount(x) + more == s <==> more == rest
  {
    hide BigEndian, FromBigEndian;
    var b := s[..ENCODED_ACCOUNT_SIZE];
    ReadBackBytes(b[..8]);
    ReadBackBytes(b[8..16]);
    assert b == b[..8] + (b[8..16] + b[16..]);
    PrefixThen(b, s, more);
  }

  lemma OptionalAccountThen(s: seq<byte>, more: seq<byte>)
    requires TakeOptionalAccount(s).Ok?
    ensures var (x, rest) := TakeOptionalAccount(s).value;
            PutOptionalAccount(x) + more == s <==> more == rest
  {
    hide TakeAccount, PutAccount;
    match TakeOptionalAccount(s).value.0 {
      case None => PrefixThen([ABSENT], s, more);
      case Some(x) =>
        AfterKind(PRESENT, PutAccount(x), more, s);
        AccountThen(s[1..], more);
    }
  }

  lemma SlotThen(s: seq<byte>, more: seq<byte>)
    requires TakeSlot(s).Ok?
    ensures var (slot, rest) := TakeSlot(s).value;
            PutSlot(slot) + more == s <==> more == rest
  {
    hide TakeAccount, PutAccount, TakeBytes32;
    match TakeSlot(s).value.0 {
      case Own => PrefixThen([SLOT_OWN], s, more);
      case Neighbor(address, account) =>
        var rest1 := TakeBytes32(s[1..]).value.1;
        AfterKind(SLOT_NEIGHBOR, address + PutAccount(account), more, s);
        assert (address + PutAccount(account)) + more == address + (PutAccount(account) + more);
        WordThen(s[1..], PutAccount(account) + more);
        AccountThen(rest1, more);
    }
  }

  lemma {:induction false} SiblingsThen(wire: DigestWire, s: seq<byte>, depth: nat, more: seq<byte>)
    requires WordsKept(wire) && TakeSiblings(wire, s, depth).Ok?
    ensures var (siblings, rest) := TakeSiblings(wire, s, depth).value;
            && |siblings| == depth
            && (PutSiblings(wire, siblings) + more == s <==> more == rest)
            && forall d :: d in siblings ==> wire.decode(wire.encode(d)) == d
    decreases depth
  {
    hide TakeBytes32;
    if depth == 0 {
      assert [] + more == more;
    } else {
      var (word, rest1) := TakeBytes32(s).value;
      var (siblings, rest) := TakeSiblings(wire, s, depth).value;
      var tail := PutSiblings(wire, siblings[1..]);
      assert siblings == [wire.decode(word)] + siblings[1..];
      assert (word + tail) + more == word + (tail + more);
      WordThen(s, tail + more);
      SiblingsThen(wire, rest1, depth - 1, more);
    }
  }

  // ----- fields with a length -----

  lemma CountThen(s: seq<byte>, stride: nat, more: seq<byte>)
    requires TakeCount(s, stride).Ok?
    ensures var (count, rest) := TakeCount(s, stride).value;
            && count <= MAX_U64
            && (PutVarint(count) + more == s <==> ShortNumber(s) && more == rest)
  {
    hide TakeVarint, PutVarint, ShortNumber;
    CountIsU64(s);
    NumberThen(s, more);
  }

  lemma WitnessThen(wire: DigestWire, s: seq<byte>, more: seq<byte>)
    requires WordsKept(wire) && TakeWitness(wire, s).Ok?
    ensures var (w, rest) := TakeWitness(wire, s).value;
            && (PutWitness(wire, w) + more == s <==> ShortWitness(wire, s) && more == rest)
            && Carried(wire, w)
  {
    hide TakeOptionalAccount, PutOptionalAccount, TakeCount, PutVarint, TakeSiblings, PutSiblings, TakeSlot, PutSlot,
      ShortNumber, WordsKept;
    var w := TakeWitness(wire, s).value.0;
    var siblings := w.proof.siblings;
    var a, n := PutOptionalAccount(w.priorAccount), PutVarint(|siblings|);
    var words, slot := PutSiblings(wire, siblings), PutSlot(w.proof.slot);
    var rest := TakeOptionalAccount(s).value.1;
    var (depth, rest1) := TakeCount(rest, 32).value;
    var rest2 := TakeSiblings(wire, rest1, depth).value.1;
    assert (a + (n + (words + slot))) + more == a + (n + (words + (slot + more)));
    OptionalAccountThen(s, n + (words + (slot + more)));
    CountThen(rest, 32, words + (slot + more));
    SiblingsThen(wire, rest1, depth, slot + more);
    SlotThen(rest2, more);
  }

  lemma FeeWitnessThen(wire: DigestWire, s: seq<byte>, fee: u64, more: seq<byte>)
    requires WordsKept(wire) && TakeFeeWitness(wire, s, fee).Ok?
    ensures var (w, rest) := TakeFeeWitness(wire, s, fee).value;
            && (PutOptionalWitness(wire, w) + more == s <==> ShortFeeWitness(wire, s, fee) && more == rest)
            && FeeShaped(wire, fee, w)
  {
    hide TakeWitness, PutWitness, ShortWitness, Carried, WordsKept;
    if fee == 0 {
      assert [] + more == more;
    } else {
      WitnessThen(wire, s, more);
    }
  }

  lemma BytesThen(s: seq<byte>, more: seq<byte>)
    requires TakeLengthPrefixed(s).Ok?
    ensures var (bytes, rest) := TakeLengthPrefixed(s).value;
            && |bytes| <= MAX_U64
            && (PutBytes(bytes) + more == s <==> ShortNumber(s) && more == rest)
  {
    hide TakeCount, PutVarint, ShortNumber;
    var bytes := TakeLengthPrefixed(s).value.0;
    var rest := TakeCount(s, 1).value.1;
    assert (PutVarint(|bytes|) + bytes) + more == PutVarint(|bytes|) + (bytes + more);
    CountThen(s, 1, bytes + more);
    PrefixThen(bytes, rest, more);
  }

  lemma SignatureThen(s: seq<byte>, more: seq<byte>)
    requires TakeSignature(s).Ok?
    ensures var (sig, rest) := TakeSignature(s).value;
            && (PutSignature(sig) + more == s <==> ShortSignature(s) && more == rest)
            && Sized(sig)
  {
    hide TakeLengthPrefixed, PutBytes, ShortNumber;
    var sig := TakeSignature(s).value.0;
    var id, key, bytes := sig.scheme.Identifier(), PutBytes(sig.pubKey), PutBytes(sig.sig);
    assert (id + (key + bytes)) + more == id + (key + (bytes + more));
    PrefixThen(id, s, key + (bytes + more));
    BytesThen(s[3..], bytes + more);
    BytesThen(TakeLengthPrefixed(s[3..]).value.1, more);
  }

  // ----- entries -----

  lemma EntryThen(wire: DigestWire, s: seq<byte>, txn: Transaction, more: seq<byte>)
    requires WordsKept(wire) && TakeEntry(wire, s, txn).Ok?
    ensures var (entry, rest) := TakeEntry(wire, s, txn).value;
            && (PutEntry(wire, entry) + more == s <==> ShortEntry(wire, s, txn) && more == rest)
            && Shaped(wire, txn, entry)
  {
    hide TakeSignature, PutSignature, TakeWitness, PutWitness, TakeFeeWitness, PutOptionalWitness, Carried, FeeShaped,
      ShortSignature, ShortWitness, ShortFeeWitness, WordsKept, Sized;
    match TakeEntry(wire, s, txn).value.0 {
      case PaymentSidecar(sig, sender, receiver, sink) =>
        var a, b := PutSignature(sig), PutWitness(wire, sender);
        var c, d := PutWitness(wire, receiver), PutOptionalWitness(wire, sink);
        var rest := TakeSignature(s).value.1;
        var rest1 := TakeWitness(wire, rest).value.1;
        assert (a + (b + (c + d))) + more == a + (b + (c + (d + more)));
        SignatureThen(s, b + (c + (d + more)));
        WitnessThen(wire, rest, c + (d + more));
        WitnessThen(wire, rest1, d + more);
        FeeWitnessThen(wire, TakeWitness(wire, rest1).value.1, txn.header.fee, more);
      case DepositSidecar(_) => WitnessThen(wire, s, more);
      case WithdrawalSidecar(sig, sender, sink) =>
        var a, b, d := PutSignature(sig), PutWitness(wire, sender), PutOptionalWitness(wire, sink);
        var rest := TakeSignature(s).value.1;
        assert (a + (b + d)) + more == a + (b + (d + more));
        SignatureThen(s, b + (d + more));
        WitnessThen(wire, rest, d + more);
        FeeWitnessThen(wire, TakeWitness(wire, rest).value.1, txn.header.fee, more);
      case ForcedWithdrawalSidecar(_) => WitnessThen(wire, s, more);
    }
  }

  lemma {:induction false} EntriesThen(wire: DigestWire, s: seq<byte>, txns: seq<Transaction>, more: seq<byte>)
    requires WordsKept(wire) && TakeEntries(wire, s, txns).Ok?
    ensures var (entries, rest) := TakeEntries(wire, s, txns).value;
            && (PutEntries(wire, entries) + more == s <==> ShortEntries(wire, s, txns) && more == rest)
            && ShapedFor(wire, txns, entries)
    decreases |txns|
  {
    hide TakeEntry, PutEntry, ShortEntry, Shaped, WordsKept;
    if txns == [] {
      assert [] + more == more;
    } else {
      var (entry, rest1) := TakeEntry(wire, s, txns[0]).value;
      var entries := TakeEntries(wire, s, txns).value.0;
      var tail := PutEntries(wire, entries[1..]);
      assert entries[1..] == TakeEntries(wire, rest1, txns[1..]).value.0;
      assert (PutEntry(wire, entry) + tail) + more == PutEntry(wire, entry) + (tail + more);
      EntryThen(wire, s, txns[0], tail + more);
      EntriesThen(wire, rest1, txns[1..], more);
    }
  }

  /**
   * Encoding the sidecar that was decoded gives its bytes back exactly when no length in them was
   * padded; and whatever decodes has the shape its batch calls for, depth bound included.
   */
  lemma SidecarReencodingIsExact(wire: DigestWire, bytes: seq<byte>, batch: Batch)
    requires WordsKept(wire) && DecodeSidecar(wire, bytes, batch).Ok?
    ensures EncodeSidecar(wire, DecodeSidecar(wire, bytes, batch).value) == bytes
       <==> MinimalSidecar(wire, bytes, batch)
    ensures ShapedFor(wire, batch.txns, DecodeSidecar(wire, bytes, batch).value.entries) && |batch.txns| <= MAX_U64
  {
    hide TakeCount, PutVarint, TakeEntries, PutEntries, ShapedFor, ShortNumber, ShortEntries, WordsKept;
    var entries := DecodeSidecar(wire, bytes, batch).value.entries;
    var (count, rest) := TakeCount(bytes[1..], MIN_ENCODED_ENTRY_SIZE).value;
    var body := PutEntries(wire, entries);
    EntriesThen(wire, rest, batch.txns, []);
    ShapedLength(wire, batch.txns, entries);
    AfterKind(SIDECAR_VERSION, PutVarint(count) + body, [], bytes);
    assert ([SIDECAR_VERSION] + (PutVarint(count) + body)) + [] == EncodeSidecar(wire, Sidecar(entries));
    assert (PutVarint(count) + body) + [] == PutVarint(count) + body;
    CountThen(bytes[1..], MIN_ENCODED_ENTRY_SIZE, body);
    assert body + [] == body;
  }

  /** The sidecars some bytes decode to for a batch are the ones of the shape the batch calls for, and no others. */
  lemma ShapedIsDecodable(wire: DigestWire, batch: Batch, s: Sidecar)
    requires WordsKept(wire)
    ensures (exists bytes :: DecodeSidecar(wire, bytes, batch) == Ok(s))
       <==> ShapedFor(wire, batch.txns, s.entries) && |s.entries| <= MAX_U64
  {
    hide DecodeSidecar, EncodeSidecar, ShapedFor, MinimalSidecar, WordsKept;
    if exists bytes :: DecodeSidecar(wire, bytes, batch) == Ok(s) {
      var bytes :| DecodeSidecar(wire, bytes, batch) == Ok(s);
      SidecarReencodingIsExact(wire, bytes, batch);
      ShapedLength(wire, batch.txns, s.entries);
    }
    if ShapedFor(wire, batch.txns, s.entries) && |s.entries| <= MAX_U64 {
      SidecarRoundTrip(wire, batch, s);
    }
  }
}
