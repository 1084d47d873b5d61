/** The private half of a block as bytes, each entry in the shape its transaction calls for. */
module SidecarCodec {
  import opened Types
  import opened Encoding
  import opened Varint
  import opened Addresses
  import opened MerkleProofs
  import opened Transactions
  import opened BatchCodec

  const SIDECAR_VERSION: byte := 1

  const ABSENT: byte := 0
  const PRESENT: byte := 1

  const SLOT_OWN: byte := 0
  const SLOT_NEIGHBOR: byte := 1

  /** PutEntry writes at least this many bytes: a presence tag, a depth and a slot kind. */
  const MIN_ENCODED_ENTRY_SIZE: nat := 3

  const ENCODED_ACCOUNT_SIZE: nat := 48

  function PutAccount(x: Account): (s: seq<byte>)
    ensures |s| == ENCODED_ACCOUNT_SIZE
  {
    U64Bytes(x.nonce) + (U64Bytes(x.amount) + x.authAddress)
  }

  function PutSiblings(wire: DigestWire, siblings: seq<Digest>): (s: seq<byte>)
    ensures |s| == 32 * |siblings|
  {
    if siblings == [] then [] else wire.encode(siblings[0]) + PutSiblings(wire, siblings[1..])
  }

  function PutOptionalAccount(x: Option<Account>): seq<byte> {
    match x
    case None => [ABSENT]
    case Some(account) => [PRESENT] + PutAccount(account)
  }

  function PutSlot(slot: Slot): seq<byte> {
    match slot
    case Own => [SLOT_OWN]
    case Neighbor(address, account) => [SLOT_NEIGHBOR] + (address + PutAccount(account))
  }

  function PutWitness(wire: DigestWire, w: LeafWitness): seq<byte> {
    var siblings := w.proof.siblings;
    PutOptionalAccount(w.priorAccount)
    + (PutVarint(|siblings|) + (PutSiblings(wire, siblings) + PutSlot(w.proof.slot)))
  }

  function PutOptionalWitness(wire: DigestWire, w: Option<LeafWitness>): seq<byte> {
    match w
    case None => []
    case Some(present) => PutWitness(wire, present)
  }

  function PutBytes(bytes: seq<byte>): seq<byte> {
    PutVarint(|bytes|) + bytes
  }

  function PutSignature(sig: Signature): seq<byte> {
    sig.scheme.Identifier() + (PutBytes(sig.pubKey) + PutBytes(sig.sig))
  }

  function PutEntry(wire: DigestWire, entry: TxnSidecar): seq<byte> {
    match entry
    case PaymentSidecar(sig, sender, receiver, sink) =>
      PutSignature(sig) + (PutWitness(wire, sender) + (PutWitness(wire, receiver) + PutOptionalWitness(wire, sink)))
    case DepositSidecar(receiver) => PutWitness(wire, receiver)
    case WithdrawalSidecar(sig, sender, sink) =>
      PutSignature(sig) + (PutWitness(wire, sender) + PutOptionalWitness(wire, sink))
    case ForcedWithdrawalSidecar(sender) => PutWitness(wire, sender)
  }

  function PutEntries(wire: DigestWire, entries: seq<TxnSidecar>): seq<byte> {
    if entries == [] then [] else PutEntry(wire, entries[0]) + PutEntries(wire, entries[1..])
  }

  function EncodeSidecar(wire: DigestWire, s: Sidecar): seq<byte> {
    [SIDECAR_VERSION] + (PutVarint(|s.entries|) + PutEntries(wire, s.entries))
  }

  function TakeAccount(s: seq<byte>): Parsed<Account> {
    var (bytes, rest) :- TakeBytes(s, ENCODED_ACCOUNT_SIZE);
    Ok((Account(ReadU64(bytes[..8]), ReadU64(bytes[8..16]), bytes[16..]), rest))
  }

  function TakeOptionalAccount(s: seq<byte>): Parsed<Option<Account>> {
    var (tag, rest) :- TakeByte(s);
    if tag == ABSENT then Ok((None, rest))
    else if tag == PRESENT then
      var (account, rest1) :- TakeAccount(rest);
      Ok((Some(account), rest1))
    else Err(UnknownPresenceTag(tag))
  }

  function TakeSiblings(wire: DigestWire, s: seq<byte>, depth: nat): Parsed<seq<Digest>>
    decreases depth
  {
    if depth == 0 then Ok(([], s))
    else
      var (word, rest) :- TakeBytes32(s);
      var (siblings, rest1) :- TakeSiblings(wire, rest, depth - 1);
      Ok(([wire.decode(word)] + siblings, rest1))
  }

  function TakeSlot(s: seq<byte>): Parsed<Slot> {
    var (kind, rest) :- TakeByte(s);
    if kind == SLOT_OWN then Ok((Own, rest))
    else if kind == SLOT_NEIGHBOR then
      var (address, rest1) :- TakeBytes32(rest);
      var (account, rest2) :- TakeAccount(rest1);
      Ok((Neighbor(address, account), rest2))
    else Err(UnknownSlotKind(kind))
  }

  function TakeWitness(wire: DigestWire, s: seq<byte>): Parsed<LeafWitness> {
    var (prior, rest) :- TakeOptionalAccount(s);
    var (depth, rest1) :- TakeCount(rest, 32);
    if depth > DEPTH then Err(ProofTooDeep(depth))
    else
      var (siblings, rest2) :- TakeSiblings(wire, rest1, depth);
      var (slot, rest3) :- TakeSlot(rest2);
      Ok((LeafWitness(prior, MerkleProof(siblings, slot)), rest3))
  }

  /** The fee sink's witness is on the wire only when there is a fee. */
  function TakeFeeWitness(wire: DigestWire, s: seq<byte>, fee: u64): Parsed<Option<LeafWitness>> {
    if fee == 0 then Ok((None, s))
    else
      var (w, rest) :- TakeWitness(wire, s);
      Ok((Some(w), rest))
  }

  function TakeLengthPrefixed(s: seq<byte>): Parsed<seq<byte>> {
    var (length, rest) :- TakeCount(s, 1);
    TakeBytes(rest, length)
  }

  function TakeSignature(s: seq<byte>): Parsed<Signature> {
    var (identifier, rest) :- TakeBytes(s, 3);
    match SchemeFromIdentifier(identifier)
    case None => Err(UnknownScheme(identifier))
    case Some(scheme) =>
      var (pubKey, rest1) :- TakeLengthPrefixed(rest);
      var (sig, rest2) :- TakeLengthPrefixed(rest1);
      Ok((Signature(scheme, pubKey, sig), rest2))
  }

  function TakeEntry(wire: DigestWire, s: seq<byte>, txn: Transaction): Parsed<TxnSidecar> {
    match txn
    case Payment(header, _, _) =>
      var (sig, rest) :- TakeSignature(s);
      var (sender, rest1) :- TakeWitness(wire, rest);
      var (receiver, rest2) :- TakeWitness(wire, rest1);
      var (sink, rest3) :- TakeFeeWitness(wire, rest2, header.fee);
      Ok((PaymentSidecar(sig, sender, receiver, sink), rest3))
    case Deposit(_, _, _) =>
      var (receiver, rest) :- TakeWitness(wire, s);
      Ok((DepositSidecar(receiver), rest))
    case Withdrawal(header, _, _) =>
      var (sig, rest) :- TakeSignature(s);
      var (sender, rest1) :- TakeWitness(wire, rest);
      var (sink, rest2) :- TakeFeeWitness(wire, rest1, header.fee);
      Ok((WithdrawalSidecar(sig, sender, sink), rest2))
    case ForcedWithdrawal(_, _) =>
      var (sender, rest) :- TakeWitness(wire, s);
      Ok((ForcedWithdrawalSidecar(sender), rest))
  }

  function TakeEntries(wire: DigestWire, s: seq<byte>, txns: seq<Transaction>): Parsed<seq<TxnSidecar>>
    decreases |txns|
  {
    if txns == [] then Ok(([], s))
    else
      var (entry, rest) :- TakeEntry(wire, s, txns[0]);
      var (entries, rest1) :- TakeEntries(wire, rest, txns[1..]);
      Ok(([entry] + entries, rest1))
  }

  function DecodeSidecar(wire: DigestWire, bytes: seq<byte>, batch: Batch): Result<Sidecar, DecodeError> {
    var (_, rest) :- TakeVersion(bytes, SIDECAR_VERSION);
    var (found, rest1) :- TakeCount(rest, MIN_ENCODED_ENTRY_SIZE);
    if found != |batch.txns| then Err(DecodeError.SidecarLengthMismatch(|batch.txns|, found))
    else
      var (entries, rest2) :- TakeEntries(wire, rest1, batch.txns);
      if rest2 == [] then Ok(Sidecar(entries)) else Err(TrailingBytes)
  }

  // ----- the shape a batch demands of its sidecar -----

  /** The wire carries every sibling of a witness that is not too deep to decode. */
  ghost predicate Carried(wire: DigestWire, w: LeafWitness) {
    && |w.proof.siblings| <= DEPTH
    && forall d :: d in w.proof.siblings ==> wire.decode(wire.encode(d)) == d
  }

  ghost predicate FeeShaped(wire: DigestWire, fee: u64, w: Option<LeafWitness>) {
    (w.Some? <==> fee != 0) && (w.Some? ==> Carried(wire, w.value))
  }

  /** A key or signature short enough to be in memory at all. */
  predicate Sized(sig: Signature) {
    |sig.pubKey| <= MAX_U64 && |sig.sig| <= MAX_U64
  }

  ghost predicate Shaped(wire: DigestWire, txn: Transaction, entry: TxnSidecar) {
    match (txn, entry)
    case (Payment(header, _, _), PaymentSidecar(sig, sender, receiver, sink)) =>
      Sized(sig) && Carried(wire, sender) && Carried(wire, receiver) && FeeShaped(wire, header.fee, sink)
    case (Deposit(_, _, _), DepositSidecar(receiver)) => Carried(wire, receiver)
    case (Withdrawal(header, _, _), WithdrawalSidecar(sig, sender, sink)) =>
      Sized(sig) && Carried(wire, sender) && FeeShaped(wire, header.fee, sink)
    case (ForcedWithdrawal(_, _), ForcedWithdrawalSidecar(sender)) => Carried(wire, sender)
    case _ => false
  }

  ghost predicate ShapedFor(wire: DigestWire, txns: seq<Transaction>, entries: seq<TxnSidecar>) {
    && |txns| == |entries|
    && forall i :: 0 <= i < |txns| ==> Shaped(wire, txns[i], entries[i])
  }

  // ----- round trips -----

  lemma AccountRoundTrip(x: Account, rest: seq<byte>)
    ensures TakeAccount(PutAccount(x) + rest) == Ok((x, rest))
  {
    hide U64Bytes;
    var s := PutAccount(x);
    assert (s + rest)[..48] == s && (s + rest)[48..] == rest;
    assert s[..8] == U64Bytes(x.nonce) && s[8..16] == U64Bytes(x.amount) && s[16..] == x.authAddress;
    Encoding.U64RoundTrip(x.nonce);
    Encoding.U64RoundTrip(x.amount);
  }

  lemma OptionalAccountRoundTrip(x: Option<Account>, rest: seq<byte>)
    ensures TakeOptionalAccount(PutOptionalAccount(x) + rest) == Ok((x, rest))
    ensures |PutOptionalAccount(x)| >= 1
  {
    hide TakeAccount, PutAccount;
    match x {
      case None => assert ([ABSENT] + rest)[1..] == rest;
      case Some(account) =>
        AccountRoundTrip(account, rest);
        assert ([PRESENT] + PutAccount(account) + rest)[1..] == PutAccount(account) + rest;
    }
  }

  lemma {:induction false} SiblingsRoundTrip(wire: DigestWire, siblings: seq<Digest>, rest: seq<byte>)
    requires forall d :: d in siblings ==> wire.decode(wire.encode(d)) == d
    ensures TakeSiblings(wire, PutSiblings(wire, siblings) + rest, |siblings|) == Ok((siblings, rest))
  {
    if siblings == [] {
      assert [] + rest == rest;
    } else {
      var word, tail := wire.encode(siblings[0]), PutSiblings(wire, siblings[1..]);
      SiblingsRoundTrip(wire, siblings[1..], rest);
      assert (word + tail) + rest == word + (tail + rest);
      Bytes32RoundTrip(word, tail + rest);
      assert siblings == [siblings[0]] + siblings[1..];
    }
  }

  lemma SlotRoundTrip(slot: Slot, rest: seq<byte>)
    ensures TakeSlot(PutSlot(slot) + rest) == Ok((slot, rest))
    ensures |PutSlot(slot)| >= 1
  {
    hide TakeAccount, PutAccount, TakeBytes32;
    match slot {
      case Own => assert ([SLOT_OWN] + rest)[1..] == rest;
      case Neighbor(address, account) =>
        AccountRoundTrip(account, rest);
        Bytes32RoundTrip(address, PutAccount(account) + rest);
        assert ([SLOT_NEIGHBOR] + (address + PutAccount(account)) + rest)[1..]
            == address + (PutAccount(account) + rest);
    }
  }

  lemma CountRoundTrip(count: u64, stride: nat, rest: seq<byte>)
    requires count * stride <= |rest|
    ensures TakeCount(PutVarint(count) + rest, stride) == Ok((count, rest))
  {
    hide TakeVarint, PutVarint;
    VarintRoundTrip(count, rest);
  }

  lemma WitnessRoundTrip(wire: DigestWire, w: LeafWitness, rest: seq<byte>)
    requires Carried(wire, w)
    ensures TakeWitness(wire, PutWitness(wire, w) + rest) == Ok((w, rest))
    ensures |PutWitness(wire, w)| >= MIN_ENCODED_ENTRY_SIZE
  {
    hide TakeOptionalAccount, PutOptionalAccount, TakeCount, PutVarint, TakeSiblings, PutSiblings, TakeSlot, PutSlot;
    var siblings := w.proof.siblings;
    var a, n := PutOptionalAccount(w.priorAccount), PutVarint(|siblings|);
    var words, slot := PutSiblings(wire, siblings), PutSlot(w.proof.slot);
    assert (a + (n + (words + slot))) + rest == a + (n + (words + (slot + rest)));
    OptionalAccountRoundTrip(w.priorAccount, n + (words + (slot + rest)));
    CountRoundTrip(|siblings|, 32, words + (slot + rest));
    SiblingsRoundTrip(wire, siblings, slot + rest);
    SlotRoundTrip(w.proof.slot, rest);
  }

  lemma FeeWitnessRoundTrip(wire: DigestWire, fee: u64, w: Option<LeafWitness>, rest: seq<byte>)
    requires FeeShaped(wire, fee, w)
    ensures TakeFeeWitness(wire, PutOptionalWitness(wire, w) + rest, fee) == Ok((w, rest))
  {
    hide TakeWitness, PutWitness, Carried;
    match w {
      case None => assert [] + rest == rest;
      case Some(present) => WitnessRoundTrip(wire, present, rest);
    }
  }

  lemma LengthPrefixedRoundTrip(bytes: seq<byte>, rest: seq<byte>)
    requires |bytes| <= MAX_U64
    ensures TakeLengthPrefixed(PutBytes(bytes) + rest) == Ok((bytes, rest))
  {
    hide TakeCount, PutVarint;
    assert (PutVarint(|bytes|) + bytes) + rest == PutVarint(|bytes|) + (bytes + rest);
    CountRoundTrip(|bytes|, 1, bytes + rest);
    assert (bytes + rest)[..|bytes|] == bytes && (bytes + rest)[|bytes|..] == rest;
  }

  lemma SchemeRoundTrip(scheme: Scheme)
    ensures SchemeFromIdentifier(scheme.Identifier()) == Some(scheme)
  {
    assert Managed.Identifier()[0] != Ed25519.Identifier()[0];
    assert Managed.Identifier()[0] != Falcon1024HybridEd25519.Identifier()[0];
    assert Ed25519.Identifier()[0] != Falcon1024HybridEd25519.Identifier()[0];
  }

  lemma SignatureRoundTrip(sig: Signature, rest: seq<byte>)
    requires Sized(sig)
    ensures TakeSignature(PutSignature(sig) + rest) == Ok((sig, rest))
  {
    hide TakeLengthPrefixed, PutBytes, SchemeFromIdentifier, Scheme.Identifier;
    SchemeRoundTrip(sig.scheme);
    var id, key, bytes := sig.scheme.Identifier(), PutBytes(sig.pubKey), PutBytes(sig.sig);
    var s := (id + (key + bytes)) + rest;
    assert s[..3] == id && s[3..] == key + (bytes + rest);
    LengthPrefixedRoundTrip(sig.pubKey, bytes + rest);
    LengthPrefixedRoundTrip(sig.sig, rest);
  }

  lemma EntryRoundTrip(wire: DigestWire, txn: Transaction, entry: TxnSidecar, rest: seq<byte>)
    requires Shaped(wire, txn, entry)
    ensures TakeEntry(wire, PutEntry(wire, entry) + rest, txn) == Ok((entry, rest))
    ensures |PutEntry(wire, entry)| >= MIN_ENCODED_ENTRY_SIZE
  {
    hide TakeSignature, PutSignature, TakeWitness, PutWitness, TakeFeeWitness, PutOptionalWitness, Carried, FeeShaped;
    match entry {
      case PaymentSidecar(sig, sender, receiver, sink) =>
        var a, b := PutSignature(sig), PutWitness(wire, sender);
        var c, d := PutWitness(wire, receiver), PutOptionalWitness(wire, sink);
        assert (a + (b + (c + d))) + rest == a + (b + (c + (d + rest)));
        SignatureRoundTrip(sig, b + (c + (d + rest)));
        WitnessRoundTrip(wire, sender, c + (d + rest));
        WitnessRoundTrip(wire, receiver, d + rest);
        FeeWitnessRoundTrip(wire, txn.header.fee, sink, rest);
      case DepositSidecar(receiver) =>
        WitnessRoundTrip(wire, receiver, rest);
      case WithdrawalSidecar(sig, sender, sink) =>
        var a, b, d := PutSignature(sig), PutWitness(wire, sender), PutOptionalWitness(wire, sink);
        assert (a + (b + d)) + rest == a + (b + (d + rest));
        SignatureRoundTrip(sig, b + (d + rest));
        WitnessRoundTrip(wire, sender, d + rest);
        FeeWitnessRoundTrip(wire, txn.header.fee, sink, rest);
      case ForcedWithdrawalSidecar(sender) =>
        WitnessRoundTrip(wire, sender, rest);
    }
  }

  lemma {:induction false} EntriesRoundTrip(wire: DigestWire, txns: seq<Transaction>, entries: seq<TxnSidecar>,
                                            rest: seq<byte>)
    requires ShapedFor(wire, txns, entries)
    ensures TakeEntries(wire, PutEntries(wire, entries) + rest, txns) == Ok((entries, rest))
    ensures |PutEntries(wire, entries)| >= MIN_ENCODED_ENTRY_SIZE * |entries|
    decreases |txns|
  {
    hide Shaped, TakeEntry, PutEntry;
    if txns == [] {
      assert [] + rest == rest;
    } else {
      var a, b := PutEntry(wire, entries[0]), PutEntries(wire, entries[1..]);
      EntryRoundTrip(wire, txns[0], entries[0], b + rest);
      EntriesRoundTrip(wire, txns[1..], entries[1..], rest);
      assert (a + b) + rest == a + (b + rest);
      assert entries == [entries[0]] + entries[1..];
    }
  }

  /** A sidecar in the shape its batch demands survives the wire. */
  lemma SidecarRoundTrip(wire: DigestWire, batch: Batch, s: Sidecar)
    requires ShapedFor(wire, batch.txns, s.entries) && |s.entries| <= MAX_U64
    ensures DecodeSidecar(wire, EncodeSidecar(wire, s), batch) == Ok(s)
  {
    hide TakeCount, PutVarint, TakeEntries, PutEntries, ShapedFor;
    ShapedLength(wire, batch.txns, s.entries);
    var n, body := |s.entries|, PutEntries(wire, s.entries);
    EntriesRoundTrip(wire, batch.txns, s.entries, []);
    assert body + [] == body;
    CountRoundTrip(n, MIN_ENCODED_ENTRY_SIZE, body);
    assert EncodeSidecar(wire, s)[1..] == PutVarint(n) + body;
  }

  lemma ShapedLength(wire: DigestWire, txns: seq<Transaction>, entries: seq<TxnSidecar>)
    requires ShapedFor(wire, txns, entries)
    ensures |txns| == |entries|
  {
  }
}
