/** The guest program: decode both halves, replay, and expose what a proof asserts. */
module Execution {
  import opened Types
  import opened MerkleTree
  import opened MerkleProofs
  import opened Transactions
  import opened Chains
  import opened Replay
  import opened Ledgers
  import Varint
  import BatchCodec
  import SidecarCodec
  import Semantics

  /** The six words a proof exposes. */
  datatype PublicValues = PublicValues(
    priorRoot: Digest, newRoot: Digest, batchCommitment: Digest,
    priorInboxChain: Digest, newInboxChain: Digest, withdrawalChain: Digest)

  datatype ExecutionError = Decode(decode: Varint.DecodeError) | Verification(verification: VerificationError)

  function Execute(c: Crypto, wire: DigestWire, domain: DeploymentDomain, priorRoot: Digest, anchor: Digest,
                   batchBytes: seq<byte>, sidecarBytes: seq<byte>): Result<PublicValues, ExecutionError>
  {
    match BatchCodec.DecodeBatch(batchBytes)
    case Err(e) => Err(Decode(e))
    case Ok(batch) =>
      match SidecarCodec.DecodeSidecar(wire, sidecarBytes, batch)
      case Err(e) => Err(Decode(e))
      case Ok(sidecar) =>
        match VerifyBatch(c, domain, priorRoot, anchor, batch, sidecar)
        case Err(e) => Err(Verification(e))
        case Ok(landing) =>
          Ok(PublicValues(priorRoot, landing.root, BatchCommitment(domain, batchBytes),
                          anchor, landing.inboxChain, landing.withdrawalChain))
  }

  /** What executing bytes from the root of m must expose, given what they decode to. */
  ghost function ValuesOf(domain: DeploymentDomain, m: Semantics.Ledger, anchor: Digest,
                          bytes: seq<byte>, txns: seq<Transaction>, o: Semantics.Outcome): PublicValues
  {
    PublicValues(Root(m), Root(o.accounts), BatchCommitment(domain, bytes),
                 anchor, FoldInbox(anchor, ItemsOf(txns)), WithdrawalChain(domain, o.payouts))
  }

  /**
   * What a proof means. Whatever bytes the prover fed the guest, if it finished from the root of an
   * account map then the batch bytes decode to transactions valid on that map and signed for
   * throughout, and the six words are fixed by those bytes alone.
   */
  lemma ExecutionSoundness(c: Crypto, wire: DigestWire, domain: DeploymentDomain, m: Semantics.Ledger, anchor: Digest,
                           batchBytes: seq<byte>, sidecarBytes: seq<byte>)
    requires Execute(c, wire, domain, Root(m), anchor, batchBytes, sidecarBytes).Ok?
    ensures BatchCodec.DecodeBatch(batchBytes).Ok?
    ensures Semantics.Run(m, BatchCodec.DecodeBatch(batchBytes).value.txns).Some?
    ensures var txns := BatchCodec.DecodeBatch(batchBytes).value.txns;
            && Execute(c, wire, domain, Root(m), anchor, batchBytes, sidecarBytes)
               == Ok(ValuesOf(domain, m, anchor, batchBytes, txns, Semantics.Run(m, txns).value))
            && SignedThroughout(c, domain, m, txns)
  {
    hide Root, VerifyBatch, BatchCodec.DecodeBatch, SidecarCodec.DecodeSidecar, AuthorizedRun;
    var batch := BatchCodec.DecodeBatch(batchBytes).value;
    var sidecar := SidecarCodec.DecodeSidecar(wire, sidecarBytes, batch).value;
    ReplaySoundness(c, domain, m, anchor, batch, sidecar);
  }

  // ----- every block the ledger builds executes -----

  function DigestsOfWitness(w: Option<LeafWitness>): seq<Digest> {
    match w
    case None => []
    case Some(present) => present.proof.siblings
  }

  /** Every digest an entry puts on the wire. */
  function DigestsOf(entry: TxnSidecar): seq<Digest> {
    match entry
    case PaymentSidecar(_, sender, receiver, sink) =>
      sender.proof.siblings + receiver.proof.siblings + DigestsOfWitness(sink)
    case DepositSidecar(receiver) => receiver.proof.siblings
    case WithdrawalSidecar(_, sender, sink) => sender.proof.siblings + DigestsOfWitness(sink)
    case ForcedWithdrawalSidecar(sender) => sender.proof.siblings
  }

  /** Digests keep their identity as 32 bytes: the idealised hash's one demand of the wire. */
  ghost predicate Distinguishes(wire: DigestWire, digests: seq<Digest>) {
    forall d :: d in digests ==> wire.decode(wire.encode(d)) == d
  }

  lemma HonestWitnessCarried(wire: DigestWire, m: Semantics.Ledger, a: Address)
    requires Distinguishes(wire, HonestWitness(m, a).proof.siblings)
    ensures SidecarCodec.Carried(wire, HonestWitness(m, a))
  {
    hide Prove, Root;
    HonestProofVerifies(m, a);
  }

  lemma FeeWitnessShaped(wire: DigestWire, m: Semantics.Ledger, fee: u64)
    requires Distinguishes(wire, DigestsOfWitness(FeeWitness(m, fee)))
    ensures SidecarCodec.FeeShaped(wire, fee, FeeWitness(m, fee))
  {
    hide HonestWitness, SidecarCodec.Carried, Distinguishes;
    if fee != 0 {
      HonestWitnessCarried(wire, m, FEE_SINK);
    }
  }

  lemma DistinguishesParts(wire: DigestWire, a: seq<Digest>, b: seq<Digest>)
    requires Distinguishes(wire, a + b)
    ensures Distinguishes(wire, a) && Distinguishes(wire, b)
  {
    forall d | d in a || d in b
      ensures wire.decode(wire.encode(d)) == d
    {
      assert d in a + b;
    }
  }

  lemma HonestEntryShaped(wire: DigestWire, m: Semantics.Ledger, txn: Transaction, sig: Signature)
    requires Semantics.Apply(m, txn).Some? && SidecarCodec.Sized(sig)
    requires Distinguishes(wire, DigestsOf(HonestEntry(m, txn, sig)))
    ensures SidecarCodec.Shaped(wire, txn, HonestEntry(m, txn, sig))
  {
    hide HonestWitness, FeeWitness, SidecarCodec.Carried, SidecarCodec.FeeShaped, Distinguishes, DigestsOfWitness,
      Semantics.Take, Semantics.Give, Semantics.GiveFee;
    match txn {
      case Payment(header, receiver, amount) =>
        var m1 := Semantics.Take(m, header.sender, amount, header.fee).value;
        var m2 := Semantics.Give(m1, receiver, amount).value;
        var a, b := HonestWitness(m, header.sender).proof.siblings, HonestWitness(m1, receiver).proof.siblings;
        DistinguishesParts(wire, a + b, DigestsOfWitness(FeeWitness(m2, header.fee)));
        DistinguishesParts(wire, a, b);
        HonestWitnessCarried(wire, m, header.sender);
        HonestWitnessCarried(wire, m1, receiver);
        FeeWitnessShaped(wire, m2, header.fee);
      case Deposit(_, receiver, _) =>
        HonestWitnessCarried(wire, m, receiver);
      case Withdrawal(header, _, amount) =>
        var m1 := Semantics.Take(m, header.sender, amount, header.fee).value;
        DistinguishesParts(wire, HonestWitness(m, header.sender).proof.siblings,
                           DigestsOfWitness(FeeWitness(m1, header.fee)));
        HonestWitnessCarried(wire, m, header.sender);
        FeeWitnessShaped(wire, m1, header.fee);
      case ForcedWithdrawal(header, _) =>
        HonestWitnessCarried(wire, m, header.sender);
    }
  }

  /** Every sidecar the ledger builds has the shape its batch demands, depth bound included. */
  lemma {:induction false} HonestEntriesShaped(wire: DigestWire, m: Semantics.Ledger, txns: seq<Transaction>,
                                               sigs: seq<Signature>)
    requires |txns| == |sigs| && Semantics.Run(m, txns).Some?
    requires forall sig :: sig in sigs ==> SidecarCodec.Sized(sig)
    requires forall e :: e in HonestEntries(m, txns, sigs) ==> Distinguishes(wire, DigestsOf(e))
    ensures SidecarCodec.ShapedFor(wire, txns, HonestEntries(m, txns, sigs))
    decreases |txns|
  {
    hide Semantics.Apply, HonestEntry, Distinguishes, DigestsOf, SidecarCodec.Shaped, SidecarCodec.Sized;
    if txns != [] {
      var m1 := Semantics.Apply(m, txns[0]).value.accounts;
      var entries, rest := HonestEntries(m, txns, sigs), HonestEntries(m1, txns[1..], sigs[1..]);
      assert entries[0] in entries && entries[1..] == rest;
      assert forall e :: e in rest ==> e in entries;
      HonestEntryShaped(wire, m, txns[0], sigs[0]);
      HonestEntriesShaped(wire, m1, txns[1..], sigs[1..]);
    }
  }

  /** The bytes of both halves of a block. */
  function BatchBytes(block: Block): seq<byte> {
    BatchCodec.EncodeBatch(block.batch)
  }

  function SidecarBytes(wire: DigestWire, block: Block): seq<byte> {
    SidecarCodec.EncodeSidecar(wire, block.sidecar)
  }

  /** A submission list the builder can be handed: headers from the constructors, sizes in memory. */
  ghost predicate WellFormed(txns: seq<Transaction>, sigs: seq<Signature>) {
    && |txns| == |sigs|
    && 2 * |txns| <= MAX_U64
    && (forall txn :: txn in txns ==> ConstructorHeader(txn))
    && (forall sig :: sig in sigs ==> SidecarCodec.Sized(sig))
  }

  /**
   * End-to-end completeness. Encode both halves of any block the ledger builds, hand the bytes to
   * the guest, and it finishes with exactly the block's roots, chains and commitment.
   */
  lemma BuiltBlocksExecute(c: Crypto, wire: DigestWire, domain: DeploymentDomain, m: Semantics.Ledger, chain: Digest,
                           txns: seq<Transaction>, sigs: seq<Signature>)
    requires WellFormed(txns, sigs) && Signed(c, domain, m, txns, sigs)
    requires Semantics.Run(m, txns).Some?
    requires forall e :: e in HonestEntries(m, txns, sigs) ==> Distinguishes(wire, DigestsOf(e))
    ensures var b := BlockOf(domain, m, chain, txns, sigs);
            Execute(c, wire, domain, b.priorRoot, chain, BatchBytes(b), SidecarBytes(wire, b))
            == Ok(PublicValues(b.priorRoot, b.newRoot, BatchCommitment(domain, BatchBytes(b)),
                               chain, b.newInboxChain, b.withdrawalChain))
  {
    hide Root, VerifyBatch, BatchCodec.DecodeBatch, BatchCodec.EncodeBatch, SidecarCodec.DecodeSidecar,
      SidecarCodec.EncodeSidecar, Signed, Distinguishes, DigestsOf, Semantics.Run, HonestEntries,
        SidecarCodec.ShapedFor;
    var b := BlockOf(domain, m, chain, txns, sigs);
    BatchCodec.BatchRoundTrip(b.batch);
    HonestEntriesShaped(wire, m, txns, sigs);
    SidecarCodec.SidecarRoundTrip(wire, b.batch, b.sidecar);
    ReplayCompleteness(c, domain, m, chain, txns, sigs);
  }

  // ----- errors decoding rules out -----

  /** An entry of the kind, and with the fee sink's witness exactly where, its transaction calls for. */
  predicate Fits(txn: Transaction, entry: TxnSidecar) {
    match (txn, entry)
    case (Payment(header, _, _), PaymentSidecar(_, _, _, sink)) => sink.Some? <==> header.fee != 0
    case (Deposit(_, _, _), DepositSidecar(_)) => true
    case (Withdrawal(header, _, _), WithdrawalSidecar(_, _, sink)) => sink.Some? <==> header.fee != 0
    case (ForcedWithdrawal(_, _), ForcedWithdrawalSidecar(_)) => true
    case _ => false
  }

  predicate AllFit(txns: seq<Transaction>, entries: seq<TxnSidecar>) {
    |txns| == |entries| && forall i :: 0 <= i < |txns| ==> Fits(txns[i], entries[i])
  }

  predicate Misaligned(e: VerificationError) {
    e == SidecarLengthMismatch || e == SidecarKindMismatch
  }

  /** The schemes' own checks complain of keys and signatures, not of the sidecar's layout. */
  ghost predicate ChecksSignaturesOnly(c: Crypto) {
    forall scheme, key, sig, message :: c.check(scheme, key, sig, message).Some? ==>
      !Misaligned(c.check(scheme, key, sig, message).value)
  }

  /** Whatever decodes is aligned with its batch, entry by entry. */
  lemma {:induction false} DecodedEntriesFit(wire: DigestWire, s: seq<byte>, txns: seq<Transaction>)
    requires SidecarCodec.TakeEntries(wire, s, txns).Ok?
    ensures AllFit(txns, SidecarCodec.TakeEntries(wire, s, txns).value.0)
    decreases |txns|
  {
    hide SidecarCodec.TakeEntry;
    if txns != [] {
      var (entry, rest) := SidecarCodec.TakeEntry(wire, s, txns[0]).value;
      DecodedEntryFits(wire, s, txns[0]);
      DecodedEntriesFit(wire, rest, txns[1..]);
    }
  }

  lemma DecodedEntryFits(wire: DigestWire, s: seq<byte>, txn: Transaction)
    requires SidecarCodec.TakeEntry(wire, s, txn).Ok?
    ensures Fits(txn, SidecarCodec.TakeEntry(wire, s, txn).value.0)
  {
    hide SidecarCodec.TakeSignature, SidecarCodec.TakeWitness;
  }

  lemma FittingTxnAligned(c: Crypto, domain: DeploymentDomain, s: ReplayState, txn: Transaction, entry: TxnSidecar)
    requires ChecksSignaturesOnly(c) && Fits(txn, entry)
    ensures ReplayTxn(c, domain, s, txn, entry).Err? ==> !Misaligned(ReplayTxn(c, domain, s, txn, entry).error)
  {
    hide RootFromProof, BytesToSign;
  }

  lemma {:induction false} FittingReplayAligned(c: Crypto, domain: DeploymentDomain, s: ReplayState,
                                                txns: seq<Transaction>, entries: seq<TxnSidecar>)
    requires ChecksSignaturesOnly(c) && AllFit(txns, entries)
    ensures ReplayAll(c, domain, s, txns, entries).Err? ==>
              !Misaligned(ReplayAll(c, domain, s, txns, entries).error)
    decreases |txns|
  {
    hide ReplayTxn, Fits, ChecksSignaturesOnly, Misaligned;
    if txns != [] {
      FittingTxnAligned(c, domain, s, txns[0], entries[0]);
      if ReplayTxn(c, domain, s, txns[0], entries[0]).Ok? {
        FittingReplayAligned(c, domain, ReplayTxn(c, domain, s, txns[0], entries[0]).value, txns[1..], entries[1..]);
      }
    }
  }

  /** No bytes make the guest fail for a sidecar of the wrong length or an entry of the wrong kind. */
  lemma MisalignmentIsCaughtDecoding(c: Crypto, wire: DigestWire, domain: DeploymentDomain, priorRoot: Digest,
                                     anchor: Digest, batchBytes: seq<byte>, sidecarBytes: seq<byte>)
    requires ChecksSignaturesOnly(c)
    ensures var r := Execute(c, wire, domain, priorRoot, anchor, batchBytes, sidecarBytes);
            r.Err? && r.error.Verification? ==> !Misaligned(r.error.verification)
  {
    hide BatchCodec.DecodeBatch, SidecarCodec.TakeEntries, ReplayAll, ChecksSignaturesOnly, Misaligned, AllFit;
    var batch := BatchCodec.DecodeBatch(batchBytes);
    if batch.Ok? && SidecarCodec.DecodeSidecar(wire, sidecarBytes, batch.value).Ok? {
      var sidecar := SidecarCodec.DecodeSidecar(wire, sidecarBytes, batch.value).value;
      var rest := SidecarBody(wire, sidecarBytes, batch.value);
      DecodedEntriesFit(wire, rest, batch.value.txns);
      AllFitLength(batch.value.txns, sidecar.entries);
      FittingReplayAligned(c, domain, ReplayState(priorRoot, anchor, []), batch.value.txns, sidecar.entries);
    }
  }

  lemma AllFitLength(txns: seq<Transaction>, entries: seq<TxnSidecar>)
    requires AllFit(txns, entries)
    ensures |txns| == |entries|
  {
  }

  /** The bytes a decoded sidecar's entries were read from. */
  lemma SidecarBody(wire: DigestWire, bytes: seq<byte>, batch: Batch) returns (rest: seq<byte>)
    requires SidecarCodec.DecodeSidecar(wire, bytes, batch).Ok?
    ensures SidecarCodec.TakeEntries(wire, rest, batch.txns).Ok?
    ensures SidecarCodec.TakeEntries(wire, rest, batch.txns).value.0
         == SidecarCodec.DecodeSidecar(wire, bytes, batch).value.entries
  {
    hide SidecarCodec.TakeEntries, Varint.TakeVarint;
    rest := Varint.TakeCount(bytes[1..], SidecarCodec.MIN_ENCODED_ENTRY_SIZE).value.1;
  }

  // ----- which batch bytes can be proved -----

  ghost predicate AllSized(sigs: seq<Signature>) {
    forall sig :: sig in sigs ==> SidecarCodec.Sized(sig)
  }

  /** The wire tells apart every digest an honest sidecar for these transactions would hold. */
  ghost predicate WireCarries(wire: DigestWire, m: Semantics.Ledger, txns: seq<Transaction>)
    requires Semantics.Run(m, txns).Some?
  {
    forall sigs, e :: |sigs| == |txns| && e in HonestEntries(m, txns, sigs) ==> Distinguishes(wire, DigestsOf(e))
  }

  lemma DecodedSignatureSized(s: seq<byte>)
    requires SidecarCodec.TakeSignature(s).Ok?
    ensures SidecarCodec.Sized(SidecarCodec.TakeSignature(s).value.0)
  {
    hide SidecarCodec.TakeLengthPrefixed;
    var rest := s[3..];
    LengthsAreU64(rest);
    LengthsAreU64(SidecarCodec.TakeLengthPrefixed(rest).value.1);
  }

  lemma LengthsAreU64(s: seq<byte>)
    ensures SidecarCodec.TakeLengthPrefixed(s).Ok? ==> |SidecarCodec.TakeLengthPrefixed(s).value.0| <= MAX_U64
  {
    hide Varint.TakeVarint;
    Varint.VarintBounds(s);
  }

  lemma {:induction false} DecodedEntriesSized(wire: DigestWire, s: seq<byte>, txns: seq<Transaction>)
    requires SidecarCodec.TakeEntries(wire, s, txns).Ok?
    ensures AllSized(PresentAll(SigsOf(SidecarCodec.TakeEntries(wire, s, txns).value.0)))
    decreases |txns|
  {
    hide SidecarCodec.TakeEntry, SidecarCodec.Sized;
    if txns != [] {
      var (entry, rest) := SidecarCodec.TakeEntry(wire, s, txns[0]).value;
      var entries := SidecarCodec.TakeEntries(wire, rest, txns[1..]).value.0;
      DecodedEntrySized(wire, s, txns[0]);
      DecodedEntriesSized(wire, rest, txns[1..]);
      var sigs := SigsOf([entry] + entries);
      assert sigs[0] == SigOf(entry) && sigs[1..] == SigsOf(entries);
      assert PresentAll(sigs) == [Present(sigs[0])] + PresentAll(sigs[1..]);
    }
  }

  lemma DecodedEntrySized(wire: DigestWire, s: seq<byte>, txn: Transaction)
    requires SidecarCodec.TakeEntry(wire, s, txn).Ok?
    ensures SidecarCodec.Sized(Present(SigOf(SidecarCodec.TakeEntry(wire, s, txn).value.0)))
  {
    hide SidecarCodec.TakeSignature, SidecarCodec.TakeWitness, SidecarCodec.TakeFeeWitness;
    if SidecarCodec.TakeSignature(s).Ok? {
      DecodedSignatureSized(s);
    }
  }

  lemma {:induction false} UsedAreSized(txns: seq<Transaction>, sigs: seq<Signature>)
    requires |txns| == |sigs| && AllSized(sigs)
    ensures AllSized(SignaturesUsed(txns, sigs))
  {
    hide SidecarCodec.Sized;
    if txns != [] {
      UsedAreSized(txns[1..], sigs[1..]);
    }
  }

  lemma {:induction false} SpreadIsSized(txns: seq<Transaction>, used: seq<Signature>)
    requires AllSized(used)
    ensures AllSized(Spread(txns, used))
    decreases |txns|
  {
    assert SidecarCodec.Sized(Signature(Managed, [], []));
    hide SidecarCodec.Sized;
    if txns != [] {
      if Semantics.NeedsSignature(txns[0]) && used != [] {
        SpreadIsSized(txns[1..], used[1..]);
      } else {
        SpreadIsSized(txns[1..], used);
      }
    }
  }

  /** One signature for each spend that needs one, each good, and each short enough to hold. */
  ghost predicate SignedBy(c: Crypto, domain: DeploymentDomain, m: Semantics.Ledger, txns: seq<Transaction>,
                           used: seq<Signature>)
    requires Semantics.Run(m, txns).Some?
  {
    EachSigned(c, domain, m, Semantics.SignedSpends(m, txns), used) && AllSized(used)
  }

  lemma ExecutedIsSigned(c: Crypto, wire: DigestWire, domain: DeploymentDomain, m: Semantics.Ledger, anchor: Digest,
                         batchBytes: seq<byte>, sidecarBytes: seq<byte>)
    requires Execute(c, wire, domain, Root(m), anchor, batchBytes, sidecarBytes).Ok?
    ensures BatchCodec.DecodeBatch(batchBytes).Ok?
    ensures var txns := BatchCodec.DecodeBatch(batchBytes).value.txns;
            Semantics.Run(m, txns).Some? && exists used :: SignedBy(c, domain, m, txns, used)
  {
    hide Root, VerifyBatch, BatchCodec.DecodeBatch, SidecarCodec.DecodeSidecar, AuthorizedRun, EachSigned,
      Semantics.Run,
      SidecarCodec.TakeEntries, Semantics.SignedSpends, AllSized;
    var batch := BatchCodec.DecodeBatch(batchBytes).value;
    var sidecar := SidecarCodec.DecodeSidecar(wire, sidecarBytes, batch).value;
    ReplaySoundness(c, domain, m, anchor, batch, sidecar);
    var sigs := PresentAll(SigsOf(sidecar.entries));
    SpendsAreSigned(c, domain, m, batch.txns, SigsOf(sidecar.entries));
    var rest := SidecarBody(wire, sidecarBytes, batch);
    DecodedEntriesSized(wire, rest, batch.txns);
    UsedAreSized(batch.txns, sigs);
    assert SignedBy(c, domain, m, batch.txns, SignaturesUsed(batch.txns, sigs));
  }

  /** The sidecar an honest prover writes for a valid batch, from the signatures of its spends. */
  ghost function HonestSidecar(wire: DigestWire, m: Semantics.Ledger, txns: seq<Transaction>, used: seq<Signature>)
    : seq<byte>
    requires Semantics.Run(m, txns).Some?
  {
    SidecarCodec.EncodeSidecar(wire, Sidecar(HonestEntries(m, txns, Spread(txns, used))))
  }

  lemma SignedExecutes(c: Crypto, wire: DigestWire, domain: DeploymentDomain, m: Semantics.Ledger, anchor: Digest,
                       batchBytes: seq<byte>, used: seq<Signature>)
    requires BatchCodec.DecodeBatch(batchBytes).Ok?
    requires Semantics.Run(m, BatchCodec.DecodeBatch(batchBytes).value.txns).Some?
    requires SignedBy(c, domain, m, BatchCodec.DecodeBatch(batchBytes).value.txns, used)
    requires WireCarries(wire, m, BatchCodec.DecodeBatch(batchBytes).value.txns)
    ensures var txns := BatchCodec.DecodeBatch(batchBytes).value.txns;
            Execute(c, wire, domain, Root(m), anchor, batchBytes, HonestSidecar(wire, m, txns, used)).Ok?
  {
    hide Root, VerifyBatch, BatchCodec.DecodeBatch, SidecarCodec.DecodeSidecar, SidecarCodec.EncodeSidecar,
      Signed, EachSigned, Semantics.Run, Semantics.SignedSpends, HonestEntries, SidecarCodec.ShapedFor, Distinguishes,
      DigestsOf;
    var txns := BatchCodec.DecodeBatch(batchBytes).value.txns;
    var sigs := Spread(txns, used);
    EachSignedLength(c, domain, m, Semantics.SignedSpends(m, txns), used);
    SpreadUses(m, txns, used);
    SignedIsEachSigned(c, domain, m, txns, sigs);
    SpreadIsSized(txns, used);
    HonestEntriesShaped(wire, m, txns, sigs);
    DecodedCountIsU64(batchBytes);
    SidecarCodec.SidecarRoundTrip(wire, Batch(txns), Sidecar(HonestEntries(m, txns, sigs)));
    ReplayCompleteness(c, domain, m, anchor, txns, sigs);
  }

  lemma DecodedCountIsU64(bytes: seq<byte>)
    requires BatchCodec.DecodeBatch(bytes).Ok?
    ensures |BatchCodec.DecodeBatch(bytes).value.txns| <= MAX_U64
  {
    hide Varint.TakeVarint, BatchCodec.TakeTxns;
    Varint.VarintBounds(bytes[1..]);
    var (count, rest) := Varint.TakeCount(bytes[1..], BatchCodec.MIN_ENCODED_TXN_SIZE).value;
    BatchCodec.DecodedHeaders(rest, [], count);
  }

  /**
   * What can be proved. From the root of an account map some private input makes the guest finish on
   * given batch bytes precisely when they decode to transactions valid there, with a signature for each
   * spend by the key that speaks for its sender.
   */
  lemma ExecutionIsExact(c: Crypto, wire: DigestWire, domain: DeploymentDomain, m: Semantics.Ledger, anchor: Digest,
                         batchBytes: seq<byte>)
    requires BatchCodec.DecodeBatch(batchBytes).Ok?
             && Semantics.Run(m, BatchCodec.DecodeBatch(batchBytes).value.txns).Some? ==>
               WireCarries(wire, m, BatchCodec.DecodeBatch(batchBytes).value.txns)
    ensures (exists sidecarBytes :: Execute(c, wire, domain, Root(m), anchor, batchBytes, sidecarBytes).Ok?)
       <==> && BatchCodec.DecodeBatch(batchBytes).Ok?
            && var txns := BatchCodec.DecodeBatch(batchBytes).value.txns;
              Semantics.Run(m, txns).Some? && exists used :: SignedBy(c, domain, m, txns, used)
  {
    hide Root, Execute, BatchCodec.DecodeBatch, Semantics.Run, SignedBy, WireCarries;
    if exists sidecarBytes :: Execute(c, wire, domain, Root(m), anchor, batchBytes, sidecarBytes).Ok? {
      var sidecarBytes :| Execute(c, wire, domain, Root(m), anchor, batchBytes, sidecarBytes).Ok?;
      ExecutedIsSigned(c, wire, domain, m, anchor, batchBytes, sidecarBytes);
    }
    if BatchCodec.DecodeBatch(batchBytes).Ok? {
      var txns := BatchCodec.DecodeBatch(batchBytes).value.txns;
      if Semantics.Run(m, txns).Some? && exists used :: SignedBy(c, domain, m, txns, used) {
        var used :| SignedBy(c, domain, m, txns, used);
        SignedExecutes(c, wire, domain, m, anchor, batchBytes, used);
      }
    }
  }
}
