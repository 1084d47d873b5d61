/** Replaying a batch against a running root, trusting nothing the sidecar says. */
module Replay {
  import opened Types
  import opened MerkleTree
  import opened MerkleProofs
  import opened Transactions
  import opened Chains
  import Semantics

  type Checked<T> = Result<T, VerificationError>

  function RootWith(a: Address, account: Option<Account>, proof: MerkleProof): Checked<Digest> {
    match RootFromProof(a, account, proof)
    case None => Err(MalformedProof)
    case Some(root) => Ok(root)
  }

  /** Ok exactly when w's own prior account, folded through w's proof, gives root back. */
  function ExpectPreState(a: Address, w: LeafWitness, root: Digest): Checked<()> {
    var implied :- RootWith(a, w.priorAccount, w.proof);
    if implied == root then Ok(()) else Err(StaleWitness)
  }

  /** Debit a payment or withdrawal from its sender, returning the next root. */
  function Debit(c: Crypto, domain: DeploymentDomain, txn: Transaction, w: LeafWitness, sig: Signature, root: Digest)
    : Checked<Digest>
    requires txn.Payment? || txn.Withdrawal?
  {
    var _ :- ExpectPreState(txn.header.sender, w, root);
    if w.priorAccount.None? then Err(UnknownSender)
    else
      var sender := w.priorAccount.value;
      if sender.nonce == MAX_U64 then Err(InvalidNonce)
      else
        var bumped := sender.(nonce := sender.nonce + 1);
        match VerifySignature(c, sig, bumped, BytesToSign(domain, txn, bumped.nonce))
        case Some(e) => Err(e)
        case None =>
          if bumped.amount < txn.amount || bumped.amount - txn.amount < txn.header.fee then Err(InsufficientFunds)
          else
            RootWith(txn.header.sender,
                     Some(bumped.(amount := bumped.amount - txn.amount - txn.header.fee)), w.proof)
  }

  /** Credit an address, creating its account when the witness shows none, and return the next root. */
  function Credit(receiver: Address, w: LeafWitness, amount: u64, root: Digest): Checked<Digest> {
    var _ :- ExpectPreState(receiver, w, root);
    var prior := if w.priorAccount.Some? then w.priorAccount.value else Account(0, 0, receiver);
    if prior.amount + amount > MAX_U64 then Err(AmountOverflow)
    else RootWith(receiver, Some(prior.(amount := prior.amount + amount)), w.proof)
  }

  function CreditFee(fee: u64, w: Option<LeafWitness>, root: Digest): Checked<Digest> {
    if fee == 0 && w.None? then Ok(root)
    else if fee != 0 && w.Some? then Credit(FEE_SINK, w.value, fee, root)
    else Err(SidecarKindMismatch)
  }

  datatype ReplayState = ReplayState(root: Digest, inboxChain: Digest, payouts: Semantics.Payouts)

  /** One transaction against its sidecar entry. */
  function ReplayTxn(c: Crypto, domain: DeploymentDomain, s: ReplayState, txn: Transaction, entry: TxnSidecar)
    : Checked<ReplayState>
  {
    match (txn, entry)
    case (Payment(header, receiver, amount), PaymentSidecar(sig, senderWitness, receiverWitness, feeWitness)) =>
      var r1 :- Debit(c, domain, txn, senderWitness, sig, s.root);
      var r2 :- Credit(receiver, receiverWitness, amount, r1);
      var r3 :- CreditFee(header.fee, feeWitness, r2);
      Ok(s.(root := r3))
    case (Deposit(_, receiver, amount), DepositSidecar(receiverWitness)) =>
      var r1 :- Credit(receiver, receiverWitness, amount, s.root);
      Ok(s.(root := r1, inboxChain := InboxDeposit(s.inboxChain, receiver, amount)))
    case (Withdrawal(header, recipient, amount), WithdrawalSidecar(sig, senderWitness, feeWitness)) =>
      if amount < MIN_WITHDRAWAL then Err(WithdrawalTooSmall)
      else
        var r1 :- Debit(c, domain, txn, senderWitness, sig, s.root);
        var r2 :- CreditFee(header.fee, feeWitness, r1);
        Ok(s.(root := r2, payouts := s.payouts + [(recipient, amount)]))
    case (ForcedWithdrawal(header, recipient), ForcedWithdrawalSidecar(w)) =>
      var _ :- ExpectPreState(header.sender, w, s.root);
      var chain := InboxRequest(s.inboxChain, header.sender, recipient);
      var balance := if w.priorAccount.Some? then w.priorAccount.value.amount else 0;
      if balance < MIN_WITHDRAWAL then Ok(s.(inboxChain := chain))
      else
        var prior := w.priorAccount.value;
        if prior.nonce == MAX_U64 then Err(InvalidNonce)
        else
          var r1 :- RootWith(header.sender, Some(prior.(amount := 0, nonce := prior.nonce + 1)), w.proof);
          Ok(ReplayState(r1, chain, s.payouts + [(recipient, balance)]))
    case _ => Err(SidecarKindMismatch)
  }

  function ReplayAll(c: Crypto, domain: DeploymentDomain, s: ReplayState,
                     txns: seq<Transaction>, entries: seq<TxnSidecar>): Checked<ReplayState>
    requires |txns| == |entries|
    decreases |txns|
  {
    if txns == [] then Ok(s)
    else
      var next :- ReplayTxn(c, domain, s, txns[0], entries[0]);
      ReplayAll(c, domain, next, txns[1..], entries[1..])
  }

  /** The root, inbox chain and payout chain a batch lands on. */
  datatype Landing = Landing(root: Digest, inboxChain: Digest, withdrawalChain: Digest)

  function VerifyBatch(c: Crypto, domain: DeploymentDomain, root: Digest, anchor: Digest,
                       batch: Batch, sidecar: Sidecar): Checked<Landing>
  {
    if |batch.txns| != |sidecar.entries| then Err(SidecarLengthMismatch)
    else
      var s :- ReplayAll(c, domain, ReplayState(root, anchor, []), batch.txns, sidecar.entries);
      Ok(Landing(s.root, s.inboxChain, WithdrawalChain(domain, s.payouts)))
  }

  /** The replay loop. */
  method ReplayBatch(c: Crypto, domain: DeploymentDomain, root: Digest, anchor: Digest, batch: Batch, sidecar: Sidecar)
    returns (result: Checked<Landing>)
    ensures result == VerifyBatch(c, domain, root, anchor, batch, sidecar)
  {
    var txns, entries := batch.txns, sidecar.entries;
    if |txns| != |entries| {
      return Err(SidecarLengthMismatch);
    }
    var s := ReplayState(root, anchor, []);
    assert txns[0..] == txns && entries[0..] == entries;
    for i := 0 to |txns|
      invariant ReplayAll(c, domain, s, txns[i..], entries[i..])
             == ReplayAll(c, domain, ReplayState(root, anchor, []), txns, entries)
    {
      assert txns[i..][1..] == txns[i + 1..] && entries[i..][1..] == entries[i + 1..];
      s :- ReplayTxn(c, domain, s, txns[i], entries[i]);
    }
    var _, chain := ComputeWithdrawalLinks(domain, s.payouts);
    return Ok(Landing(s.root, s.inboxChain, chain));
  }

  // ----- soundness: an accepted replay is the plain meaning of its transactions -----

  type Ledger = Semantics.Ledger

  /** sig authorises txn as its sender's next spend. */
  ghost predicate Authorizes(c: Crypto, domain: DeploymentDomain, m: Ledger, txn: Transaction, sig: Signature)
    requires txn.Payment? || txn.Withdrawal?
  {
    var a := txn.header.sender;
    && a in m
    && m[a].nonce < MAX_U64
    && VerifySignature(c, sig, m[a].(nonce := m[a].nonce + 1), BytesToSign(domain, txn, m[a].nonce + 1)) == None
  }

  lemma DebitIsTake(c: Crypto, domain: DeploymentDomain, m: Ledger, txn: Transaction, w: LeafWitness, sig: Signature)
    requires txn.Payment? || txn.Withdrawal?
    requires Debit(c, domain, txn, w, sig, Root(m)).Ok?
    ensures Authorizes(c, domain, m, txn, sig)
    ensures Semantics.Take(m, txn.header.sender, txn.amount, txn.header.fee).Some?
    ensures Debit(c, domain, txn, w, sig, Root(m)).value
         == Root(Semantics.Take(m, txn.header.sender, txn.amount, txn.header.fee).value)
  {
    hide RootFromProof, VerifySignature, BytesToSign, Root;
    var a := txn.header.sender;
    var x := w.priorAccount.value;
    WitnessBinding(m, a, w.priorAccount, w.proof,
                   x.(nonce := x.nonce + 1, amount := x.amount - txn.amount - txn.header.fee));
  }

  lemma CreditIsGive(m: Ledger, receiver: Address, w: LeafWitness, amount: u64)
    requires Credit(receiver, w, amount, Root(m)).Ok?
    ensures Semantics.Give(m, receiver, amount).Some?
    ensures Credit(receiver, w, amount, Root(m)).value == Root(Semantics.Give(m, receiver, amount).value)
  {
    hide RootFromProof, Root;
    var prior := if w.priorAccount.Some? then w.priorAccount.value else Account(0, 0, receiver);
    WitnessBinding(m, receiver, w.priorAccount, w.proof, prior.(amount := prior.amount + amount));
  }

  lemma CreditFeeIsGiveFee(m: Ledger, fee: u64, w: Option<LeafWitness>)
    requires CreditFee(fee, w, Root(m)).Ok?
    ensures Semantics.GiveFee(m, fee).Some?
    ensures CreditFee(fee, w, Root(m)).value == Root(Semantics.GiveFee(m, fee).value)
  {
    if fee != 0 {
      CreditIsGive(m, FEE_SINK, w.value, fee);
    }
  }

  /** The signature an entry carries, for the kinds that carry one. */
  function SigOf(entry: TxnSidecar): Option<Signature> {
    match entry
    case PaymentSidecar(sig, _, _, _) => Some(sig)
    case WithdrawalSidecar(sig, _, _) => Some(sig)
    case _ => None
  }

  /** A payment or withdrawal is signed for; the other kinds were authorised on the settlement chain. */
  ghost predicate SpendAuthorized(c: Crypto, domain: DeploymentDomain, m: Ledger, txn: Transaction,
                                  sig: Option<Signature>)
  {
    if txn.Payment? || txn.Withdrawal? then sig.Some? && Authorizes(c, domain, m, txn, sig.value)
    else sig.None?
  }

  /** Where a replay stands after inbox items and an outcome have been added to it. */
  ghost function Advance(s: ReplayState, items: seq<InboxItem>, o: Semantics.Outcome): ReplayState {
    ReplayState(Root(o.accounts), FoldInbox(s.inboxChain, items), s.payouts + o.payouts)
  }

  /** Where a batch's plain meaning says it lands. */
  ghost function LandingOf(domain: DeploymentDomain, anchor: Digest, txns: seq<Transaction>,
                           o: Semantics.Outcome): Landing
  {
    Landing(Root(o.accounts), FoldInbox(anchor, ItemsOf(txns)), WithdrawalChain(domain, o.payouts))
  }

  lemma TxnIsApply(c: Crypto, domain: DeploymentDomain, m: Ledger, s: ReplayState, txn: Transaction, entry: TxnSidecar)
    requires s.root == Root(m)
    requires ReplayTxn(c, domain, s, txn, entry).Ok?
    ensures Semantics.Apply(m, txn).Some?
    ensures ReplayTxn(c, domain, s, txn, entry) == Ok(Advance(s, ItemOf(txn), Semantics.Apply(m, txn).value))
    ensures SpendAuthorized(c, domain, m, txn, SigOf(entry))
  {
    hide Debit, Credit, CreditFee, Root, RootFromProof, Authorizes, Semantics.Give, Semantics.GiveFee;
    assert s.payouts + [] == s.payouts;
    if ItemOf(txn) != [] {
      FoldOne(s.inboxChain, ItemOf(txn)[0]);
    }
    match txn {
      case Payment(header, receiver, amount) =>
        var r1 := Debit(c, domain, txn, entry.senderWitness, entry.sig, s.root).value;
        var r2 := Credit(receiver, entry.receiverWitness, amount, r1).value;
        DebitIsTake(c, domain, m, txn, entry.senderWitness, entry.sig);
        var m1 := Semantics.Take(m, header.sender, amount, header.fee).value;
        CreditIsGive(m1, receiver, entry.receiverWitness, amount);
        CreditFeeIsGiveFee(Semantics.Give(m1, receiver, amount).value, header.fee, entry.feeSinkWitness);
      case Deposit(_, receiver, amount) =>
        CreditIsGive(m, receiver, entry.receiverWitness, amount);
      case Withdrawal(header, recipient, amount) =>
        DebitIsTake(c, domain, m, txn, entry.senderWitness, entry.sig);
        CreditFeeIsGiveFee(Semantics.Take(m, header.sender, amount, header.fee).value, header.fee,
                           entry.feeSinkWitness);
      case ForcedWithdrawal(header, recipient) =>
        ForcedIsApply(c, domain, m, s, txn, entry);
    }
  }

  lemma ForcedIsApply(c: Crypto, domain: DeploymentDomain, m: Ledger, s: ReplayState, txn: Transaction,
                      entry: TxnSidecar)
    requires s.root == Root(m) && txn.ForcedWithdrawal?
    requires ReplayTxn(c, domain, s, txn, entry).Ok?
    ensures Semantics.Apply(m, txn).Some?
    ensures ReplayTxn(c, domain, s, txn, entry) == Ok(Advance(s, ItemOf(txn), Semantics.Apply(m, txn).value))
  {
    hide RootFromProof, Root;
    FoldOne(s.inboxChain, RequestItem(txn.header.sender, txn.recipient));
    assert s.payouts + [] == s.payouts;
    var w := entry.senderWitness;
    var prior := if w.priorAccount.Some? then w.priorAccount.value else Account(0, 0, txn.header.sender);
    WitnessBinding(m, txn.header.sender, w.priorAccount, w.proof,
                   prior.(amount := 0, nonce := if prior.nonce == MAX_U64 then 0 else prior.nonce + 1));
  }

  /** Every spend in the list is authorised at the moment it is made. */
  ghost predicate AuthorizedRun(c: Crypto, domain: DeploymentDomain, m: Ledger,
                                txns: seq<Transaction>, sigs: seq<Option<Signature>>)
    decreases |txns|
  {
    && |txns| == |sigs|
    && (txns != [] ==>
          && SpendAuthorized(c, domain, m, txns[0], sigs[0])
          && Semantics.Apply(m, txns[0]).Some?
          && AuthorizedRun(c, domain, Semantics.Apply(m, txns[0]).value.accounts, txns[1..], sigs[1..]))
  }

  /** There is a signature for every payment and withdrawal in the list, good at the moment it is made. */
  ghost predicate SignedThroughout(c: Crypto, domain: DeploymentDomain, m: Ledger, txns: seq<Transaction>) {
    exists sigs :: AuthorizedRun(c, domain, m, txns, sigs)
  }

  lemma {:induction false} AuthorizedConcat(c: Crypto, domain: DeploymentDomain, m: Ledger,
                                            xs: seq<Transaction>, sigs: seq<Option<Signature>>,
                                            ys: seq<Transaction>, more: seq<Option<Signature>>)
    requires AuthorizedRun(c, domain, m, xs, sigs) && Semantics.Run(m, xs).Some?
    requires AuthorizedRun(c, domain, Semantics.Run(m, xs).value.accounts, ys, more)
    ensures AuthorizedRun(c, domain, m, xs + ys, sigs + more)
    decreases |xs|
  {
    hide SpendAuthorized, Semantics.Apply;
    if xs == [] {
      assert xs + ys == ys && sigs + more == more;
    } else {
      AuthorizedConcat(c, domain, Semantics.Apply(m, xs[0]).value.accounts, xs[1..], sigs[1..], ys, more);
      assert (xs + ys)[1..] == xs[1..] + ys && (sigs + more)[1..] == sigs[1..] + more;
    }
  }

  lemma SignedConcat(c: Crypto, domain: DeploymentDomain, m: Ledger, xs: seq<Transaction>, ys: seq<Transaction>)
    requires SignedThroughout(c, domain, m, xs) && Semantics.Run(m, xs).Some?
    requires SignedThroughout(c, domain, Semantics.Run(m, xs).value.accounts, ys)
    ensures SignedThroughout(c, domain, m, xs + ys)
  {
    hide AuthorizedRun, Semantics.Run;
    var sigs :| AuthorizedRun(c, domain, m, xs, sigs);
    var more :| AuthorizedRun(c, domain, Semantics.Run(m, xs).value.accounts, ys, more);
    AuthorizedConcat(c, domain, m, xs, sigs, ys, more);
  }

  function SigsOf(entries: seq<TxnSidecar>): seq<Option<Signature>> {
    seq(|entries|, i requires 0 <= i < |entries| => SigOf(entries[i]))
  }

  lemma {:induction false} ReplayIsRun(c: Crypto, domain: DeploymentDomain, m: Ledger, s: ReplayState,
                                       txns: seq<Transaction>, entries: seq<TxnSidecar>)
    requires |txns| == |entries| && s.root == Root(m)
    requires ReplayAll(c, domain, s, txns, entries).Ok?
    ensures Semantics.Run(m, txns).Some?
    ensures ReplayAll(c, domain, s, txns, entries) == Ok(Advance(s, ItemsOf(txns), Semantics.Run(m, txns).value))
    ensures AuthorizedRun(c, domain, m, txns, SigsOf(entries))
    decreases |txns|
  {
    hide ReplayTxn, Root, Semantics.Apply, SpendAuthorized, ItemOf;
    if txns == [] {
      assert s.payouts + [] == s.payouts;
    } else {
      var next := ReplayTxn(c, domain, s, txns[0], entries[0]).value;
      TxnIsApply(c, domain, m, s, txns[0], entries[0]);
      var first := Semantics.Apply(m, txns[0]).value;
      ReplayIsRun(c, domain, first.accounts, next, txns[1..], entries[1..]);
      FoldInboxConcat(s.inboxChain, ItemOf(txns[0]), ItemsOf(txns[1..]));
      var rest := Semantics.Run(first.accounts, txns[1..]).value;
      assert (s.payouts + first.payouts) + rest.payouts == s.payouts + (first.payouts + rest.payouts);
      assert SigsOf(entries)[1..] == SigsOf(entries[1..]);
    }
  }

  /**
   * Replay soundness. Whatever the sidecar holds, a batch accepted from the root of an account map
   * lands on the root of exactly the map its plain meaning gives, on the inbox chain over exactly
   * its inbox items, and on the chain over exactly its payouts, each spend having been signed for.
   */
  lemma ReplaySoundness(c: Crypto, domain: DeploymentDomain, m: Ledger, anchor: Digest, batch: Batch, sidecar: Sidecar)
    requires VerifyBatch(c, domain, Root(m), anchor, batch, sidecar).Ok?
    ensures Semantics.Run(m, batch.txns).Some?
    ensures VerifyBatch(c, domain, Root(m), anchor, batch, sidecar)
         == Ok(LandingOf(domain, anchor, batch.txns, Semantics.Run(m, batch.txns).value))
    ensures AuthorizedRun(c, domain, m, batch.txns, SigsOf(sidecar.entries))
  {
    hide ReplayAll, Root, AuthorizedRun;
    ReplayIsRun(c, domain, m, ReplayState(Root(m), anchor, []), batch.txns, sidecar.entries);
    var payouts := Semantics.Run(m, batch.txns).value.payouts;
    assert [] + payouts == payouts;
  }

  /** Two sidecars accepted for one batch from one state cannot lead anywhere different. */
  lemma SidecarCannotSteer(c: Crypto, domain: DeploymentDomain, m: Ledger, anchor: Digest, batch: Batch,
                           sidecar: Sidecar, other: Sidecar)
    requires VerifyBatch(c, domain, Root(m), anchor, batch, sidecar).Ok?
    requires VerifyBatch(c, domain, Root(m), anchor, batch, other).Ok?
    ensures VerifyBatch(c, domain, Root(m), anchor, batch, sidecar)
         == VerifyBatch(c, domain, Root(m), anchor, batch, other)
  {
    ReplaySoundness(c, domain, m, anchor, batch, sidecar);
    ReplaySoundness(c, domain, m, anchor, batch, other);
  }

  // ----- completeness: a valid, signed list always has a sidecar that replays -----

  /** The witness a tree over m makes for an address. */
  ghost function HonestWitness(m: Ledger, a: Address): LeafWitness {
    LeafWitness(Find(m, a), Prove(TreeOf(m), 0, a))
  }

  ghost function FeeWitness(m: Ledger, fee: u64): Option<LeafWitness> {
    if fee == 0 then None else Some(HonestWitness(m, FEE_SINK))
  }

  /** The entry a builder holding m makes for a valid transaction, each witness taken when it is needed. */
  ghost function HonestEntry(m: Ledger, txn: Transaction, sig: Signature): TxnSidecar
    requires Semantics.Apply(m, txn).Some?
  {
    match txn
    case Payment(header, receiver, amount) =>
      var m1 := Semantics.Take(m, header.sender, amount, header.fee).value;
      var m2 := Semantics.Give(m1, receiver, amount).value;
      PaymentSidecar(sig, HonestWitness(m, header.sender), HonestWitness(m1, receiver), FeeWitness(m2, header.fee))
    case Deposit(_, receiver, _) =>
      DepositSidecar(HonestWitness(m, receiver))
    case Withdrawal(header, _, amount) =>
      var m1 := Semantics.Take(m, header.sender, amount, header.fee).value;
      WithdrawalSidecar(sig, HonestWitness(m, header.sender), FeeWitness(m1, header.fee))
    case ForcedWithdrawal(header, _) =>
      ForcedWithdrawalSidecar(HonestWitness(m, header.sender))
  }

  lemma HonestWitnessMatches(m: Ledger, a: Address, x: Account)
    ensures ExpectPreState(a, HonestWitness(m, a), Root(m)) == Ok(())
    ensures RootWith(a, Some(x), HonestWitness(m, a).proof) == Ok(Root(m[a := x]))
  {
    hide RootFromProof, Root, Prove;
    HonestProofVerifies(m, a);
    WitnessBinding(m, a, Find(m, a), Prove(TreeOf(m), 0, a), x);
  }

  lemma TakeDebits(c: Crypto, domain: DeploymentDomain, m: Ledger, txn: Transaction, sig: Signature)
    requires txn.Payment? || txn.Withdrawal?
    requires Authorizes(c, domain, m, txn, sig)
    requires Semantics.Take(m, txn.header.sender, txn.amount, txn.header.fee).Some?
    ensures Debit(c, domain, txn, HonestWitness(m, txn.header.sender), sig, Root(m))
         == Ok(Root(Semantics.Take(m, txn.header.sender, txn.amount, txn.header.fee).value))
  {
    hide RootFromProof, Root, Prove, VerifySignature, BytesToSign, ExpectPreState, RootWith;
    var a := txn.header.sender;
    HonestWitnessMatches(m, a, Semantics.Take(m, a, txn.amount, txn.header.fee).value[a]);
  }

  lemma GiveCredits(m: Ledger, receiver: Address, amount: u64)
    requires Semantics.Give(m, receiver, amount).Some?
    ensures Credit(receiver, HonestWitness(m, receiver), amount, Root(m))
         == Ok(Root(Semantics.Give(m, receiver, amount).value))
  {
    hide RootFromProof, Root, Prove, ExpectPreState, RootWith;
    HonestWitnessMatches(m, receiver, Semantics.Give(m, receiver, amount).value[receiver]);
  }

  lemma GiveFeeCredits(m: Ledger, fee: u64)
    requires Semantics.GiveFee(m, fee).Some?
    ensures CreditFee(fee, FeeWitness(m, fee), Root(m)) == Ok(Root(Semantics.GiveFee(m, fee).value))
  {
    if fee != 0 {
      GiveCredits(m, FEE_SINK, fee);
    }
  }

  lemma HonestEntryReplays(c: Crypto, domain: DeploymentDomain, m: Ledger, s: ReplayState, txn: Transaction,
                           sig: Signature)
    requires s.root == Root(m) && Semantics.Apply(m, txn).Some?
    requires txn.Payment? || txn.Withdrawal? ==> Authorizes(c, domain, m, txn, sig)
    ensures ReplayTxn(c, domain, s, txn, HonestEntry(m, txn, sig))
         == Ok(Advance(s, ItemOf(txn), Semantics.Apply(m, txn).value))
  {
    hide Debit, Credit, CreditFee, Root, HonestWitness, FeeWitness, Authorizes, Semantics.Give, Semantics.GiveFee;
    assert s.payouts + [] == s.payouts;
    if ItemOf(txn) != [] {
      FoldOne(s.inboxChain, ItemOf(txn)[0]);
    }
    match txn {
      case Payment(header, receiver, amount) =>
        TakeDebits(c, domain, m, txn, sig);
        var m1 := Semantics.Take(m, header.sender, amount, header.fee).value;
        GiveCredits(m1, receiver, amount);
        GiveFeeCredits(Semantics.Give(m1, receiver, amount).value, header.fee);
      case Deposit(_, receiver, amount) =>
        GiveCredits(m, receiver, amount);
      case Withdrawal(header, recipient, amount) =>
        TakeDebits(c, domain, m, txn, sig);
        GiveFeeCredits(Semantics.Take(m, header.sender, amount, header.fee).value, header.fee);
      case ForcedWithdrawal(header, recipient) =>
        HonestForcedReplays(c, domain, m, s, txn, sig);
    }
  }

  lemma HonestForcedReplays(c: Crypto, domain: DeploymentDomain, m: Ledger, s: ReplayState, txn: Transaction,
                            sig: Signature)
    requires s.root == Root(m) && txn.ForcedWithdrawal? && Semantics.Apply(m, txn).Some?
    ensures ReplayTxn(c, domain, s, txn, HonestEntry(m, txn, sig))
         == Ok(Advance(s, ItemOf(txn), Semantics.Apply(m, txn).value))
  {
    hide RootFromProof, Root, Prove, ExpectPreState, RootWith;
    var a := txn.header.sender;
    var m1 := Semantics.Apply(m, txn).value.accounts;
    HonestWitnessMatches(m, a, Semantics.AccountAt(m1, a));
    FoldOne(s.inboxChain, RequestItem(a, txn.recipient));
    assert s.payouts + [] == s.payouts;
  }

  /** The entries a builder starting from m makes for a valid list. */
  ghost function HonestEntries(m: Ledger, txns: seq<Transaction>, sigs: seq<Signature>): (entries: seq<TxnSidecar>)
    requires |txns| == |sigs| && Semantics.Run(m, txns).Some?
    ensures |entries| == |txns|
    decreases |txns|
  {
    if txns == [] then []
    else
      [HonestEntry(m, txns[0], sigs[0])]
      + HonestEntries(Semantics.Apply(m, txns[0]).value.accounts, txns[1..], sigs[1..])
  }

  /** Every payment and withdrawal in the list is signed by its entry in sigs; other entries are ignored. */
  ghost predicate Signed(c: Crypto, domain: DeploymentDomain, m: Ledger, txns: seq<Transaction>, sigs: seq<Signature>)
    decreases |txns|
  {
    && |txns| == |sigs|
    && (txns != [] ==>
          && (txns[0].Payment? || txns[0].Withdrawal? ==> Authorizes(c, domain, m, txns[0], sigs[0]))
          && Semantics.Apply(m, txns[0]).Some?
          && Signed(c, domain, Semantics.Apply(m, txns[0]).value.accounts, txns[1..], sigs[1..]))
  }

  lemma {:induction false} HonestEntriesReplay(c: Crypto, domain: DeploymentDomain, m: Ledger, s: ReplayState,
                                               txns: seq<Transaction>, sigs: seq<Signature>)
    requires Semantics.Run(m, txns).Some? && Signed(c, domain, m, txns, sigs) && s.root == Root(m)
    ensures ReplayAll(c, domain, s, txns, HonestEntries(m, txns, sigs))
         == Ok(Advance(s, ItemsOf(txns), Semantics.Run(m, txns).value))
    decreases |txns|
  {
    hide ReplayTxn, Root, Semantics.Apply, Authorizes, ItemOf, HonestEntry;
    if txns == [] {
      assert s.payouts + [] == s.payouts;
    } else {
      HonestEntryReplays(c, domain, m, s, txns[0], sigs[0]);
      var first := Semantics.Apply(m, txns[0]).value;
      var next := Advance(s, ItemOf(txns[0]), first);
      HonestEntriesReplay(c, domain, first.accounts, next, txns[1..], sigs[1..]);
      FoldInboxConcat(s.inboxChain, ItemOf(txns[0]), ItemsOf(txns[1..]));
      var rest := Semantics.Run(first.accounts, txns[1..]).value;
      assert (s.payouts + first.payouts) + rest.payouts == s.payouts + (first.payouts + rest.payouts);
      assert HonestEntries(m, txns, sigs)[1..] == HonestEntries(first.accounts, txns[1..], sigs[1..]);
    }
  }

  /** Replay completeness: a valid list signed throughout replays from the witnesses its builder took. */
  lemma ReplayCompleteness(c: Crypto, domain: DeploymentDomain, m: Ledger, anchor: Digest,
                           txns: seq<Transaction>, sigs: seq<Signature>)
    requires Semantics.Run(m, txns).Some? && Signed(c, domain, m, txns, sigs)
    ensures VerifyBatch(c, domain, Root(m), anchor, Batch(txns), Sidecar(HonestEntries(m, txns, sigs)))
         == Ok(LandingOf(domain, anchor, txns, Semantics.Run(m, txns).value))
  {
    hide ReplayAll, Root, Signed;
    HonestEntriesReplay(c, domain, m, ReplayState(Root(m), anchor, []), txns, sigs);
    var payouts := Semantics.Run(m, txns).value.payouts;
    assert [] + payouts == payouts;
  }

  /** Fill in the signature slot of the kinds nobody signs, so that entries of both readings line up. */
  function Present(sig: Option<Signature>): Signature {
    match sig
    case Some(s) => s
    case None => Signature(Managed, [], [])
  }

  function PresentAll(sigs: seq<Option<Signature>>): seq<Signature> {
    if sigs == [] then [] else [Present(sigs[0])] + PresentAll(sigs[1..])
  }

  lemma {:induction false} AuthorizedIsSigned(c: Crypto, domain: DeploymentDomain, m: Ledger,
                                              txns: seq<Transaction>, sigs: seq<Option<Signature>>)
    requires AuthorizedRun(c, domain, m, txns, sigs)
    ensures Signed(c, domain, m, txns, PresentAll(sigs))
    decreases |txns|
  {
    hide Authorizes, Semantics.Apply;
    if txns != [] {
      AuthorizedIsSigned(c, domain, Semantics.Apply(m, txns[0]).value.accounts, txns[1..], sigs[1..]);
    }
  }

  // ----- who signed what -----

  /** The address whose key speaks for a: what its account says, or a itself before it has one. */
  function AuthorityOf(m: Ledger, a: Address): Address {
    if a in m then m[a].authAddress else a
  }

  /** sig speaks for authority and covers this spend, as the scheme it names checks such things. */
  predicate Signs(c: Crypto, domain: DeploymentDomain, authority: Address, spend: Semantics.SignedSpend,
                  sig: Signature)
  {
    && Semantics.NeedsSignature(spend.txn)
    && c.addressOf(sig.scheme, sig.pubKey) == authority
    && (sig.scheme == Managed
        || c.check(sig.scheme, sig.pubKey, sig.sig, BytesToSign(domain, spend.txn, spend.nonce)) == None)
  }

  /** Signature by signature, each spend of a list starting from m is signed for its sender. */
  predicate EachSigned(c: Crypto, domain: DeploymentDomain, m: Ledger, spends: seq<Semantics.SignedSpend>,
                       sigs: seq<Signature>)
  {
    && |spends| == |sigs|
    && forall i :: 0 <= i < |spends| ==>
         Signs(c, domain, AuthorityOf(m, spends[i].txn.header.sender), spends[i], sigs[i])
  }

  /** A valid spend is authorised exactly by the signatures of whoever speaks for its sender. */
  lemma AuthorizedIfSigned(c: Crypto, domain: DeploymentDomain, m: Ledger, txn: Transaction, sig: Signature)
    requires Semantics.NeedsSignature(txn) && Semantics.Apply(m, txn).Some?
    ensures Authorizes(c, domain, m, txn, sig)
       <==> Signs(c, domain, AuthorityOf(m, txn.header.sender),
                  Semantics.SignedSpend(txn, Semantics.SignedNonce(m, txn)), sig)
  {
    hide BytesToSign;
  }

  /** Authorised and affordable, read in plain terms. */
  lemma DebitMeans(c: Crypto, domain: DeploymentDomain, m: Ledger, txn: Transaction, sig: Signature)
    requires Semantics.NeedsSignature(txn)
    ensures Authorizes(c, domain, m, txn, sig)
            && Semantics.Take(m, txn.header.sender, txn.amount, txn.header.fee).Some?
       <==> Semantics.CanSpend(m, txn.header.sender, txn.amount + txn.header.fee)
            && Signs(c, domain, AuthorityOf(m, txn.header.sender),
                     Semantics.SignedSpend(txn, m[txn.header.sender].nonce + 1), sig)
  {
    hide BytesToSign;
  }

  /** Nothing in a batch changes who speaks for an address. */
  lemma AuthorityKept(m: Ledger, txn: Transaction, a: Address)
    requires Semantics.Apply(m, txn).Some?
    ensures AuthorityOf(Semantics.Apply(m, txn).value.accounts, a) == AuthorityOf(m, a)
  {
    hide Semantics.Take, Semantics.Give, Semantics.GiveFee, AuthorityOf;
    match txn {
      case Payment(header, receiver, amount) =>
        var m1 := Semantics.Take(m, header.sender, amount, header.fee).value;
        var m2 := Semantics.Give(m1, receiver, amount).value;
        TakeKeepsAuthority(m, header.sender, amount, header.fee, a);
        GiveKeepsAuthority(m1, receiver, amount, a);
        FeeKeepsAuthority(m2, header.fee, a);
      case Deposit(_, receiver, amount) =>
        GiveKeepsAuthority(m, receiver, amount, a);
      case Withdrawal(header, _, amount) =>
        TakeKeepsAuthority(m, header.sender, amount, header.fee, a);
        FeeKeepsAuthority(Semantics.Take(m, header.sender, amount, header.fee).value, header.fee, a);
      case ForcedWithdrawal(header, _) =>
        if Semantics.Balance(m, header.sender) >= MIN_WITHDRAWAL {
          TakeKeepsAuthority(m, header.sender, Semantics.Balance(m, header.sender), 0, a);
        }
    }
  }

  lemma TakeKeepsAuthority(m: Ledger, sender: Address, amount: u64, fee: u64, a: Address)
    requires Semantics.Take(m, sender, amount, fee).Some?
    ensures AuthorityOf(Semantics.Take(m, sender, amount, fee).value, a) == AuthorityOf(m, a)
  {
  }

  lemma GiveKeepsAuthority(m: Ledger, receiver: Address, amount: u64, a: Address)
    requires Semantics.Give(m, receiver, amount).Some?
    ensures AuthorityOf(Semantics.Give(m, receiver, amount).value, a) == AuthorityOf(m, a)
  {
  }

  lemma FeeKeepsAuthority(m: Ledger, fee: u64, a: Address)
    requires Semantics.GiveFee(m, fee).Some?
    ensures AuthorityOf(Semantics.GiveFee(m, fee).value, a) == AuthorityOf(m, a)
  {
    hide Semantics.Give, AuthorityOf;
    if fee != 0 {
      GiveKeepsAuthority(m, FEE_SINK, fee, a);
    }
  }

  /** The signatures of the transactions that need one, in order. */
  function SignaturesUsed(txns: seq<Transaction>, sigs: seq<Signature>): seq<Signature>
    requires |txns| == |sigs|
  {
    if txns == [] then []
    else (if Semantics.NeedsSignature(txns[0]) then [sigs[0]] else []) + SignaturesUsed(txns[1..], sigs[1..])
  }

  /** A place for each signature: those given at the transactions that need one, anything at the others. */
  function Spread(txns: seq<Transaction>, used: seq<Signature>): (sigs: seq<Signature>)
    ensures |sigs| == |txns|
    decreases |txns|
  {
    if txns == [] then []
    else if Semantics.NeedsSignature(txns[0]) && used != [] then [used[0]] + Spread(txns[1..], used[1..])
    else [Signature(Managed, [], [])] + Spread(txns[1..], used)
  }

  lemma {:induction false} SpreadUses(m: Ledger, txns: seq<Transaction>, used: seq<Signature>)
    requires Semantics.Run(m, txns).Some? && |used| == |Semantics.SignedSpends(m, txns)|
    ensures SignaturesUsed(txns, Spread(txns, used)) == used
    decreases |txns|
  {
    hide Semantics.Apply;
    if txns != [] {
      var m1 := Semantics.Apply(m, txns[0]).value.accounts;
      if Semantics.NeedsSignature(txns[0]) {
        SpreadUses(m1, txns[1..], used[1..]);
        assert used == [used[0]] + used[1..];
      } else {
        SpreadUses(m1, txns[1..], used);
      }
    }
  }

  lemma EachSignedFrame(c: Crypto, domain: DeploymentDomain, m: Ledger, m1: Ledger,
                        spends: seq<Semantics.SignedSpend>, sigs: seq<Signature>)
    requires forall a :: AuthorityOf(m, a) == AuthorityOf(m1, a)
    ensures EachSigned(c, domain, m, spends, sigs) <==> EachSigned(c, domain, m1, spends, sigs)
  {
    hide AuthorityOf, Signs;
  }

  lemma EachSignedCons(c: Crypto, domain: DeploymentDomain, m: Ledger, x: Semantics.SignedSpend,
                       spends: seq<Semantics.SignedSpend>, sig: Signature, sigs: seq<Signature>)
    ensures EachSigned(c, domain, m, [x] + spends, [sig] + sigs)
       <==> Signs(c, domain, AuthorityOf(m, x.txn.header.sender), x, sig) && EachSigned(c, domain, m, spends, sigs)
  {
    hide AuthorityOf, Signs;
    var xs, ss := [x] + spends, [sig] + sigs;
    assert forall i :: 1 <= i < |xs| ==> xs[i] == spends[i - 1];
    assert forall i :: 1 <= i < |ss| ==> ss[i] == sigs[i - 1];
    if EachSigned(c, domain, m, xs, ss) {
      assert xs[0] == x && ss[0] == sig;
      forall i | 0 <= i < |spends|
        ensures Signs(c, domain, AuthorityOf(m, spends[i].txn.header.sender), spends[i], sigs[i])
      {
        assert xs[i + 1] == spends[i] && ss[i + 1] == sigs[i];
      }
    }
  }

  /**
   * A valid list is signed throughout, read step by step with the witnesses of its moment, exactly when
   * each of its signed spends carries a signature by the key that speaks for its sender.
   */
  lemma {:induction false} SignedIsEachSigned(c: Crypto, domain: DeploymentDomain, m: Ledger,
                                              txns: seq<Transaction>, sigs: seq<Signature>)
    requires Semantics.Run(m, txns).Some? && |txns| == |sigs|
    ensures Signed(c, domain, m, txns, sigs)
       <==> EachSigned(c, domain, m, Semantics.SignedSpends(m, txns), SignaturesUsed(txns, sigs))
    decreases |txns|
  {
    hide Semantics.Apply, Authorizes, Signs, AuthorityOf, Semantics.SignedNonce, EachSigned;
    if txns == [] {
      NothingSigned(c, domain, m);
    } else {
      var txn, m1 := txns[0], Semantics.Apply(m, txns[0]).value.accounts;
      var spends, used := Semantics.SignedSpends(m1, txns[1..]), SignaturesUsed(txns[1..], sigs[1..]);
      SignedIsEachSigned(c, domain, m1, txns[1..], sigs[1..]);
      forall a
        ensures AuthorityOf(m, a) == AuthorityOf(m1, a)
      {
        AuthorityKept(m, txn, a);
      }
      EachSignedFrame(c, domain, m, m1, spends, used);
      if Semantics.NeedsSignature(txn) {
        AuthorizedIfSigned(c, domain, m, txn, sigs[0]);
        EachSignedCons(c, domain, m, Semantics.SignedSpend(txn, Semantics.SignedNonce(m, txn)), spends, sigs[0], used);
      } else {
        assert [] + used == used;
      }
    }
  }

  lemma NothingSigned(c: Crypto, domain: DeploymentDomain, m: Ledger)
    ensures EachSigned(c, domain, m, [], [])
  {
  }

  lemma {:induction false} PresentAllLength(sigs: seq<Option<Signature>>)
    ensures |PresentAll(sigs)| == |sigs|
  {
    if sigs != [] {
      PresentAllLength(sigs[1..]);
    }
  }

  /** In an authorised run each signed spend carries a signature by the key that speaks for its sender. */
  lemma SpendsAreSigned(c: Crypto, domain: DeploymentDomain, m: Ledger,
                        txns: seq<Transaction>, sigs: seq<Option<Signature>>)
    requires AuthorizedRun(c, domain, m, txns, sigs) && Semantics.Run(m, txns).Some?
    ensures |PresentAll(sigs)| == |txns|
    ensures EachSigned(c, domain, m, Semantics.SignedSpends(m, txns), SignaturesUsed(txns, PresentAll(sigs)))
  {
    hide AuthorizedRun, Semantics.Run, EachSigned, Signed, Semantics.SignedSpends;
    AuthorizedIsSigned(c, domain, m, txns, sigs);
    SignedLength(c, domain, m, txns, PresentAll(sigs));
    SignedIsEachSigned(c, domain, m, txns, PresentAll(sigs));
  }

  /**
   * Replay is exact: some sidecar makes a batch replay from a state precisely when the batch is valid
   * there and there is, for each spend in it that needs one, a signature by the key that speaks for
   * its sender, over that spend at its nonce.
   */
  lemma ReplayIsExact(c: Crypto, domain: DeploymentDomain, m: Ledger, anchor: Digest, txns: seq<Transaction>)
    ensures (exists sidecar :: VerifyBatch(c, domain, Root(m), anchor, Batch(txns), sidecar).Ok?)
       <==> (Semantics.Run(m, txns).Some? && exists sigs :: Signed(c, domain, m, txns, sigs))
    ensures (exists sidecar :: VerifyBatch(c, domain, Root(m), anchor, Batch(txns), sidecar).Ok?)
       <==> (Semantics.Run(m, txns).Some?
             && exists sigs :: EachSigned(c, domain, m, Semantics.SignedSpends(m, txns), sigs))
  {
    hide VerifyBatch, Root, AuthorizedRun, Signed, Semantics.Run, EachSigned, Semantics.SignedSpends;
    if exists sidecar :: VerifyBatch(c, domain, Root(m), anchor, Batch(txns), sidecar).Ok? {
      var sidecar :| VerifyBatch(c, domain, Root(m), anchor, Batch(txns), sidecar).Ok?;
      ReplaySoundness(c, domain, m, anchor, Batch(txns), sidecar);
      AuthorizedIsSigned(c, domain, m, txns, SigsOf(sidecar.entries));
      SpendsAreSigned(c, domain, m, txns, SigsOf(sidecar.entries));
    }
    if Semantics.Run(m, txns).Some? && exists sigs :: EachSigned(c, domain, m, Semantics.SignedSpends(m, txns), sigs) {
      var used :| EachSigned(c, domain, m, Semantics.SignedSpends(m, txns), used);
      EachSignedLength(c, domain, m, Semantics.SignedSpends(m, txns), used);
      SpreadUses(m, txns, used);
      SignedIsEachSigned(c, domain, m, txns, Spread(txns, used));
    }
    if Semantics.Run(m, txns).Some? && exists sigs :: Signed(c, domain, m, txns, sigs) {
      var sigs :| Signed(c, domain, m, txns, sigs);
      SignedLength(c, domain, m, txns, sigs);
      ReplayCompleteness(c, domain, m, anchor, txns, sigs);
    }
  }

  lemma EachSignedLength(c: Crypto, domain: DeploymentDomain, m: Ledger, spends: seq<Semantics.SignedSpend>,
                         sigs: seq<Signature>)
    requires EachSigned(c, domain, m, spends, sigs)
    ensures |spends| == |sigs|
  {
  }

  lemma SignedLength(c: Crypto, domain: DeploymentDomain, m: Ledger, txns: seq<Transaction>, sigs: seq<Signature>)
    requires Signed(c, domain, m, txns, sigs)
    ensures |txns| == |sigs|
  {
  }

  // ----- what a refusal says -----

  predicate BadWitness(e: VerificationError) {
    e == StaleWitness || e == MalformedProof
  }

  /** A witness that misstates an account is refused for that, before anything else is looked at. */
  lemma FalseWitnessesRefused(c: Crypto, domain: DeploymentDomain, m: Ledger, txn: Transaction, w: LeafWitness,
                              sig: Signature, receiver: Address, amount: u64)
    ensures Semantics.NeedsSignature(txn) && w.priorAccount != Find(m, txn.header.sender) ==>
              && Debit(c, domain, txn, w, sig, Root(m)).Err?
              && BadWitness(Debit(c, domain, txn, w, sig, Root(m)).error)
    ensures w.priorAccount != Find(m, receiver) ==>
              Credit(receiver, w, amount, Root(m)).Err? && BadWitness(Credit(receiver, w, amount, Root(m)).error)
  {
    hide RootFromProof, Root, VerifySignature, BytesToSign, Find;
    if Semantics.NeedsSignature(txn) {
      AcceptedWitnessIsTrue(m, txn.header.sender, w);
    }
    AcceptedWitnessIsTrue(m, receiver, w);
  }

  lemma AcceptedWitnessIsTrue(m: Ledger, a: Address, w: LeafWitness)
    ensures ExpectPreState(a, w, Root(m)).Ok? ==> w.priorAccount == Find(m, a)
    ensures ExpectPreState(a, w, Root(m)).Err? ==> BadWitness(ExpectPreState(a, w, Root(m)).error)
  {
    hide RootFromProof, Root;
    if ExpectPreState(a, w, Root(m)).Ok? {
      WitnessBinding(m, a, w.priorAccount, w.proof, Account(0, 0, a));
    }
  }

  /**
   * With a true witness a debit complains of the first of these that is so: no such sender, no nonce
   * left, a key that does not speak for it, a signature its scheme refuses, too little to spend.
   */
  lemma DebitAnswers(c: Crypto, domain: DeploymentDomain, m: Ledger, txn: Transaction, sig: Signature)
    requires Semantics.NeedsSignature(txn)
    ensures var a := txn.header.sender;
            var r := Debit(c, domain, txn, HonestWitness(m, a), sig, Root(m));
            if a !in m then r == Err(UnknownSender)
            else if m[a].nonce == MAX_U64 then r == Err(InvalidNonce)
            else
              var refused := c.check(sig.scheme, sig.pubKey, sig.sig, BytesToSign(domain, txn, m[a].nonce + 1));
              if c.addressOf(sig.scheme, sig.pubKey) != m[a].authAddress then r == Err(InvalidAuthAddress)
              else if sig.scheme != Managed && refused.Some? then r == Err(refused.value)
              else if !Semantics.CanSpend(m, a, txn.amount + txn.header.fee) then r == Err(InsufficientFunds)
              else r == Ok(Root(Semantics.Take(m, a, txn.amount, txn.header.fee).value))
  {
    hide RootFromProof, Root, Prove, BytesToSign, ExpectPreState, RootWith;
    var a := txn.header.sender;
    HonestWitnessMatches(m, a, Account(0, 0, a));
    if Semantics.Take(m, a, txn.amount, txn.header.fee).Some? {
      HonestWitnessMatches(m, a, Semantics.Take(m, a, txn.amount, txn.header.fee).value[a]);
    }
  }

  /** And a credit only of leaving more than fits. */
  lemma CreditAnswers(m: Ledger, receiver: Address, amount: u64)
    ensures Credit(receiver, HonestWitness(m, receiver), amount, Root(m))
         == if Semantics.Balance(m, receiver) + amount > MAX_U64 then Err(AmountOverflow)
            else Ok(Root(Semantics.Give(m, receiver, amount).value))
  {
    hide RootFromProof, Root, Prove, ExpectPreState, RootWith;
    HonestWitnessMatches(m, receiver, Account(0, 0, receiver));
    if Semantics.Give(m, receiver, amount).Some? {
      HonestWitnessMatches(m, receiver, Semantics.Give(m, receiver, amount).value[receiver]);
    }
  }

  // ----- reading the payouts back out -----

  /** The payouts of one transaction as its entry reports them. */
  function PayoutOf(txn: Transaction, entry: TxnSidecar): Semantics.Payouts {
    match (txn, entry)
    case (Withdrawal(_, recipient, amount), _) => [(recipient, amount)]
    case (ForcedWithdrawal(_, recipient), ForcedWithdrawalSidecar(w)) =>
      var balance := if w.priorAccount.Some? then w.priorAccount.value.amount else 0;
      if balance >= MIN_WITHDRAWAL then [(recipient, balance)] else []
    case _ => []
  }

  /** PayoutOf of each transaction and its entry, one after another. */
  function WithdrawalPayouts(txns: seq<Transaction>, entries: seq<TxnSidecar>): Semantics.Payouts {
    if txns == [] || entries == [] then []
    else PayoutOf(txns[0], entries[0]) + WithdrawalPayouts(txns[1..], entries[1..])
  }

  lemma {:induction false} ReplayQueuesPayouts(c: Crypto, domain: DeploymentDomain, s: ReplayState,
                                               txns: seq<Transaction>, entries: seq<TxnSidecar>)
    requires |txns| == |entries| && ReplayAll(c, domain, s, txns, entries).Ok?
    ensures ReplayAll(c, domain, s, txns, entries).value.payouts == s.payouts + WithdrawalPayouts(txns, entries)
    decreases |txns|
  {
    hide Debit, Credit, CreditFee;
    if txns == [] {
      assert s.payouts + [] == s.payouts;
    } else {
      var next := ReplayTxn(c, domain, s, txns[0], entries[0]).value;
      ReplayQueuesPayouts(c, domain, next, txns[1..], entries[1..]);
      assert next.payouts == s.payouts + PayoutOf(txns[0], entries[0]);
      assert (s.payouts + PayoutOf(txns[0], entries[0])) + WithdrawalPayouts(txns[1..], entries[1..])
          == s.payouts + WithdrawalPayouts(txns, entries);
    }
  }

  /**
   * The reporting function and the replay never disagree: the payouts read out of an accepted batch
   * and its sidecar are the ones its meaning makes, and their chain is the one committed.
   */
  lemma ReportedPayoutsAreCommitted(c: Crypto, domain: DeploymentDomain, m: Ledger, anchor: Digest, batch: Batch,
                                    sidecar: Sidecar)
    requires VerifyBatch(c, domain, Root(m), anchor, batch, sidecar).Ok?
    ensures Semantics.Run(m, batch.txns).Some?
    ensures WithdrawalPayouts(batch.txns, sidecar.entries) == Semantics.Run(m, batch.txns).value.payouts
    ensures WithdrawalChain(domain, WithdrawalPayouts(batch.txns, sidecar.entries))
         == VerifyBatch(c, domain, Root(m), anchor, batch, sidecar).value.withdrawalChain
  {
    hide Root, ReplayAll, AuthorizedRun, Semantics.Run;
    ReplaySoundness(c, domain, m, anchor, batch, sidecar);
    var payouts := WithdrawalPayouts(batch.txns, sidecar.entries);
    ReplayQueuesPayouts(c, domain, ReplayState(Root(m), anchor, []), batch.txns, sidecar.entries);
    assert [] + payouts == payouts;
    WithdrawalChainBinds(domain, domain, payouts, Semantics.Run(m, batch.txns).value.payouts);
  }
}
