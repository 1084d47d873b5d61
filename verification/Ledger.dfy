/** The sequencer's ledger: a map of accounts and the tree over it, written in step. */
module Ledgers {
  import opened Types
  import opened MerkleTree
  import opened Transactions
  import opened Chains
  import opened Replay
  import opened SparseMerkleTrees
  import Semantics

  /** A transaction as submitted. Exactly the kinds that spend on somebody's word carry a signature. */
  datatype Submission = Submission(txn: Transaction, sig: Option<Signature>)

  type SignedTransaction = s: Submission | (s.txn.Payment? || s.txn.Withdrawal?) <==> s.sig.Some?
    witness Submission(NewDeposit(ZERO_ADDRESS, 0), None)

  /** A batch with its sidecar, and the roots and chains it claims to run between. */
  datatype Block = Block(
    domain: DeploymentDomain,
    priorRoot: Digest, newRoot: Digest,
    priorInboxChain: Digest, newInboxChain: Digest,
    withdrawalChain: Digest,
    batch: Batch, sidecar: Sidecar)

  function TxnsOf(stxns: seq<SignedTransaction>): (txns: seq<Transaction>)
    ensures |txns| == |stxns|
  {
    if stxns == [] then [] else [stxns[0].txn] + TxnsOf(stxns[1..])
  }

  function SignaturesOf(stxns: seq<SignedTransaction>): (sigs: seq<Signature>)
    ensures |sigs| == |stxns|
  {
    if stxns == [] then [] else [Present(stxns[0].sig)] + SignaturesOf(stxns[1..])
  }

  /** VerifyBatch on a block's own halves, compared with the landing the block names. */
  function VerifyBlock(c: Crypto, block: Block): Checked<()> {
    var landing :- VerifyBatch(c, block.domain, block.priorRoot, block.priorInboxChain, block.batch, block.sidecar);
    if landing == Landing(block.newRoot, block.newInboxChain, block.withdrawalChain) then Ok(()) else Err(RootMismatch)
  }

  /** Whether txn may be included on m: valid there, and signed for if it has to be. */
  ghost predicate Includable(c: Crypto, domain: DeploymentDomain, m: Semantics.Ledger, txn: Transaction,
                             sig: Signature)
  {
    && (txn.Payment? || txn.Withdrawal? ==> Authorizes(c, domain, m, txn, sig))
    && Semantics.Apply(m, txn).Some?
  }

  /** The block an honest builder at m and chain makes of a list. */
  ghost function BlockOf(domain: DeploymentDomain, m: Semantics.Ledger, chain: Digest,
                         txns: seq<Transaction>, sigs: seq<Signature>): Block
    requires |txns| == |sigs| && Semantics.Run(m, txns).Some?
  {
    var o := Semantics.Run(m, txns).value;
    Block(domain, Root(m), Root(o.accounts), chain, FoldInbox(chain, ItemsOf(txns)),
          WithdrawalChain(domain, o.payouts), Batch(txns), Sidecar(HonestEntries(m, txns, sigs)))
  }

  lemma {:induction false} SignedRuns(c: Crypto, domain: DeploymentDomain, m: Semantics.Ledger,
                                      txns: seq<Transaction>, sigs: seq<Signature>)
    requires Signed(c, domain, m, txns, sigs)
    ensures Semantics.Run(m, txns).Some?
    decreases |txns|
  {
    hide Authorizes, Semantics.Apply;
    if txns != [] {
      SignedRuns(c, domain, Semantics.Apply(m, txns[0]).value.accounts, txns[1..], sigs[1..]);
    }
  }

  class Ledger {
    const domain: DeploymentDomain
    var accounts: Semantics.Ledger
    const tree: SparseMerkleTree
    var inboxChain: Digest

    /** The tree commits to exactly the accounts. */
    ghost predicate Valid()
      reads this, tree, tree.Repr
    {
      tree.Valid() && this !in tree.Repr && tree.Contents() == accounts
    }

    constructor (domain: DeploymentDomain)
      ensures Valid() && fresh(tree) && fresh(tree.Repr)
      ensures this.domain == domain && accounts == map[] && inboxChain == Zero
    {
      this.domain := domain;
      tree := new SparseMerkleTree();
      accounts := map[];
      inboxChain := Zero;
    }

    method StateRoot() returns (root: Digest)
      requires Valid()
      ensures root == Root(accounts)
    {
      root := tree.Root();
    }

    method InsertAccount(a: Address, x: Account)
      requires Valid()
      modifies this`accounts, tree, tree.Repr
      ensures Valid() && fresh(tree.Repr - old(tree.Repr))
      ensures accounts == old(accounts)[a := x]
    {
      tree.Update(a, Some(x));
      accounts := accounts[a := x];
    }

    /** The witness for a slot as it stands. */
    method Witness(a: Address) returns (w: LeafWitness)
      requires Valid()
      ensures w == HonestWitness(accounts, a)
    {
      var proof := tree.Proof(a);
      w := LeafWitness(Find(accounts, a), proof);
    }

    /** Take a spend from accounts, returning its witness from before; None, and no block, if it is not valid. */
    method Debit(c: Crypto, txn: Transaction, sig: Signature) returns (w: Option<LeafWitness>)
      requires Valid() && (txn.Payment? || txn.Withdrawal?)
      modifies this`accounts, tree, tree.Repr
      ensures w.Some? <==>
              && Authorizes(c, domain, old(accounts), txn, sig)
              && Semantics.Take(old(accounts), txn.header.sender, txn.amount, txn.header.fee).Some?
      ensures w.Some? <==>
              && Semantics.CanSpend(old(accounts), txn.header.sender, txn.amount + txn.header.fee)
              && Signs(c, domain, AuthorityOf(old(accounts), txn.header.sender),
                       Semantics.SignedSpend(txn, old(accounts)[txn.header.sender].nonce + 1), sig)
      ensures w.Some? ==>
              && Valid() && fresh(tree.Repr - old(tree.Repr))
              && accounts == Semantics.Take(old(accounts), txn.header.sender, txn.amount, txn.header.fee).value
              && w.value == HonestWitness(old(accounts), txn.header.sender)
    {
      hide Root, HonestWitness, VerifySignature, BytesToSign, Signs, AuthorityOf;
      DebitMeans(c, domain, accounts, txn, sig);
      var sender := txn.header.sender;
      var taken := Witness(sender);
      if sender !in accounts || accounts[sender].nonce == MAX_U64 {
        return None;
      }
      var account := accounts[sender].(nonce := accounts[sender].nonce + 1);
      if VerifySignature(c, sig, account, BytesToSign(domain, txn, account.nonce)) != None {
        return None;
      }
      if account.amount < txn.amount || account.amount - txn.amount < txn.header.fee {
        return None;
      }
      InsertAccount(sender, account.(amount := account.amount - txn.amount - txn.header.fee));
      return Some(taken);
    }

    /** Credit an address, returning the witness taken before the write. */
    method Credit(receiver: Address, amount: u64) returns (w: Option<LeafWitness>)
      requires Valid()
      modifies this`accounts, tree, tree.Repr
      ensures w.Some? <==> Semantics.Give(old(accounts), receiver, amount).Some?
      ensures w.Some? ==>
              && Valid() && fresh(tree.Repr - old(tree.Repr))
              && accounts == Semantics.Give(old(accounts), receiver, amount).value
              && w.value == HonestWitness(old(accounts), receiver)
    {
      hide Root, HonestWitness;
      var taken := Witness(receiver);
      var account := if receiver in accounts then accounts[receiver] else Account(0, 0, receiver);
      if account.amount + amount > MAX_U64 {
        return None;
      }
      InsertAccount(receiver, account.(amount := account.amount + amount));
      return Some(taken);
    }

    /** Credit the fee sink, when there is a fee. */
    method CreditFeeSink(fee: u64) returns (w: Option<Option<LeafWitness>>)
      requires Valid()
      modifies this`accounts, tree, tree.Repr
      ensures w.Some? <==> Semantics.GiveFee(old(accounts), fee).Some?
      ensures w.Some? ==>
              && Valid() && fresh(tree.Repr - old(tree.Repr))
              && accounts == Semantics.GiveFee(old(accounts), fee).value
              && w.value == FeeWitness(old(accounts), fee)
    {
      hide Root, HonestWitness;
      if fee == 0 {
        return Some(None);
      }
      var credited := Credit(FEE_SINK, fee);
      return if credited.Some? then Some(credited) else None;
    }

    method IncludePayment(c: Crypto, txn: Transaction, sig: Signature) returns (r: Option<TxnSidecar>)
      requires Valid() && txn.Payment?
      modifies this`accounts, tree, tree.Repr
      ensures r.Some? <==> Includable(c, domain, old(accounts), txn, sig)
      ensures r.Some? ==>
              && Valid() && fresh(tree.Repr - old(tree.Repr))
              && accounts == Semantics.Apply(old(accounts), txn).value.accounts
              && r.value == HonestEntry(old(accounts), txn, sig)
    {
      hide Root, HonestWitness, Authorizes, FeeWitness, Semantics.Give, Semantics.GiveFee, Semantics.Take;
      var sender := Debit(c, txn, sig);
      if sender.None? { return None; }
      // Credit reads accounts as Debit left them: receiver and sender may be one address.
      var credited := Credit(txn.receiver, txn.amount);
      if credited.None? { return None; }
      var sink := CreditFeeSink(txn.header.fee);
      if sink.None? { return None; }
      return Some(PaymentSidecar(sig, sender.value, credited.value, sink.value));
    }

    method IncludeDeposit(ghost c: Crypto, txn: Transaction, ghost sig: Signature) returns (r: Option<TxnSidecar>)
      requires Valid() && txn.Deposit?
      modifies this, tree, tree.Repr
      ensures r.Some? <==> Includable(c, domain, old(accounts), txn, sig)
      ensures r.Some? ==>
              && Valid() && fresh(tree.Repr - old(tree.Repr))
              && accounts == Semantics.Apply(old(accounts), txn).value.accounts
              && r.value == HonestEntry(old(accounts), txn, sig)
              && inboxChain == InboxDeposit(old(inboxChain), txn.receiver, txn.amount)
    {
      hide Root, HonestWitness, Semantics.Give;
      var credited := Credit(txn.receiver, txn.amount);
      if credited.None? { return None; }
      inboxChain := InboxDeposit(inboxChain, txn.receiver, txn.amount);
      return Some(DepositSidecar(credited.value));
    }

    method IncludeWithdrawal(c: Crypto, txn: Transaction, sig: Signature) returns (r: Option<TxnSidecar>)
      requires Valid() && txn.Withdrawal?
      modifies this`accounts, tree, tree.Repr
      ensures r.Some? <==> Includable(c, domain, old(accounts), txn, sig)
      ensures r.Some? ==>
              && Valid() && fresh(tree.Repr - old(tree.Repr))
              && accounts == Semantics.Apply(old(accounts), txn).value.accounts
              && r.value == HonestEntry(old(accounts), txn, sig)
    {
      hide Root, HonestWitness, Authorizes, FeeWitness, Semantics.GiveFee, Semantics.Take;
      if txn.amount < MIN_WITHDRAWAL { return None; }
      var sender := Debit(c, txn, sig);
      if sender.None? { return None; }
      var sink := CreditFeeSink(txn.header.fee);
      if sink.None? { return None; }
      return Some(WithdrawalSidecar(sig, sender.value, sink.value));
    }

    /** Empty an account the settlement chain was told to let out, if it holds enough to pay out. */
    method IncludeForced(ghost c: Crypto, txn: Transaction, ghost sig: Signature)
      returns (r: Option<(TxnSidecar, Semantics.Payouts)>)
      requires Valid() && txn.ForcedWithdrawal?
      modifies this, tree, tree.Repr
      ensures r.Some? <==> Includable(c, domain, old(accounts), txn, sig)
      ensures r.Some? ==>
              && Valid() && fresh(tree.Repr - old(tree.Repr))
              && accounts == Semantics.Apply(old(accounts), txn).value.accounts
              && r.value.0 == HonestEntry(old(accounts), txn, sig)
              && r.value.1 == Semantics.Apply(old(accounts), txn).value.payouts
              && inboxChain == InboxRequest(old(inboxChain), txn.header.sender, txn.recipient)
    {
      hide Root, HonestWitness, Semantics.Apply;
      var address := txn.header.sender;
      ForcedApplies(accounts, txn);
      var taken := Witness(address);
      var balance := if address in accounts then accounts[address].amount else 0;
      var payouts := [];
      if balance >= MIN_WITHDRAWAL {
        var account := accounts[address];
        if account.nonce == MAX_U64 { return None; }
        InsertAccount(address, account.(amount := 0, nonce := account.nonce + 1));
        payouts := [(txn.recipient, balance)];
      }
      inboxChain := InboxRequest(inboxChain, address, txn.recipient);
      return Some((ForcedWithdrawalSidecar(taken), payouts));
    }

    /** Apply one submission; None, and no block, if it is not valid. */
    method Include(c: Crypto, stxn: SignedTransaction)
      returns (r: Option<(TxnSidecar, Semantics.Payouts)>)
      requires Valid()
      modifies this, tree, tree.Repr
      ensures r.Some? <==> Includable(c, domain, old(accounts), stxn.txn, Present(stxn.sig))
      ensures r.Some? ==>
              && Valid() && fresh(tree.Repr - old(tree.Repr))
              && accounts == Semantics.Apply(old(accounts), stxn.txn).value.accounts
              && r.value.0 == HonestEntry(old(accounts), stxn.txn, Present(stxn.sig))
              && r.value.1 == Semantics.Apply(old(accounts), stxn.txn).value.payouts
              && inboxChain == FoldInbox(old(inboxChain), ItemOf(stxn.txn))
    {
      hide Root, HonestWitness, Authorizes, HonestEntry, Semantics.Give, Semantics.GiveFee, Semantics.Take;
      ghost var sig := Present(stxn.sig);
      if ItemOf(stxn.txn) != [] {
        FoldOne(inboxChain, ItemOf(stxn.txn)[0]);
      }
      match stxn.txn {
        case Payment(_, _, _) =>
          var entry := IncludePayment(c, stxn.txn, stxn.sig.value);
          return if entry.Some? then Some((entry.value, [])) else None;
        case Deposit(_, _, _) =>
          var entry := IncludeDeposit(c, stxn.txn, sig);
          return if entry.Some? then Some((entry.value, [])) else None;
        case Withdrawal(_, recipient, amount) =>
          var entry := IncludeWithdrawal(c, stxn.txn, stxn.sig.value);
          return if entry.Some? then Some((entry.value, [(recipient, amount)])) else None;
        case ForcedWithdrawal(_, _) =>
          r := IncludeForced(c, stxn.txn, sig);
      }
    }

    /** Apply transactions in order and split them into the two halves of a block. */
    method GetBlock(c: Crypto, stxns: seq<SignedTransaction>) returns (block: Option<Block>)
      requires Valid()
      modifies this, tree, tree.Repr
      ensures block.Some? <==> Signed(c, domain, old(accounts), TxnsOf(stxns), SignaturesOf(stxns))
      ensures block.Some? <==>
              && Semantics.Run(old(accounts), TxnsOf(stxns)).Some?
              && EachSigned(c, domain, old(accounts), Semantics.SignedSpends(old(accounts), TxnsOf(stxns)),
                            SignaturesUsed(TxnsOf(stxns), SignaturesOf(stxns)))
      ensures block.Some? ==>
              && Semantics.Run(old(accounts), TxnsOf(stxns)).Some?
              && Valid() && fresh(tree.Repr - old(tree.Repr))
              && accounts == Semantics.Run(old(accounts), TxnsOf(stxns)).value.accounts
              && inboxChain == FoldInbox(old(inboxChain), ItemsOf(TxnsOf(stxns)))
              && block.value
                 == BlockOf(domain, old(accounts), old(inboxChain), TxnsOf(stxns), SignaturesOf(stxns))
    {
      hide Root, HonestWitness, Authorizes, HonestEntry, Semantics.Apply, ItemOf, Signed, Semantics.Run, Built, BlockOf;
      hide EachSigned, Semantics.SignedSpends, SignaturesUsed;
      SignedMeans(c, domain, accounts, TxnsOf(stxns), SignaturesOf(stxns));
      var priorRoot := StateRoot();
      var priorInboxChain := inboxChain;
      var p := Partial(accounts, inboxChain, [], [], []);
      ghost var start := p;
      ghost var allTxns, allSigs := TxnsOf(stxns), SignaturesOf(stxns);
      BuiltStart(c, domain, start, allTxns, allSigs);
      var rest := stxns;
      while rest != []
        invariant Valid() && fresh(tree.Repr - old(tree.Repr))
        invariant p.accounts == accounts && p.inboxChain == inboxChain
        invariant Built(c, domain, start, allTxns, allSigs, p, TxnsOf(rest), SignaturesOf(rest))
        decreases |rest|
      {
        BuiltStep(c, domain, start, allTxns, allSigs, p, TxnsOf(rest), SignaturesOf(rest));
        var included := Include(c, rest[0]);
        if included.None? {
          return None;
        }
        p := Partial(accounts, inboxChain, p.txns + [rest[0].txn], p.entries + [included.value.0],
                     p.payouts + included.value.1);
        rest := rest[1..];
      }
      BuiltEnd(c, domain, start, allTxns, allSigs, p);
      var newRoot := StateRoot();
      var _, head := ComputeWithdrawalLinks(domain, p.payouts);
      return Some(Block(domain, priorRoot, newRoot, priorInboxChain, inboxChain, head,
                        Batch(p.txns), Sidecar(p.entries)));
    }
  }

  /** What building a block asks of its list, in terms of the signatures it carries. */
  lemma SignedMeans(c: Crypto, domain: DeploymentDomain, m: Semantics.Ledger, txns: seq<Transaction>,
                    sigs: seq<Signature>)
    requires |txns| == |sigs|
    ensures Signed(c, domain, m, txns, sigs) <==>
            && Semantics.Run(m, txns).Some?
            && EachSigned(c, domain, m, Semantics.SignedSpends(m, txns), SignaturesUsed(txns, sigs))
  {
    hide Signed, Semantics.Run, EachSigned, Semantics.SignedSpends;
    if Signed(c, domain, m, txns, sigs) {
      SignedRuns(c, domain, m, txns, sigs);
    }
    if Semantics.Run(m, txns).Some? {
      SignedIsEachSigned(c, domain, m, txns, sigs);
    }
  }

  /** What a forced withdrawal means, by what the account holds. */
  lemma ForcedApplies(m: Semantics.Ledger, txn: Transaction)
    requires txn.ForcedWithdrawal?
    ensures var a := txn.header.sender;
            var balance := if a in m then m[a].amount else 0;
            var applied := Semantics.Apply(m, txn);
            if balance < MIN_WITHDRAWAL then applied.Some? && applied.value.accounts == m && applied.value.payouts == []
            else if m[a].nonce == MAX_U64 then applied.None?
            else
              && applied.Some?
              && applied.value.accounts == m[a := m[a].(amount := 0, nonce := m[a].nonce + 1)]
              && applied.value.payouts == [(txn.recipient, balance)]
  {
  }

  /** A block half built: where the ledger stands and what has been collected so far. */
  datatype Partial = Partial(accounts: Semantics.Ledger, inboxChain: Digest,
                             txns: seq<Transaction>, entries: seq<TxnSidecar>, payouts: Semantics.Payouts)

  /** What is left to build from p completes what was asked of the start. */
  ghost predicate Built(c: Crypto, domain: DeploymentDomain, start: Partial, allTxns: seq<Transaction>,
                        allSigs: seq<Signature>,
                        p: Partial, txns: seq<Transaction>, sigs: seq<Signature>)
    requires |allTxns| == |allSigs| && |txns| == |sigs|
  {
    && allTxns == p.txns + txns
    && (Signed(c, domain, start.accounts, allTxns, allSigs) <==> Signed(c, domain, p.accounts, txns, sigs))
    && FoldInbox(start.inboxChain, ItemsOf(allTxns)) == FoldInbox(p.inboxChain, ItemsOf(txns))
    && (Semantics.Run(start.accounts, allTxns).Some? <==> Semantics.Run(p.accounts, txns).Some?)
    && (Semantics.Run(p.accounts, txns).Some? ==>
          && Semantics.Run(start.accounts, allTxns).value.accounts == Semantics.Run(p.accounts, txns).value.accounts
          && Semantics.Run(start.accounts, allTxns).value.payouts
             == p.payouts + Semantics.Run(p.accounts, txns).value.payouts
          && HonestEntries(start.accounts, allTxns, allSigs)
             == p.entries + HonestEntries(p.accounts, txns, sigs))
  }

  /** A half-built block with one more transaction in it. */
  ghost function After(p: Partial, txn: Transaction, sig: Signature): Partial
    requires Semantics.Apply(p.accounts, txn).Some?
  {
    var o := Semantics.Apply(p.accounts, txn).value;
    Partial(o.accounts, FoldInbox(p.inboxChain, ItemOf(txn)), p.txns + [txn],
            p.entries + [HonestEntry(p.accounts, txn, sig)], p.payouts + o.payouts)
  }

  lemma BuiltStart(c: Crypto, domain: DeploymentDomain, start: Partial, txns: seq<Transaction>, sigs: seq<Signature>)
    requires |txns| == |sigs| && start.txns == [] && start.entries == [] && start.payouts == []
    ensures Built(c, domain, start, txns, sigs, start, txns, sigs)
  {
    hide Semantics.Run, HonestEntries, Signed;
    if Semantics.Run(start.accounts, txns).Some? {
      var payouts := Semantics.Run(start.accounts, txns).value.payouts;
      assert [] + payouts == payouts;
    }
    assert [] + txns == txns;
  }

  lemma IncludableApplies(c: Crypto, domain: DeploymentDomain, m: Semantics.Ledger, txn: Transaction, sig: Signature)
    requires Includable(c, domain, m, txn, sig)
    ensures Semantics.Apply(m, txn).Some?
  {
  }

  lemma SignedStep(c: Crypto, domain: DeploymentDomain, m: Semantics.Ledger, txns: seq<Transaction>,
                   sigs: seq<Signature>)
    requires txns != [] && |txns| == |sigs|
    ensures Signed(c, domain, m, txns, sigs) <==>
            && Includable(c, domain, m, txns[0], sigs[0])
            && Signed(c, domain, Semantics.Apply(m, txns[0]).value.accounts, txns[1..], sigs[1..])
  {
    hide Authorizes, Semantics.Apply;
  }

  lemma RunStep(m: Semantics.Ledger, txns: seq<Transaction>, sigs: seq<Signature>)
    requires txns != [] && |txns| == |sigs| && Semantics.Apply(m, txns[0]).Some?
    ensures Semantics.Run(m, txns).Some? <==> Semantics.Run(Semantics.Apply(m, txns[0]).value.accounts, txns[1..]).Some?
    ensures Semantics.Run(m, txns).Some? ==>
              var o := Semantics.Apply(m, txns[0]).value;
              && Semantics.Run(m, txns).value == Semantics.Then(o, Semantics.Run(o.accounts, txns[1..]).value)
              && HonestEntries(m, txns, sigs)
                 == [HonestEntry(m, txns[0], sigs[0])] + HonestEntries(o.accounts, txns[1..], sigs[1..])
  {
    hide Semantics.Apply, HonestEntry;
  }

  lemma BuiltStep(c: Crypto, domain: DeploymentDomain, start: Partial, allTxns: seq<Transaction>,
                  allSigs: seq<Signature>,
                  p: Partial, txns: seq<Transaction>, sigs: seq<Signature>)
    requires |allTxns| == |allSigs| && |txns| == |sigs| && txns != []
    requires Built(c, domain, start, allTxns, allSigs, p, txns, sigs)
    ensures Signed(c, domain, start.accounts, allTxns, allSigs) ==> Includable(c, domain, p.accounts, txns[0], sigs[0])
    ensures Includable(c, domain, p.accounts, txns[0], sigs[0]) ==>
              Built(c, domain, start, allTxns, allSigs, After(p, txns[0], sigs[0]), txns[1..], sigs[1..])
  {
    hide Semantics.Apply, HonestEntry, Includable, ItemOf, Signed, Semantics.Run, HonestEntries, FoldInbox;
    SignedStep(c, domain, p.accounts, txns, sigs);
    if Includable(c, domain, p.accounts, txns[0], sigs[0]) {
      IncludableApplies(c, domain, p.accounts, txns[0], sigs[0]);
      var o := Semantics.Apply(p.accounts, txns[0]).value;
      RunStep(p.accounts, txns, sigs);
      FoldInboxConcat(p.inboxChain, ItemOf(txns[0]), ItemsOf(txns[1..]));
      assert [txns[0]] + txns[1..] == txns;
      Associate(p.txns, [txns[0]], txns[1..]);
      if Semantics.Run(o.accounts, txns[1..]).Some? {
        Associate(p.payouts, o.payouts, Semantics.Run(o.accounts, txns[1..]).value.payouts);
        Associate(p.entries, [HonestEntry(p.accounts, txns[0], sigs[0])],
                  HonestEntries(o.accounts, txns[1..], sigs[1..]));
      }
    }
  }

  lemma BuiltEnd(c: Crypto, domain: DeploymentDomain, start: Partial, allTxns: seq<Transaction>,
                 allSigs: seq<Signature>, p: Partial)
    requires |allTxns| == |allSigs| && Built(c, domain, start, allTxns, allSigs, p, [], [])
    ensures Signed(c, domain, start.accounts, allTxns, allSigs)
    ensures Semantics.Run(start.accounts, allTxns).Some?
    ensures p.accounts == Semantics.Run(start.accounts, allTxns).value.accounts
    ensures p.inboxChain == FoldInbox(start.inboxChain, ItemsOf(allTxns))
    ensures BlockOf(domain, start.accounts, start.inboxChain, allTxns, allSigs)
         == Block(domain, Root(start.accounts), Root(p.accounts), start.inboxChain, p.inboxChain,
                  WithdrawalChain(domain, p.payouts), Batch(p.txns), Sidecar(p.entries))
  {
    assert p.payouts + [] == p.payouts && p.entries + [] == p.entries && p.txns + [] == p.txns;
  }

  /** Every block the ledger builds verifies with no access to the ledger. */
  lemma BuiltBlocksVerify(c: Crypto, domain: DeploymentDomain, m: Semantics.Ledger, chain: Digest,
                          txns: seq<Transaction>, sigs: seq<Signature>)
    requires Signed(c, domain, m, txns, sigs)
    ensures Semantics.Run(m, txns).Some? && |txns| == |sigs|
    ensures VerifyBlock(c, BlockOf(domain, m, chain, txns, sigs)) == Ok(())
  {
    hide Root, HonestEntries, VerifyBatch, Semantics.Run;
    SignedRuns(c, domain, m, txns, sigs);
    ReplayCompleteness(c, domain, m, chain, txns, sigs);
  }

  /**
   * Any block claiming to start from the root of m verifies exactly when its sidecar replays its batch
   * and the roots and chains it names are those the batch means there; a false claim is all that
   * verifying adds to replaying.
   */
  lemma BlocksVerifyExactly(c: Crypto, m: Semantics.Ledger, block: Block)
    requires block.priorRoot == Root(m)
    ensures var r := VerifyBatch(c, block.domain, Root(m), block.priorInboxChain, block.batch, block.sidecar);
            var txns := block.batch.txns;
            && (r.Ok? ==> Semantics.Run(m, txns).Some?)
            && VerifyBlock(c, block)
               == if r.Err? then Err(r.error)
                  else
                    var o := Semantics.Run(m, txns).value;
                    if block.newRoot == Root(o.accounts)
                       && block.newInboxChain == FoldInbox(block.priorInboxChain, ItemsOf(txns))
                       && block.withdrawalChain == WithdrawalChain(block.domain, o.payouts)
                    then Ok(()) else Err(RootMismatch)
  {
    hide Root, VerifyBatch, Semantics.Run, FoldInbox, WithdrawalChain, AuthorizedRun;
    if VerifyBatch(c, block.domain, Root(m), block.priorInboxChain, block.batch, block.sidecar).Ok? {
      ReplaySoundness(c, block.domain, m, block.priorInboxChain, block.batch, block.sidecar);
    }
  }
}
