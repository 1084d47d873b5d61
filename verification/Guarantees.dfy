/** What every run of the contract guarantees, from the invariant that every call keeps. */
module Guarantees {
  import opened Types
  import opened MerkleTree
  import opened Transactions
  import opened Chains
  import opened Replay
  import opened Execution
  import opened Settlement
  import opened Runs
  import opened Invariants
  import opened Preservation
  import opened SettlementStep
  import BatchCodec
  import Semantics

  /** No call, by anyone, with any arguments and any evidence, breaks the invariant. */
  lemma StepKeeps(p: Deployment, w: World, call: Call)
    requires Inv(p, w) && Step(p, w, call).Some?
    ensures Inv(p, Step(p, w, call).value)
  {
    hide Inv, NoteCredit, NoteSettlement, Freeze, DropBatch, Refund, NextBoxCost;
    hide SettleBatch, PayWithdrawal, AcceptDeposit, RequestWithdrawal, OpenBatch, AccumulateChunk, SignalEscape,
      Exposed;
    hide ForceExit;
    var s, h, env := w.s, w.h.(round := call.env.round), call.env;
    var next := Step(p, w, call).value;
    LaterRound(p, s, w.h, call.env.round);
    match call.action {
      case Donate(amount) => DonateKeeps(p, s, h, amount);
      case DoDeposit(payment, recipient) =>
        DepositKeeps(p, s, h, env, payment, recipient);
        UnreadKeeps(p, next.s, next.h.(openings := h.openings), next.h.openings, h.claims);
      case DoRequest(payment, nonce, address, to, scheme, pubKey, signature) =>
        RequestKeeps(p, s, h, env, payment, nonce, address, to, scheme, pubKey, signature);
        UnreadKeeps(p, next.s, next.h.(openings := h.openings), next.h.openings, h.claims);
      case DoOpenBatch(length, target) => OpenKeeps(p, s, h, env, length, target);
      case DoAccumulateChunk(chunk) => ChunkKeeps(p, s, h, env, chunk);
      case DoVerifyBatch(e) => SettleKeeps(p, s, h, env, Exposed(p, e).value, e);
      case DoPayWithdrawal(payee, sum, tail, receiverBalance) =>
        PayWithdrawalKeeps(p, s, h, env, payee, sum, tail, receiverBalance);
      case DoSignalEscape => SignalKeeps(p, s, h, env);
      case DoExecuteEscape => FreezeKeeps(p, s, h);
      case DoCouncilEscape => FreezeKeeps(p, s, h);
      case DoAbandonBatch => DropBatchKeeps(p, s, h);
      case DoReclaimDeposit(index, receiverBalance) => ReclaimKeeps(p, s, h, index, receiverBalance);
      case DoPruneDeposit(index, receiverBalance) => PruneKeeps(p, s, h, index, receiverBalance);
      case DoPruneRequest(index, receiverBalance) => PruneKeeps(p, s, h, index, receiverBalance);
      case DoForceExit(claim, receiverBalance) =>
        ForceExitKeeps(p, s, h, claim, receiverBalance);
        UnreadKeeps(p, next.s, next.h.(claims := h.claims), h.openings, next.h.claims);
    }
  }

  /** The invariant holds after every run of a contract created with its base balance. */
  lemma {:induction false} RunsKeep(p: Deployment, w: World, calls: seq<Call>)
    requires Inv(p, w)
    ensures Inv(p, RunCalls(p, w, calls))
    decreases |calls|
  {
    hide Inv, Step;
    if calls != [] {
      match Step(p, w, calls[0]) {
        case None => RunsKeep(p, w, calls[1..]);
        case Some(next) =>
          StepKeeps(p, w, calls[0]);
          RunsKeep(p, next, calls[1..]);
      }
    }
  }

  /** Where a run of calls from creation stands. */
  function Reached(p: Deployment, balance: nat, calls: seq<Call>): World {
    RunCalls(p, Start(balance), calls)
  }

  lemma ReachedHolds(p: Deployment, balance: nat, calls: seq<Call>)
    requires balance >= p.baseMinBalance
    ensures Inv(p, Reached(p, balance, calls))
  {
    hide Inv;
    StartHolds(p, balance);
    RunsKeep(p, Start(balance), calls);
  }

  // ----- the record -----

  /** The bytes settled so far, a batch at a time, oldest first: all a newcomer is given. */
  function Record(batches: seq<Settled>): (record: seq<seq<byte>>)
    ensures |record| == |batches|
  {
    if batches == [] then [] else Record(batches[..|batches| - 1]) + [batches[|batches| - 1].bytes]
  }

  /** What a record means by itself: its last batch, decoded and run from where those before it left off. */
  function Rebuilt(record: seq<seq<byte>>): Option<Semantics.Outcome> {
    if record == [] then Some(Semantics.Outcome(map[], [], []))
    else
      match Rebuilt(record[..|record| - 1])
      case None => None
      case Some(prior) =>
        match BatchCodec.DecodeBatch(record[|record| - 1])
        case Err(_) => None
        case Ok(batch) => Semantics.Run(prior.accounts, batch.txns)
  }

  /** Every transaction in a record, in order. */
  function Decoded(record: seq<seq<byte>>): seq<Transaction> {
    if record == [] then []
    else
      Decoded(record[..|record| - 1])
      + match BatchCodec.DecodeBatch(record[|record| - 1])
        case Err(_) => []
        case Ok(batch) => batch.txns
  }

  /** A batch's recorded payouts are what its bytes pay, run where its turn came. */
  ghost predicate PaysItsBytes(batches: seq<Settled>, k: nat)
    requires k < |batches|
  {
    var o := Rebuilt(Record(batches[..k + 1]));
    o.Some? && o.value.payouts == batches[k].payouts
  }

  /** The history keeps nothing of the settled ledger that its record does not give back. */
  ghost predicate Rebuilds(h: History) {
    && Rebuilt(Record(h.settled)).Some?
    && Rebuilt(Record(h.settled)).value.accounts == h.accounts
    && Decoded(Record(h.settled)) == h.txns
    && forall k: nat :: k < |h.settled| ==> PaysItsBytes(h.settled, k)
  }

  lemma RecordSnoc(batches: seq<Settled>, b: Settled)
    ensures Record(batches + [b]) == Record(batches) + [b.bytes]
  {
    assert (batches + [b])[..|batches|] == batches;
  }

  /** One more batch, run from the ledger as it stands, is one more step of the rebuilding. */
  lemma RebuildsOneMore(h: History, b: Settled, o: Semantics.Outcome, h1: History)
    requires Rebuilds(h) && BatchCodec.DecodeBatch(b.bytes) == Ok(Batch(b.txns))
    requires Semantics.Run(h.accounts, b.txns) == Some(o) && b.payouts == o.payouts
    requires h1.settled == h.settled + [b] && h1.accounts == o.accounts && h1.txns == h.txns + b.txns
    ensures Rebuilds(h1)
  {
    hide BatchCodec.DecodeBatch, Semantics.Run, Record;
    RecordSnoc(h.settled, b);
    assert (Record(h.settled) + [b.bytes])[..|h.settled|] == Record(h.settled);
    forall k: nat | k < |h1.settled|
      ensures PaysItsBytes(h1.settled, k)
    {
      if k < |h.settled| {
        assert h1.settled[..k + 1] == h.settled[..k + 1];
        assert PaysItsBytes(h.settled, k);
      } else {
        assert h1.settled[..k + 1] == h1.settled;
      }
    }
  }

  lemma StepRebuilds(p: Deployment, w: World, call: Call)
    requires Inv(p, w) && Rebuilds(w.h) && Step(p, w, call).Some?
    ensures Rebuilds(Step(p, w, call).value.h)
  {
    hide Inv, Rebuilds, Act, NoteSettlement, NextBoxCost;
    var next := Step(p, w, call).value;
    if call.action.DoVerifyBatch? {
      SettlingRebuilds(p, w, call);
    } else {
      SameRecord(w.h, next.h);
    }
  }

  lemma SameRecord(h: History, h1: History)
    requires Rebuilds(h) && h1.settled == h.settled && h1.accounts == h.accounts && h1.txns == h.txns
    ensures Rebuilds(h1)
  {
    hide Rebuilt, Decoded, PaysItsBytes, Record;
  }

  lemma SettlingRebuilds(p: Deployment, w: World, call: Call)
    requires Inv(p, w) && Rebuilds(w.h) && Step(p, w, call).Some? && call.action.DoVerifyBatch?
    ensures Rebuilds(Step(p, w, call).value.h)
  {
    hide Inv, Rebuilds, Exposed, BatchCodec.DecodeBatch, Semantics.Run, NoteCredit, ItemsOf, Concat, ValuesOf,
      SignedThroughout, Answered;
    var s, h, e := w.s, w.h.(round := call.env.round), call.action.evidence;
    LaterRound(p, s, w.h, call.env.round);
    SettlementIsExact(p, s, h, call.env, Exposed(p, e).value, e);
    var txns := BatchCodec.DecodeBatch(e.batchBytes).value.txns;
    var o := Semantics.Run(h.accounts, txns).value;
    var h1 := Recorded(s, h, e.batchBytes, txns, o);
    SameRecord(w.h, h);
    RebuildsOneMore(h, h1.settled[|h.settled|], o, h1);
    NoteCreditSilent(s, h1, s.posting.sealedInboxCursor.value - s.settledInboxCursor);
    SameRecord(h1, NoteSettlement(s, h, e.batchBytes));
  }

  lemma {:induction false} RunRebuilds(p: Deployment, w: World, calls: seq<Call>)
    requires Inv(p, w) && Rebuilds(w.h)
    ensures Rebuilds(RunCalls(p, w, calls).h)
    decreases |calls|
  {
    hide Inv, Step, Rebuilds;
    if calls != [] {
      match Step(p, w, calls[0]) {
        case None => RunRebuilds(p, w, calls[1..]);
        case Some(next) =>
          StepKeeps(p, w, calls[0]);
          StepRebuilds(p, w, calls[0]);
          RunRebuilds(p, next, calls[1..]);
      }
    }
  }

  /** In every run the accounts, the transactions and every batch's payouts follow from the record alone. */
  lemma RecordRebuildsLedger(p: Deployment, balance: nat, calls: seq<Call>)
    requires balance >= p.baseMinBalance
    ensures Rebuilds(Reached(p, balance, calls).h)
    ensures var w := Reached(p, balance, calls);
            w.s.stateRoot == Root(Rebuilt(Record(w.h.settled)).value.accounts)
  {
    hide Inv, Rebuilt, Decoded, RunCalls, Root, Record;
    StartHolds(p, balance);
    StartRebuilds(balance);
    RunRebuilds(p, Start(balance), calls);
    SettledRootCommits(p, balance, calls);
  }

  lemma StartRebuilds(balance: nat)
    ensures Rebuilds(Start(balance).h)
  {
  }

  // ----- solvency -----

  /** In every run the settled root commits to exactly the accounts of the history. */
  lemma SettledRootCommits(p: Deployment, balance: nat, calls: seq<Call>)
    requires balance >= p.baseMinBalance
    ensures Reached(p, balance, calls).s.stateRoot == Root(Reached(p, balance, calls).h.accounts)
  {
    hide InboxOk, BoxesOk, BatchOk, PayoutOk, WatchOk, SettledOk, RefundsOk, ExitsOk, Solvent, Root, Reached,
      Semantics.Run;
    ReachedHolds(p, balance, calls);
  }

  /**
   * Solvency of every run: the app always holds its minimum balance, every balance not yet exited
   * under the settled root, every deposit not yet credited or refunded, and every payout not yet made.
   */
  lemma EveryRunIsSolvent(p: Deployment, balance: nat, calls: seq<Call>)
    requires balance >= p.baseMinBalance
    ensures var w := Reached(p, balance, calls);
            w.s.balance >= MinBalance(p, w.s)
                           + Semantics.Total(w.h.accounts - w.s.exits.Keys)
                           + Pending(w.s.inbox, w.s.settledInboxCursor, w.s.inboxCursor)
                           + Semantics.SumPayouts(w.h.owed)
  {
    hide InboxOk, BoxesOk, BatchOk, LedgerOk, PayoutOk, WatchOk, SettledOk, RefundsOk, ExitsOk, Semantics.Total,
      Pending,
      Reached, Semantics.SumPayouts, MinBalance;
    ReachedHolds(p, balance, calls);
  }

  /** A payout offered with the right tail is made, whoever the recipient is, unless the clock cannot move. */
  lemma PayoutsNeverFallShort(p: Deployment, w: World, env: Env, payee: L1Address, sum: u64, tail: Digest,
                              receiverBalance: nat)
    requires Inv(p, w)
    ensures PayWithdrawal(p, w.s, env, payee, sum, tail, receiverBalance).Some? <==>
            && w.s.pendingWithdrawals == Some(Payout(tail, payee, sum))
            && (env.sender == p.creator ==>
                  CreditEscapeProgress(p, w.s, 1).Some?)
  {
    hide BoxesOk, BatchOk, LedgerOk, PayoutOk, WatchOk, SettledOk, RefundsOk, ExitsOk, Pending, Semantics.Total,
      InboxOk;
    var s, h := w.s, w.h;
    if s.pendingWithdrawals == Some(Payout(tail, payee, sum)) {
      NextPayout(p, s, h, payee, sum, tail);
      NextIsDeliverable(p, s, h);
      var s1 := s.(pendingWithdrawals := if tail == PayoutEnd(p.domain) then None else Some(tail));
      var s2 := if env.sender == p.creator && CreditEscapeProgress(p, s1, 1).Some?
                then CreditEscapeProgress(p, s1, 1).value else s1;
      assert h.owed == [h.owed[0]] + h.owed[1..];
      PaySucceeds(p, s2, LiabilitiesOf(s, h.(owed := h.owed[1..])), payee, sum, receiverBalance);
    }
  }

  lemma NextIsDeliverable(p: Deployment, s: State, h: History)
    requires PayoutOk(p.domain, s.pendingWithdrawals, h.settled, h.paid, h.owed) && h.owed != []
    ensures h.owed[0].1 >= MIN_WITHDRAWAL
  {
  }

  /** A box's refund is always covered: it is made exactly where its guards hold and its payer can receive it. */
  lemma RefundsNeverFallShort(p: Deployment, w: World, index: u64, receiverBalance: nat)
    requires Inv(p, w) && index in w.s.inbox
    ensures PruneDeposit(p, w.s, index, receiverBalance).Some? <==>
            && w.s.inbox[index].kind == DepositKind && index < w.s.settledInboxCursor
            && CanReceive(p, w.s.inbox[index].payer, p.inboxBoxCost, receiverBalance)
    ensures PruneRequest(p, w.s, index, receiverBalance).Some? <==>
            && w.s.inbox[index].kind == RequestKind && (index < w.s.settledInboxCursor || w.s.escaped)
            && CanReceive(p, w.s.inbox[index].payer, p.inboxBoxCost, receiverBalance)
    ensures ReclaimDeposit(p, w.s, index, receiverBalance).Some? <==>
            && w.s.inbox[index].kind == DepositKind && index >= w.s.settledInboxCursor && w.s.escaped
            && CanReceive(p, w.s.inbox[index].payer, w.s.inbox[index].amount + p.inboxBoxCost, receiverBalance)
  {
    hide BatchOk, LedgerOk, PayoutOk, WatchOk, SettledOk, RefundsOk, ExitsOk, BoxesOk, Liabilities, Solvent,
      MinBalance, Pay;
    var s, h := w.s, w.h;
    PruneRequestItem(h.items, s, h, p.inboxBoxCost, index);
    BoxFits(h.items, s, h, p.inboxBoxCost, index);
    var amount := if s.settledInboxCursor <= index < s.inboxCursor then PendingAt(s.inbox, index) else 0;
    var s1 := s.(inbox := s.inbox - {index});
    RefundBooks(p, s, h, index, amount);
    PaySucceeds(p, s1, LiabilitiesOf(s1, h), s.inbox[index].payer, amount + p.inboxBoxCost, receiverBalance);
  }

  lemma BoxFits(items: seq<InboxItem>, s: State, h: History, boxCost: nat, index: u64)
    requires BoxesOk(items, s.inbox, s.inboxCursor, s.settledInboxCursor, s.escaped, h.round, boxCost)
    requires index in s.inbox
    ensures s.inbox[index].amount + boxCost <= MAX_U64
  {
  }

  /** An exit that proves its leaf and is worth its record is always paid, to any recipient that can receive it. */
  lemma ExitsNeverFallShort(p: Deployment, w: World, e: ExitClaim, receiverBalance: nat)
    requires Inv(p, w)
    ensures ForceExit(p, w.s, e, receiverBalance).Some? <==>
            && Exits(p, w.s, e) && e.account.amount > p.exitBoxCost
            && CanReceive(p, e.recipient, e.account.amount - p.exitBoxCost, receiverBalance)
  {
    hide InboxOk, BoxesOk, BatchOk, LedgerOk, PayoutOk, WatchOk, SettledOk, RefundsOk, ExitsOk, Liabilities, Solvent,
      MinBalance, Pay;
    var s, h := w.s, w.h;
    if Exits(p, s, e) && e.account.amount > p.exitBoxCost {
      RootKept(s, h);
      ExitClaimIsTrue(p, s, h.accounts, e);
      ExitBooks(p, s, h, e.address);
      var s1 := s.(exits := s.exits[e.address := e.account.amount]);
      PaySucceeds(p, s1, LiabilitiesOf(s1, h), e.recipient, e.account.amount - p.exitBoxCost, receiverBalance);
    }
  }

  // ----- the inbox -----

  /**
   * Inbox exactness. In every run the settled batches consume consecutive stretches of the inbox
   * from its first entry to the settled cursor; each batch's deposits and forced withdrawals are
   * exactly its stretch, in arrival order; and everything settled so far, run from an empty ledger,
   * is what the root commits to.
   */
  lemma InboxIsConsumedExactly(p: Deployment, balance: nat, calls: seq<Call>)
    requires balance >= p.baseMinBalance
    ensures var w := Reached(p, balance, calls);
            && w.s.settledInboxCursor <= w.s.inboxCursor == |w.h.items|
            && ItemsOf(w.h.txns) == w.h.items[..w.s.settledInboxCursor]
            && Semantics.Run(map[], w.h.txns).Some?
            && w.s.stateRoot == Root(Semantics.Run(map[], w.h.txns).value.accounts)
            && SettledOk(w.h.items, w.s.settledInboxCursor, w.h.settled)
            && w.h.txns == Decoded(Record(w.h.settled))
            && Rebuilt(Record(w.h.settled)).Some?
            && Rebuilt(Record(w.h.settled)).value.accounts == Semantics.Run(map[], w.h.txns).value.accounts
  {
    hide BoxesOk, BatchOk, PayoutOk, WatchOk, SettledOk, RefundsOk, ExitsOk, Solvent, Reached, Root, Semantics.Run,
      ItemsOf, Rebuilt, Decoded, Record, PaysItsBytes;
    ReachedHolds(p, balance, calls);
    RecordRebuildsLedger(p, balance, calls);
  }

  /** Until an escape the head of the queue is there to be read and nothing pending is older. */
  lemma HeadIsOldest(p: Deployment, w: World, i: u64)
    requires Inv(p, w) && !w.s.escaped && w.s.settledInboxCursor <= i < w.s.inboxCursor
    ensures w.s.settledInboxCursor in w.s.inbox && i in w.s.inbox
    ensures w.s.inbox[w.s.settledInboxCursor].round <= w.s.inbox[i].round
  {
    hide InboxOk, BatchOk, LedgerOk, PayoutOk, WatchOk, SettledOk, RefundsOk, ExitsOk, Solvent, ChainAt, RecordsItem;
  }

  /** Until an escape any payment that covers more than its box is taken, whatever else is going on. */
  lemma DepositsAreAccepted(p: Deployment, w: World, env: Env, payment: GroupPayment, recipient: Address)
    requires Inv(p, w)
    ensures AcceptDeposit(p, w.s, env, payment, recipient).Some? <==>
            && !w.s.escaped && payment.sender != p.app && payment.receiver == p.app
            && payment.amount > p.inboxBoxCost && w.s.inboxCursor < MAX_U64
  {
    hide BoxesOk, BatchOk, LedgerOk, PayoutOk, WatchOk, SettledOk, RefundsOk, ExitsOk, Liabilities, InboxOk, MinBalance;
    CursorFree(w.h.items, w.s, w.h, p.inboxBoxCost);
    EntryIsFunded(p, w, payment.amount);
  }

  /** Until an escape a request is taken exactly when it pays for its box and its account's key signed it. */
  lemma RequestsAreAccepted(p: Deployment, w: World, env: Env, payment: GroupPayment, nonce: u64, a: Address,
                            to: L1Address, scheme: seq<byte>, pubKey: seq<byte>, signature: seq<byte>)
    requires Inv(p, w)
    ensures RequestWithdrawal(p, w.s, env, payment, nonce, a, to, scheme, pubKey, signature).Some? <==>
            && !w.s.escaped && payment.sender != p.app && payment.receiver == p.app
            && payment.amount == p.inboxBoxCost && w.s.inboxCursor < MAX_U64
            && nonce == w.s.requestCursor < MAX_U64
            && scheme == Ed25519.Identifier() && p.crypto.addressOf(Ed25519, pubKey) == a
            && p.crypto.avmEd25519(RequestMessage(p, nonce, a, to), signature, pubKey)
  {
    hide BoxesOk, BatchOk, LedgerOk, PayoutOk, WatchOk, SettledOk, RefundsOk, ExitsOk, Liabilities, InboxOk, MinBalance,
      RequestMessage;
    CursorFree(w.h.items, w.s, w.h, p.inboxBoxCost);
    EntryIsFunded(p, w, payment.amount);
  }

  predicate OneMoreBox(s: State, s1: State, payment: nat) {
    && s1.inbox.Keys == s.inbox.Keys + {s.inboxCursor} && s1.exits == s.exits
    && s1.balance == s.balance + payment
  }

  /** A payment of at least a box's price keeps the app above its minimum once the box stands. */
  lemma EntryIsFunded(p: Deployment, w: World, payment: u64)
    requires Inv(p, w) && w.s.inboxCursor !in w.s.inbox
    ensures forall s1: State ::
              payment >= p.inboxBoxCost && OneMoreBox(w.s, s1, payment) ==> s1.balance >= MinBalance(p, s1)
  {
    hide BoxesOk, BatchOk, LedgerOk, PayoutOk, WatchOk, SettledOk, RefundsOk, ExitsOk, InboxOk, SignedThroughout;
    hide Liabilities, MinBalance, OneMoreBox;
    forall s1: State | payment >= p.inboxBoxCost && OneMoreBox(w.s, s1, payment)
      ensures s1.balance >= MinBalance(p, s1)
    {
      OneMorePrice(p, w.s, s1, payment);
    }
  }

  lemma OneMorePrice(p: Deployment, s: State, s1: State, payment: nat)
    requires s.inboxCursor !in s.inbox && OneMoreBox(s, s1, payment)
    ensures MinBalance(p, s1) == MinBalance(p, s) + p.inboxBoxCost && s1.balance == s.balance + payment
  {
    hide MinBalance;
    assert |s1.inbox.Keys| == |s.inbox.Keys| + 1;
    PriceByCount(p, s, s1);
  }

  lemma PriceByCount(p: Deployment, s: State, s1: State)
    requires |s1.inbox.Keys| == |s.inbox.Keys| + 1 && s1.exits == s.exits
    ensures MinBalance(p, s1) == MinBalance(p, s) + p.inboxBoxCost
  {
    var n := |s.inbox.Keys|;
    assert |s.inbox| == n && |s1.inbox| == n + 1;
    OneMoreTimes(p.inboxBoxCost, n);
  }

  lemma OneMoreTimes(price: nat, n: nat)
    ensures price * (n + 1) == price * n + price
  {
  }

  /** Until an escape any prefix of the pending inbox can be sealed, and the checkpoint is its fold. */
  lemma AnyPrefixSeals(p: Deployment, w: World, env: Env, length: u64, target: u64)
    requires Inv(p, w)
    ensures OpenBatch(p, w.s, env, length, target).Some? <==>
            && env.sender == p.creator && !w.s.escaped && w.s.posting.batchLength.None?
            && w.h.owed == [] && w.s.settledInboxCursor <= target <= w.s.inboxCursor
    ensures OpenBatch(p, w.s, env, length, target).Some? ==>
            && target <= |w.h.items|
            && OpenBatch(p, w.s, env, length, target).value.posting.sealedInboxChain == Some(ChainAt(w.h.items, target))
  {
    hide BatchOk, LedgerOk, WatchOk, SettledOk, RefundsOk, ExitsOk, Solvent, ChainAt, RecordsItem;
  }

  // ----- payouts -----

  /**
   * Payout exactness. In every run the payments made since the last settlement are a prefix, in order,
   * of what that batch's bytes pay when the record up to it is rebuilt; what remains is what the
   * pending chain still names; and no batch is open while anything remains.
   */
  lemma PayoutsAreAPrefix(p: Deployment, balance: nat, calls: seq<Call>)
    requires balance >= p.baseMinBalance
    ensures var w := Reached(p, balance, calls);
            && (w.h.settled != [] ==> w.h.settled[|w.h.settled| - 1].payouts == w.h.paid + w.h.owed)
            && Rebuilt(Record(w.h.settled)).Some?
            && Rebuilt(Record(w.h.settled)).value.payouts == w.h.paid + w.h.owed
            && (w.s.pendingWithdrawals.None? <==> w.h.owed == [])
            && (w.h.owed != [] ==>
                  && w.s.pendingWithdrawals == Some(WithdrawalChain(p.domain, w.h.owed))
                  && w.s.posting.batchLength.None?)
  {
    hide InboxOk, BoxesOk, LedgerOk, WatchOk, SettledOk, RefundsOk, ExitsOk, Solvent, Reached, WithdrawalChain,
      ChainAt, FoldChunks, PostsInto, Concat, Rebuilt, Record;
    ReachedHolds(p, balance, calls);
    RecordRebuildsLedger(p, balance, calls);
    var batches := Reached(p, balance, calls).h.settled;
    if batches == [] {
      EmptyRecord();
    } else {
      assert PaysItsBytes(batches, |batches| - 1);
      assert batches[..|batches|] == batches;
    }
  }

  lemma EmptyRecord()
    ensures Rebuilt(Record([])) == Some(Semantics.Outcome(map[], [], []))
  {
  }

  /** The call that makes one link's payout. */
  function PayLink(env: Env, link: WithdrawalLink, receiverBalance: nat): Call {
    Call(env, DoPayWithdrawal(link.recipient, link.amount, link.tail, receiverBalance))
  }

  function PayLinks(env: Env, links: seq<WithdrawalLink>): seq<Call> {
    if links == [] then [] else [PayLink(env, links[0], 0)] + PayLinks(env, links[1..])
  }

  /** The grace windows that n payouts by env's sender would buy all fit the clock. */
  predicate ClockAllows(p: Deployment, a: Accusation, env: Env, n: nat) {
    env.sender == p.creator && a.deadline.Some? && a.progress.Some? ==>
      a.deadline.value + p.escapeGrace * ((a.progress.value + n) / ESCAPE_PROGRESS_TRANCHE) <= MAX_U64
  }

  /** One payout is credited, and the rest fit, exactly when all fit. */
  lemma ClockStep(p: Deployment, s: State, env: Env, n: nat)
    requires n > 0 && env.sender == p.creator
    requires s.accusation.deadline.Some? ==>
               s.accusation.progress.Some? && s.accusation.progress.value < ESCAPE_PROGRESS_TRANCHE
    ensures ClockAllows(p, s.accusation, env, n) <==>
            && CreditEscapeProgress(p, s, 1).Some?
            && ClockAllows(p, CreditEscapeProgress(p, s, 1).value.accusation, env, n - 1)
  {
    if s.accusation.deadline.Some? {
      var k, grace := s.accusation.progress.value + 1, p.escapeGrace;
      if k == ESCAPE_PROGRESS_TRANCHE {
        assert (k - 1 + n) / ESCAPE_PROGRESS_TRANCHE == 1 + (n - 1) / ESCAPE_PROGRESS_TRANCHE;
        assert grace * (1 + (n - 1) / ESCAPE_PROGRESS_TRANCHE) == grace + grace * ((n - 1) / ESCAPE_PROGRESS_TRANCHE);
      }
    }
  }

  lemma WatchedProgress(p: Deployment, w: World)
    requires Inv(p, w) && w.s.accusation.deadline.Some?
    ensures w.s.accusation.progress == Some(w.h.windowWork) && w.h.windowWork < ESCAPE_PROGRESS_TRANCHE
  {
    hide InboxOk, BoxesOk, BatchOk, LedgerOk, PayoutOk, SettledOk, RefundsOk, ExitsOk, Solvent;
  }

  /** Links past the next one are refused while it has not been paid. */
  lemma {:induction false} LaterLinksAreRefused(p: Deployment, w: World, env: Env, i: nat)
    requires w.h.owed != [] && w.s.pendingWithdrawals == Some(WithdrawalChain(p.domain, w.h.owed))
    requires 0 < i <= |w.h.owed|
    ensures RunCalls(p, w, PayLinks(env, WithdrawalLinks(p.domain, w.h.owed[i..]))) == w
    decreases |w.h.owed| - i
  {
    var later := w.h.owed[i..];
    if later != [] {
      var links := WithdrawalLinks(p.domain, later);
      assert later[1..] == w.h.owed[i + 1..];
      assert links[1..] == WithdrawalLinks(p.domain, w.h.owed[i + 1..]);
      if WithdrawalChain(p.domain, later) == WithdrawalChain(p.domain, w.h.owed) {
        WithdrawalChainBinds(p.domain, p.domain, later, w.h.owed);
      }
      assert PayLinks(env, links)[1..] == PayLinks(env, links[1..]);
      assert PayLinks(env, links)[0] == PayLink(env, links[0], 0);
      RefusedLink(p, w, PayLink(env, links[0], 0));
      LaterLinksAreRefused(p, w, env, i + 1);
    }
  }

  lemma RefusedLink(p: Deployment, w: World, call: Call)
    requires call.action.DoPayWithdrawal?
    requires w.s.pendingWithdrawals != Some(Payout(call.action.tail, call.action.payee, call.action.sum))
    ensures Step(p, w, call).None?
  {
  }

  /**
   * The links of what is owed are a drain: offered in order by anybody, as many as are owed, to
   * recipients that need not exist yet. Every one is accepted, and exactly at the last of them the
   * pending chain is gone and everything the batch queued has been paid, if and only if the grace
   * windows the sender's payouts would buy fit the clock. For anyone but the sequencer they always do.
   */
  lemma {:induction false} LinksDrain(p: Deployment, w: World, env: Env)
    requires Inv(p, w) && env.round >= w.h.round
    ensures |PayLinks(env, WithdrawalLinks(p.domain, w.h.owed))| == |w.h.owed|
    ensures var end := RunCalls(p, w, PayLinks(env, WithdrawalLinks(p.domain, w.h.owed)));
            && Inv(p, end)
            && (end.s.pendingWithdrawals.None? <==> ClockAllows(p, w.s.accusation, env, |w.h.owed|))
            && (ClockAllows(p, w.s.accusation, env, |w.h.owed|) ==>
                  end.h.owed == [] && end.h.paid == w.h.paid + w.h.owed)
    decreases |w.h.owed|
  {
    hide Inv, Pay, WithdrawalChain, NoteSettlement, ClockAllows, Step, PayWithdrawal, CreditEscapeProgress;
    PendingIsOwed(p, w);
    LinksCount(env, p.domain, w.h.owed);
    if w.h.owed == [] {
      assert w.h.paid + [] == w.h.paid;
      NothingToCredit(p, w, env);
    } else {
      var links, rest := WithdrawalLinks(p.domain, w.h.owed), WithdrawalLinks(p.domain, w.h.owed[1..]);
      var call := PayLink(env, links[0], 0);
      assert links[1..] == rest;
      assert PayLinks(env, links)[1..] == PayLinks(env, rest);
      LinkStep(p, w, env, links[0]);
      if Step(p, w, call).Some? {
        var next := Step(p, w, call).value;
        StepKeeps(p, w, call);
        LinksDrain(p, next, env);
        assert w.h.owed == [w.h.owed[0]] + w.h.owed[1..];
        assert (w.h.paid + [w.h.owed[0]]) + w.h.owed[1..] == w.h.paid + w.h.owed;
      } else {
        OwedIsChained(p, w);
        LaterLinksAreRefused(p, w, env, 1);
      }
    }
  }

  lemma {:induction false} LinksCount(env: Env, domain: DeploymentDomain, payouts: Semantics.Payouts)
    ensures |PayLinks(env, WithdrawalLinks(domain, payouts))| == |payouts|
  {
    if payouts != [] {
      LinksCount(env, domain, payouts[1..]);
      assert WithdrawalLinks(domain, payouts)[1..] == WithdrawalLinks(domain, payouts[1..]);
    }
  }

  lemma OwedIsChained(p: Deployment, w: World)
    requires Inv(p, w) && w.h.owed != []
    ensures w.s.pendingWithdrawals == Some(WithdrawalChain(p.domain, w.h.owed))
  {
    hide InboxOk, BoxesOk, BatchOk, LedgerOk, WatchOk, SettledOk, RefundsOk, ExitsOk, Solvent, WithdrawalChain;
  }

  lemma NothingToCredit(p: Deployment, w: World, env: Env)
    requires Inv(p, w)
    ensures ClockAllows(p, w.s.accusation, env, 0)
  {
    hide Inv;
    if w.s.accusation.deadline.Some? {
      WatchedProgress(p, w);
    }
  }

  /** The next link is paid unless its credit overruns the clock. */
  lemma LinkStep(p: Deployment, w: World, env: Env, link: WithdrawalLink)
    requires Inv(p, w) && env.round >= w.h.round && w.h.owed != []
    requires w.s.pendingWithdrawals == Some(Payout(link.tail, link.recipient, link.amount))
    ensures ClockAllows(p, w.s.accusation, env, |w.h.owed|) ==> Step(p, w, PayLink(env, link, 0)).Some?
    ensures Step(p, w, PayLink(env, link, 0)).Some? ==>
              var n := Step(p, w, PayLink(env, link, 0)).value;
              && n.h.owed == w.h.owed[1..]
              && n.h.paid == w.h.paid + [(link.recipient, link.amount)]
              && n.h.round == env.round
              && (ClockAllows(p, w.s.accusation, env, |w.h.owed|) <==>
                    ClockAllows(p, n.s.accusation, env, |w.h.owed| - 1))
  {
    hide Inv, Pay, NoteSettlement, ClockAllows, CreditEscapeProgress;
    PayoutsNeverFallShort(p, w, env, link.recipient, link.amount, link.tail, 0);
    if w.s.accusation.deadline.Some? {
      WatchedProgress(p, w);
    }
    if Step(p, w, PayLink(env, link, 0)).Some? {
      PaidClock(p, w, env, link);
    }
    if env.sender == p.creator {
      ClockStep(p, w.s, env, |w.h.owed|);
    } else {
      OthersMoveNoClock(p, w.s.accusation, env, |w.h.owed|);
      OthersMoveNoClock(p, w.s.accusation, env, |w.h.owed| - 1);
    }
  }

  lemma OthersMoveNoClock(p: Deployment, a: Accusation, env: Env, n: nat)
    requires env.sender != p.creator
    ensures ClockAllows(p, a, env, n)
  {
  }

  lemma PaidClock(p: Deployment, w: World, env: Env, link: WithdrawalLink)
    requires Step(p, w, PayLink(env, link, 0)).Some?
    ensures var a := Step(p, w, PayLink(env, link, 0)).value.s.accusation;
            if env.sender == p.creator
            then CreditEscapeProgress(p, w.s, 1).Some? && a == CreditEscapeProgress(p, w.s, 1).value.accusation
            else a == w.s.accusation
  {
  }

  lemma PendingIsOwed(p: Deployment, w: World)
    requires Inv(p, w)
    ensures w.h.owed == [] ==> w.s.pendingWithdrawals.None?
    ensures w.h.owed != [] ==>
              w.s.pendingWithdrawals
              == Some(Payout(WithdrawalChain(p.domain, w.h.owed[1..]), w.h.owed[0].0, w.h.owed[0].1))
  {
    hide InboxOk, BoxesOk, BatchOk, LedgerOk, WatchOk, SettledOk, RefundsOk, ExitsOk, Solvent;
  }

  // ----- data availability -----

  /**
   * Data availability. Whenever a batch settles in any run, the chunks posted since it was opened
   * add up to the very bytes the proof replayed, and those bytes are what the history keeps.
   */
  lemma SettledBytesWerePosted(p: Deployment, balance: nat, calls: seq<Call>, call: Call)
    requires balance >= p.baseMinBalance && call.action.DoVerifyBatch?
    requires Step(p, Reached(p, balance, calls), call).Some?
    ensures var w, e := Reached(p, balance, calls), call.action.evidence;
            var next := Step(p, w, call).value;
            && e.domain == p.domain
            && Concat(w.h.posted) == e.batchBytes
            && BatchCodec.DecodeBatch(e.batchBytes).Ok?
            && Semantics.Run(w.h.accounts, BatchCodec.DecodeBatch(e.batchBytes).value.txns).Some?
            && next.s.stateRoot
               == Root(Semantics.Run(w.h.accounts, BatchCodec.DecodeBatch(e.batchBytes).value.txns).value.accounts)
            && |next.h.settled| == |w.h.settled| + 1
            && next.h.settled[|w.h.settled|].bytes == e.batchBytes
  {
    hide Inv, Reached, Exposed, BatchCodec.DecodeBatch, Semantics.Run, Root, Concat, NoteCredit, CreditEscapeProgress,
      ItemsOf;
    var w := Reached(p, balance, calls);
    ReachedHolds(p, balance, calls);
    SettlementIsExact(p, w.s, w.h, call.env, Exposed(p, call.action.evidence).value, call.action.evidence);
    CreditTouchesClockOnly(p, w.s);
    NoteCreditTouchesClockOnly(w.s);
  }

  lemma CreditTouchesClockOnly(p: Deployment, s: State)
    ensures forall t: State, n: nat :: CreditEscapeProgress(p, t, n).Some? ==>
              CreditEscapeProgress(p, t, n).value == t.(accusation := CreditEscapeProgress(p, t, n).value.accusation)
  {
  }

  lemma NoteCreditTouchesClockOnly(s: State)
    ensures forall h: History, n: nat :: NoteCredit(s, h, n).settled == h.settled
  {
  }

  // ----- the escape -----

  /** How many settled batches consumed inbox entry i. */
  function Consumptions(batches: seq<Settled>, i: nat): nat {
    if batches == [] then 0
    else (if batches[0].first <= i < batches[0].end then 1 else 0) + Consumptions(batches[1..], i)
  }

  /** Consecutive stretches from lo to hi cover each entry between exactly once and no other. */
  lemma {:induction false} StretchesPartition(batches: seq<Settled>, lo: nat, hi: nat, i: nat)
    requires batches != [] ==> batches[0].first == lo && batches[|batches| - 1].end == hi
    requires batches == [] ==> lo == hi
    requires forall k :: 0 <= k < |batches| ==> batches[k].first <= batches[k].end
    requires forall j, k :: 0 <= j < k < |batches| && k == j + 1 ==> batches[k].first == batches[j].end
    ensures lo <= hi
    ensures Consumptions(batches, i) == if lo <= i < hi then 1 else 0
    decreases |batches|
  {
    if batches != [] {
      var rest := batches[1..];
      if rest != [] {
        assert rest[0].first == batches[0].end;
        assert rest[|rest| - 1] == batches[|batches| - 1];
      }
      StretchesPartition(rest, batches[0].end, hi, i);
    }
  }

  function TimesRefunded(refunded: seq<u64>, i: u64): nat {
    if refunded == [] then 0
    else (if refunded[0] == i then 1 else 0) + TimesRefunded(refunded[1..], i)
  }

  lemma {:induction false} DistinctRefundsCount(refunded: seq<u64>, i: u64)
    requires forall j, k :: 0 <= j < k < |refunded| ==> refunded[j] != refunded[k]
    ensures TimesRefunded(refunded, i) == if i in refunded then 1 else 0
  {
    if refunded != [] {
      DistinctRefundsCount(refunded[1..], i);
    }
  }

  /**
   * Escape partition. In every run each deposit ever accepted is exactly one of: consumed by one
   * settled batch; refunded by one reclaim; or still pending with its box standing. It can be
   * reclaimed exactly when it is the last of these and the rollup has escaped.
   */
  lemma DepositsArePartitioned(p: Deployment, balance: nat, calls: seq<Call>, i: u64)
    requires balance >= p.baseMinBalance
    requires i < |Reached(p, balance, calls).h.items| && Reached(p, balance, calls).h.items[i].DepositItem?
    ensures var w := Reached(p, balance, calls);
            && Consumptions(w.h.settled, i) + TimesRefunded(w.h.refunded, i)
               + (if StillPending(w.s, i) then 1 else 0) == 1
            && (i < w.s.settledInboxCursor ==> i !in w.h.refunded)
            && forall receiverBalance: nat ::
              ReclaimDeposit(p, w.s, i, receiverBalance).Some? <==>
              && w.s.escaped && StillPending(w.s, i)
              && CanReceive(p, w.s.inbox[i].payer, w.s.inbox[i].amount + p.inboxBoxCost, receiverBalance)
  {
    hide BoxesOk, BatchOk, LedgerOk, PayoutOk, WatchOk, ExitsOk, Solvent, Reached, ChainAt, ItemsOf,
      BatchCodec.DecodeBatch,
      InboxOk, ReclaimDeposit;
    var w := Reached(p, balance, calls);
    ReachedHolds(p, balance, calls);
    assert forall k :: 0 <= k < |w.h.settled| ==> w.h.settled[k] in w.h.settled;
    StretchesPartition(w.h.settled, 0, w.s.settledInboxCursor, i);
    DistinctRefundsCount(w.h.refunded, i);
    forall receiverBalance: nat
      ensures ReclaimDeposit(p, w.s, i, receiverBalance).Some? <==>
              && w.s.escaped && StillPending(w.s, i)
              && CanReceive(p, w.s.inbox[i].payer, w.s.inbox[i].amount + p.inboxBoxCost, receiverBalance)
    {
      ReclaimIsPending(p, w, i, receiverBalance);
    }
  }

  /** An entry no batch has settled and nobody has taken back. */
  predicate StillPending(s: State, i: u64) {
    i >= s.settledInboxCursor && i in s.inbox
  }

  lemma ReclaimIsPending(p: Deployment, w: World, i: u64, receiverBalance: nat)
    requires Inv(p, w) && i < |w.h.items| && w.h.items[i].DepositItem?
    ensures ReclaimDeposit(p, w.s, i, receiverBalance).Some? <==>
            && w.s.escaped && StillPending(w.s, i)
            && CanReceive(p, w.s.inbox[i].payer, w.s.inbox[i].amount + p.inboxBoxCost, receiverBalance)
  {
    hide InboxOk, BoxesOk, BatchOk, LedgerOk, PayoutOk, WatchOk, SettledOk, RefundsOk, ExitsOk, Solvent, Refund,
      CanReceive;
    if i in w.s.inbox {
      PruneRequestItem(w.h.items, w.s, w.h, p.inboxBoxCost, i);
      RefundsNeverFallShort(p, w, i, receiverBalance);
    }
  }

  /** Before an escape nothing is ever refunded or exited. */
  lemma NothingLeavesBeforeEscape(p: Deployment, balance: nat, calls: seq<Call>)
    requires balance >= p.baseMinBalance
    ensures var w := Reached(p, balance, calls);
            !w.s.escaped ==> w.h.refunded == [] && w.h.exited == [] && w.s.exits == map[]
  {
    hide InboxOk, BoxesOk, BatchOk, LedgerOk, PayoutOk, WatchOk, SettledOk, Solvent, Reached;
    ReachedHolds(p, balance, calls);
  }

  /** What an escape freezes. */
  ghost predicate Frozen(v: World, w: World) {
    && w.s.escaped
    && w.s.stateRoot == v.s.stateRoot
    && w.s.settledInboxCursor == v.s.settledInboxCursor
    && w.s.settledInboxChain == v.s.settledInboxChain
    && w.s.inboxCursor == v.s.inboxCursor
    && w.h.items == v.h.items
    && w.h.accounts == v.h.accounts
    && w.h.settled == v.h.settled
    && w.s.exits.Keys >= v.s.exits.Keys
    && w.h.paid + w.h.owed == v.h.paid + v.h.owed
  }

  lemma StepStaysFrozen(p: Deployment, w: World, call: Call)
    requires Inv(p, w) && w.s.escaped && Step(p, w, call).Some?
    ensures Frozen(w, Step(p, w, call).value)
  {
    hide Exits, Inv, Exposed, NextBoxCost, RequestMessage, AcceptDeposit, RequestWithdrawal, OpenBatch, SettleBatch,
      Note;
    EscapedHasNoBatch(p, w);
    NotesAfterEscape(p, w, call);
    if call.action.DoPayWithdrawal? {
      PaidAfterEscape(p, w, call);
    }
  }

  /** What still moves the inbox, the root or the settled history is refused after an escape. */
  lemma NotesAfterEscape(p: Deployment, w: World, call: Call)
    requires w.s.escaped && w.s.posting == NO_POSTING && Step(p, w, call).Some?
    ensures var h := Note(p, w.s, w.h, call);
            && h.items == w.h.items && h.accounts == w.h.accounts && h.settled == w.h.settled
            && (!call.action.DoPayWithdrawal? ==> h.paid == w.h.paid && h.owed == w.h.owed)
    ensures !call.action.DoDeposit? && !call.action.DoRequest?
    ensures !call.action.DoOpenBatch? && !call.action.DoVerifyBatch?
  {
    hide Exposed, Pay, NextBoxCost, RequestMessage, NoteSettlement, CreditEscapeProgress, Exits, Refund;
  }

  lemma PaidAfterEscape(p: Deployment, w: World, call: Call)
    requires Inv(p, w) && call.action.DoPayWithdrawal? && Step(p, w, call).Some?
    ensures var n := Step(p, w, call).value; n.h.paid + n.h.owed == w.h.paid + w.h.owed
  {
    hide InboxOk, BoxesOk, LedgerOk, WatchOk, SettledOk, RefundsOk, ExitsOk, Solvent, PayoutOk, BatchOk,
      CreditEscapeProgress, Pay;
    var a := call.action;
    NextPayout(p, w.s, w.h, a.payee, a.sum, a.tail);
    assert w.h.owed == [w.h.owed[0]] + w.h.owed[1..];
    assert (w.h.paid + [w.h.owed[0]]) + w.h.owed[1..] == w.h.paid + w.h.owed;
  }

  lemma EscapedHasNoBatch(p: Deployment, w: World)
    requires Inv(p, w) && w.s.escaped
    ensures w.s.posting == NO_POSTING && w.s.accusation.deadline.None?
  {
    hide InboxOk, BoxesOk, LedgerOk, PayoutOk, SettledOk, RefundsOk, ExitsOk, Solvent;
    hide ChainAt, FoldChunks, PostsInto, Concat;
  }

  /** After an escape no run moves the root, the settled cursor, the inbox, or what is owed. */
  lemma {:induction false} EscapeIsFinal(p: Deployment, w: World, calls: seq<Call>)
    requires Inv(p, w) && w.s.escaped
    ensures Frozen(w, RunCalls(p, w, calls))
    decreases |calls|
  {
    hide Inv, Step;
    if calls != [] {
      match Step(p, w, calls[0]) {
        case None => EscapeIsFinal(p, w, calls[1..]);
        case Some(next) =>
          StepKeeps(p, w, calls[0]);
          StepStaysFrozen(p, w, calls[0]);
          EscapeIsFinal(p, next, calls[1..]);
      }
    }
  }

  /** In every run no address exits twice, and each exit is the balance the frozen root commits to. */
  lemma ExitsPayOnceAndExactly(p: Deployment, balance: nat, calls: seq<Call>)
    requires balance >= p.baseMinBalance
    ensures var w := Reached(p, balance, calls);
            && w.s.stateRoot == Root(w.h.accounts)
            && (forall k :: 0 <= k < |w.h.exited| ==>
                  && w.h.exited[k].0 in w.h.accounts
                  && w.h.exited[k].1 == w.h.accounts[w.h.exited[k].0].amount)
            && (forall j, k :: 0 <= j < k < |w.h.exited| ==> w.h.exited[j].0 != w.h.exited[k].0)
  {
    hide InboxOk, BoxesOk, BatchOk, PayoutOk, WatchOk, SettledOk, RefundsOk, Solvent, Reached, Root, Semantics.Run,
      ItemsOf;
    ReachedHolds(p, balance, calls);
  }

  // ----- the watchdog -----

  /**
   * Watchdog bound. In every run a live accusation has its deadline, target and progress together;
   * its target is the one it was signalled with and still ahead; and every grace window past the
   * first was bought by a full tranche of obligations discharged since.
   */
  lemma DeadlinesArePaidFor(p: Deployment, balance: nat, calls: seq<Call>)
    requires balance >= p.baseMinBalance
    ensures var s, h := Reached(p, balance, calls).s, Reached(p, balance, calls).h;
            && (s.accusation.deadline.Some? <==> s.accusation.inboxTarget.Some?)
            && (s.accusation.deadline.Some? <==> s.accusation.progress.Some?)
            && (s.accusation.deadline.Some? ==>
                  && !s.escaped
                  && s.settledInboxCursor < s.accusation.inboxTarget.value <= s.inboxCursor
                  && s.accusation.inboxTarget.value == h.signalTarget
                  && s.accusation.progress.value == h.windowWork < 256
                  && s.accusation.deadline.value == h.signalRound + p.escapeGrace * (1 + h.extensions)
                  && 256 * h.extensions + h.windowWork <= h.discharged)
  {
    hide InboxOk, BoxesOk, BatchOk, LedgerOk, PayoutOk, SettledOk, RefundsOk, ExitsOk, Solvent, Reached;
    ReachedHolds(p, balance, calls);
  }

  // ----- every account a run can reach -----

  /**
   * Reachable accounts. Under the settled root of every run each account is authorised by the key
   * its own address derives from, its nonce counts its settled spends, no two settled spends of an
   * account share a nonce, and total balances are what was deposited less what was queued for payout.
   */
  lemma ReachableAccounts(p: Deployment, balance: nat, calls: seq<Call>, a: Address)
    requires balance >= p.baseMinBalance
    ensures Semantics.Run(map[], Reached(p, balance, calls).h.txns).Some?
    ensures var w := Reached(p, balance, calls);
            var o := Semantics.Run(map[], w.h.txns).value;
            && w.s.settledInboxCursor <= |w.h.items|
            && w.s.stateRoot == Root(o.accounts)
            && Semantics.OwnAuth(o.accounts)
            && Semantics.NonceAt(o.accounts, a) == Semantics.SpendsOf(o.spends, a)
            && Semantics.NoncesRise(o.spends)
            && Semantics.Total(o.accounts) + Semantics.SumPayouts(o.payouts)
               == SumItems(w.h.items[..w.s.settledInboxCursor])
  {
    hide BoxesOk, BatchOk, PayoutOk, WatchOk, SettledOk, RefundsOk, ExitsOk, Solvent, Reached, Root, Semantics.Run,
      ItemsOf,
      InboxOk, SumItems, Semantics.SumPayouts, Semantics.SpendsOf, Semantics.NoncesRise;
    ReachedHolds(p, balance, calls);
    var w := Reached(p, balance, calls);
    Semantics.RunAccounts(map[], w.h.txns, a);
    Semantics.RunNonces(map[], w.h.txns);
    Semantics.RunConserves(map[], w.h.txns);
    DepositsAreItems(w.h.txns);
  }

  /**
   * No signature serves twice. In every run each settled payment and withdrawal carried a signature by
   * the key its sender's address derives from, good for that spend at that nonce; and no two of those
   * spends, however far apart they settled, have one message between them.
   */
  lemma NoSignatureServesTwice(p: Deployment, balance: nat, calls: seq<Call>)
    requires balance >= p.baseMinBalance
    ensures Semantics.Run(map[], Reached(p, balance, calls).h.txns).Some?
    ensures var spends := Semantics.SignedSpends(map[], Reached(p, balance, calls).h.txns);
            && (exists sigs :: EachSigned(p.crypto, p.domain, map[], spends, sigs))
            && (forall i, j :: 0 <= i < j < |spends| ==> Unlike(p.domain, spends[i], spends[j]))
  {
    hide InboxOk, BoxesOk, BatchOk, PayoutOk, WatchOk, SettledOk, RefundsOk, ExitsOk, Solvent, Reached, Root,
      Semantics.Run,
      ItemsOf, Semantics.SignedSpends, BytesToSign, AuthorizedRun, EachSigned, Unlike;
    ReachedHolds(p, balance, calls);
    var txns := Reached(p, balance, calls).h.txns;
    var spends := Semantics.SignedSpends(map[], txns);
    var sigs :| AuthorizedRun(p.crypto, p.domain, map[], txns, sigs);
    SpendsAreSigned(p.crypto, p.domain, map[], txns, sigs);
    AuthorizedLength(p.crypto, p.domain, map[], txns, sigs);
    assert EachSigned(p.crypto, p.domain, map[], spends, SignaturesUsed(txns, PresentAll(sigs)));
    forall i, j | 0 <= i < j < |spends|
      ensures Unlike(p.domain, spends[i], spends[j])
    {
      UnlikeSpends(p.domain, txns, i, j);
    }
  }

  lemma AuthorizedLength(c: Crypto, domain: DeploymentDomain, m: Semantics.Ledger, txns: seq<Transaction>,
                         sigs: seq<Option<Signature>>)
    requires AuthorizedRun(c, domain, m, txns, sigs)
    ensures |txns| == |sigs|
  {
  }

  /** Two signed spends whose signatures cover different messages. */
  predicate Unlike(domain: DeploymentDomain, x: Semantics.SignedSpend, y: Semantics.SignedSpend) {
    && Semantics.NeedsSignature(x.txn) && Semantics.NeedsSignature(y.txn)
    && BytesToSign(domain, x.txn, x.nonce) != BytesToSign(domain, y.txn, y.nonce)
  }

  lemma UnlikeSpends(domain: DeploymentDomain, txns: seq<Transaction>, i: nat, j: nat)
    requires Semantics.Run(map[], txns).Some? && i < j < |Semantics.SignedSpends(map[], txns)|
    ensures Unlike(domain, Semantics.SignedSpends(map[], txns)[i], Semantics.SignedSpends(map[], txns)[j])
  {
    hide Semantics.Run, Semantics.SignedSpends, BytesToSign;
    Semantics.MessagesAreDistinct(domain, map[], txns, i, j);
  }
}
