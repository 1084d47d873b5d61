/** What holds after every run of the contract, whoever calls what in whatever order. */
module Invariants {
  import opened Types
  import opened MerkleTree
  import opened Transactions
  import opened Chains
  import opened Settlement
  import opened Runs
  import opened Replay
  import BatchCodec
  import Semantics

  // ----- the inbox -----

  /** The chain as it stood once i entries had been accepted. */
  function ChainAt(items: seq<InboxItem>, i: nat): Digest
    requires i <= |items|
  {
    FoldInbox(Zero, items[..i])
  }

  predicate RecordsItem(r: InboxRecord, item: InboxItem) {
    match item
    case DepositItem(receiver, amount) => r.kind == DepositKind && r.address == receiver && r.amount == amount
    case RequestItem(owner, recipient) =>
      r.kind == RequestKind && r.address == owner && r.recipient == recipient && r.amount == 0
  }

  /** Chains are folds of what was accepted, and the settled cursor never passes the live one. */
  ghost predicate InboxOk(items: seq<InboxItem>, chain: Digest, cursor: u64, settledChain: Digest, settled: u64) {
    && |items| == cursor
    && settled <= cursor
    && chain == ChainAt(items, cursor)
    && settledChain == ChainAt(items, settled)
  }

  /** Every box records its own entry and checkpoint, rounds never fall, and nothing pending is missing. */
  ghost predicate BoxesOk(items: seq<InboxItem>, inbox: map<u64, InboxRecord>, cursor: u64, settled: u64,
                          escaped: bool, round: u64, boxCost: nat)
  {
    && |items| == cursor
    && (forall i :: i in inbox ==>
          && i < cursor
          && inbox[i].round <= round
          && inbox[i].amount + boxCost <= MAX_U64
          && inbox[i].chainAfter == ChainAt(items, i + 1)
          && RecordsItem(inbox[i], items[i]))
    && (forall i, j :: i in inbox && j in inbox && i < j ==> inbox[i].round <= inbox[j].round)
    && (!escaped ==> forall i: u64 :: settled <= i < cursor ==> i in inbox)
  }

  /** The five values of an open batch come and go together, and fold what has been posted. */
  ghost predicate BatchOk(domain: DeploymentDomain, items: seq<InboxItem>, b: Posting, chunks: seq<seq<byte>>,
                          cursor: u64, settled: u64, escaped: bool, pending: Option<Digest>)
  {
    && |items| == cursor
    && (b.batchLength.None? ==> b == NO_POSTING)
    && (b.batchLength.Some? ==>
          && b.chunkAccumulator.Some? && b.postedLength.Some? && b.sealedInboxChain.Some? && b.sealedInboxCursor.Some?
          && !escaped && pending.None?
          && settled <= b.sealedInboxCursor.value <= cursor
          && b.sealedInboxChain.value == ChainAt(items, b.sealedInboxCursor.value)
          && b.chunkAccumulator.value == FoldChunks(BatchSeed(domain, b.batchLength.value), chunks)
          && b.postedLength.value == |Concat(chunks)|
          && PostsInto(chunks, 0, b.batchLength.value))
  }

  /** The settled root commits to exactly what the settled transactions make of an empty ledger. */
  ghost predicate LedgerOk(items: seq<InboxItem>, root: Digest, settled: u64,
                           accounts: Semantics.Ledger, txns: seq<Transaction>)
  {
    && settled <= |items|
    && root == Root(accounts)
    && Semantics.Run(map[], txns).Some?
    && Semantics.Run(map[], txns).value.accounts == accounts
    && ItemsOf(txns) == items[..settled]
  }

  /** The pending chain is the chain over what the last settled batch still owes. */
  ghost predicate PayoutOk(domain: DeploymentDomain, pending: Option<Digest>, batches: seq<Settled>,
                           paid: Semantics.Payouts, owed: Semantics.Payouts)
  {
    && pending == (if owed == [] then None else Some(WithdrawalChain(domain, owed)))
    && (forall i :: 0 <= i < |owed| ==> owed[i].1 >= MIN_WITHDRAWAL)
    && (if batches == [] then paid == [] && owed == [] else batches[|batches| - 1].payouts == paid + owed)
  }

  /** A live accusation has all three of its parts, a fixed target, and a deadline paid for by work. */
  ghost predicate WatchOk(grace: u64, a: Accusation, cursor: u64, settled: u64, escaped: bool,
                          signalRound: u64, signalTarget: u64, extensions: nat, discharged: nat, work: nat)
  {
    && (a.deadline.Some? <==> a.inboxTarget.Some?)
    && (a.deadline.Some? <==> a.progress.Some?)
    && (a.deadline.Some? ==>
          && !escaped
          && settled < a.inboxTarget.value <= cursor
          && a.inboxTarget.value == signalTarget
          && a.progress.value < ESCAPE_PROGRESS_TRANCHE
          && a.deadline.value == signalRound + grace * (1 + extensions)
          && a.progress.value == work
          && ESCAPE_PROGRESS_TRANCHE * extensions + work <= discharged)
  }

  /** A settled batch's bytes decode to its transactions, whose inbox items are its stretch of the inbox. */
  ghost predicate Consumes(items: seq<InboxItem>, b: Settled) {
    && b.first <= b.end <= |items|
    && ItemsOf(b.txns) == items[b.first..b.end]
    && BatchCodec.DecodeBatch(b.bytes) == Ok(Batch(b.txns))
  }

  /** Settled batches consume consecutive stretches of the inbox, from the first entry on. */
  ghost predicate SettledOk(items: seq<InboxItem>, settled: u64, batches: seq<Settled>) {
    && (if batches == [] then settled == 0
        else batches[0].first == 0 && batches[|batches| - 1].end == settled)
    && (forall j, k :: 0 <= j < k < |batches| && k == j + 1 ==> batches[k].first == batches[j].end)
    && (forall b :: b in batches ==> Consumes(items, b))
  }

  /** A pending deposit is still boxed or has been refunded, once, and only after an escape. */
  ghost predicate RefundsOk(items: seq<InboxItem>, inbox: map<u64, InboxRecord>, cursor: u64, settled: u64,
                            escaped: bool, refunded: seq<u64>)
  {
    && |items| == cursor
    && (!escaped ==> refunded == [])
    && (forall i :: i in refunded ==> settled <= i < cursor && i !in inbox && items[i].DepositItem?)
    && (forall j, k :: 0 <= j < k < |refunded| ==> refunded[j] != refunded[k])
    && (forall i: u64 :: settled <= i < cursor && items[i].DepositItem? ==> i in inbox || i in refunded)
  }

  /** Each exit paid out what the frozen ledger holds, and no address exits twice. */
  ghost predicate ExitsOk(accounts: Semantics.Ledger, exits: map<Address, u64>, escaped: bool,
                          exited: seq<(Address, u64)>)
  {
    && (!escaped ==> exited == [] && exits == map[])
    && (forall a :: a in exits ==> a in accounts && exits[a] == accounts[a].amount && (a, exits[a]) in exited)
    && (forall k :: 0 <= k < |exited| ==> exited[k].0 in exits && exits[exited[k].0] == exited[k].1)
    && (forall j, k :: 0 <= j < k < |exited| ==> exited[j].0 != exited[k].0)
  }

  // ----- solvency -----

  function PendingAt(inbox: map<u64, InboxRecord>, i: u64): nat {
    if i in inbox && inbox[i].kind == DepositKind then inbox[i].amount else 0
  }

  /** Deposits from lo up to hi whose boxes still stand. */
  function Pending(inbox: map<u64, InboxRecord>, lo: nat, hi: nat): nat
    requires hi <= MAX_U64
    decreases hi
  {
    if hi <= lo then 0 else Pending(inbox, lo, hi - 1) + PendingAt(inbox, hi - 1)
  }

  /** What the app owes: balances not yet exited, deposits not yet credited, payouts not yet made. */
  ghost function Liabilities(accounts: Semantics.Ledger, exits: map<Address, u64>, inbox: map<u64, InboxRecord>,
                             cursor: u64, settled: u64, owed: Semantics.Payouts): nat
  {
    Semantics.Total(accounts - exits.Keys) + Pending(inbox, settled, cursor) + Semantics.SumPayouts(owed)
  }

  ghost function LiabilitiesOf(s: State, h: History): nat {
    Liabilities(h.accounts, s.exits, s.inbox, s.inboxCursor, s.settledInboxCursor, h.owed)
  }

  /** What the app must hold: its minimum balance and everything it owes. */
  ghost function Owing(p: Deployment, s: State, h: History): nat {
    MinBalance(p, s) + LiabilitiesOf(s, h)
  }

  /** The app holds its minimum balance and everything it owes. */
  ghost predicate Solvent(minBalance: nat, liabilities: nat, balance: nat) {
    balance >= minBalance + liabilities
  }

  ghost predicate Inv(p: Deployment, w: World) {
    var s, h := w.s, w.h;
    && InboxOk(h.items, s.inboxChain, s.inboxCursor, s.settledInboxChain, s.settledInboxCursor)
    && BoxesOk(h.items, s.inbox, s.inboxCursor, s.settledInboxCursor, s.escaped, h.round, p.inboxBoxCost)
    && BatchOk(p.domain, h.items, s.posting, h.posted, s.inboxCursor, s.settledInboxCursor, s.escaped,
               s.pendingWithdrawals)
    && LedgerOk(h.items, s.stateRoot, s.settledInboxCursor, h.accounts, h.txns)
    && SignedThroughout(p.crypto, p.domain, map[], h.txns)
    && PayoutOk(p.domain, s.pendingWithdrawals, h.settled, h.paid, h.owed)
    && WatchOk(p.escapeGrace, s.accusation, s.inboxCursor, s.settledInboxCursor, s.escaped,
               h.signalRound, h.signalTarget, h.extensions, h.discharged, h.windowWork)
    && SettledOk(h.items, s.settledInboxCursor, h.settled)
    && RefundsOk(h.items, s.inbox, s.inboxCursor, s.settledInboxCursor, s.escaped, h.refunded)
    && ExitsOk(h.accounts, s.exits, s.escaped, h.exited)
    && Solvent(MinBalance(p, s), LiabilitiesOf(s, h), s.balance)
  }

  lemma StartHolds(p: Deployment, balance: nat)
    requires balance >= p.baseMinBalance
    ensures Inv(p, Start(balance))
  {
    var none: Semantics.Ledger := map[];
    assert none - {} == none;
    RootOfEmpty();
    assert AuthorizedRun(p.crypto, p.domain, map[], [], []);
  }

  lemma RootOfEmpty()
    ensures Root(map[]) == Zero
  {
    TreeOfIsOnly(Empty);
  }

  // ----- sums over boxes -----

  lemma {:induction false} PendingSplit(inbox: map<u64, InboxRecord>, lo: nat, mid: nat, hi: nat)
    requires lo <= mid <= hi <= MAX_U64
    ensures Pending(inbox, lo, hi) == Pending(inbox, lo, mid) + Pending(inbox, mid, hi)
    decreases hi
  {
    if mid < hi {
      PendingSplit(inbox, lo, mid, hi - 1);
    }
  }

  lemma {:induction false} PendingFrame(inbox: map<u64, InboxRecord>, other: map<u64, InboxRecord>, lo: nat, hi: nat)
    requires hi <= MAX_U64
    requires forall i: u64 :: lo <= i < hi ==> PendingAt(inbox, i) == PendingAt(other, i)
    ensures Pending(inbox, lo, hi) == Pending(other, lo, hi)
    decreases hi
  {
    if lo < hi {
      PendingFrame(inbox, other, lo, hi - 1);
    }
  }

  lemma PendingRemove(inbox: map<u64, InboxRecord>, lo: nat, hi: nat, i: u64)
    requires hi <= MAX_U64
    ensures Pending(inbox - {i}, lo, hi) + (if lo <= i < hi then PendingAt(inbox, i) else 0) == Pending(inbox, lo, hi)
  {
    var other := inbox - {i};
    if lo <= i < hi {
      PendingSplit(inbox, lo, i, hi);
      PendingSplit(inbox, i, i + 1, hi);
      PendingSplit(other, lo, i, hi);
      PendingSplit(other, i, i + 1, hi);
      PendingFrame(inbox, other, lo, i);
      PendingFrame(inbox, other, i + 1, hi);
    } else {
      PendingFrame(inbox, other, lo, hi);
    }
  }

  /** When every box in a stretch stands, the pending deposits are the stretch's own. */
  lemma {:induction false} PendingIsItems(inbox: map<u64, InboxRecord>, items: seq<InboxItem>, lo: nat, hi: nat)
    requires lo <= hi <= |items| && hi <= MAX_U64
    requires forall i: u64 :: lo <= i < hi ==> i in inbox && RecordsItem(inbox[i], items[i])
    ensures Pending(inbox, lo, hi) == SumItems(items[lo..hi])
    decreases hi
  {
    if lo < hi {
      PendingIsItems(inbox, items, lo, hi - 1);
      assert items[lo..hi] == items[lo..hi - 1] + [items[hi - 1]];
      SumItemsConcat(items[lo..hi - 1], [items[hi - 1]]);
      assert SumItems([items[hi - 1]]) == if items[hi - 1].DepositItem? then items[hi - 1].amount else 0;
      assert inbox[hi - 1].kind == DepositKind <==> items[hi - 1].DepositItem?;
    }
  }
}
