/** What a settlement means, and why it keeps the invariant. */
module SettlementStep {
  import opened Types
  import opened MerkleTree
  import opened Transactions
  import opened Chains
  import opened Replay
  import opened Execution
  import opened Settlement
  import opened Runs
  import opened Invariants
  import opened Preservation
  import BatchCodec
  import Semantics

  lemma {:induction false} ChainBetween(items: seq<InboxItem>, lo: nat, hi: nat)
    requires lo <= hi <= |items|
    ensures ChainAt(items, hi) == FoldInbox(ChainAt(items, lo), items[lo..hi])
  {
    hide FoldInbox;
    FoldInboxConcat(Zero, items[..lo], items[lo..hi]);
    assert items[..lo] + items[lo..hi] == items[..hi];
  }

  /** The settled transactions, the stretch of the inbox they answer, and where they leave the ledger. */
  ghost predicate SettlesExactly(p: Deployment, s: State, h: History, v: PublicValues, e: Evidence,
                                 txns: seq<Transaction>)
  {
    && BatchCodec.DecodeBatch(e.batchBytes) == Ok(Batch(txns))
    && e.domain == p.domain
    && Concat(h.posted) == e.batchBytes
    && s.posting.sealedInboxCursor.Some?
    && s.settledInboxCursor <= s.posting.sealedInboxCursor.value <= |h.items|
    && ItemsOf(txns) == h.items[s.settledInboxCursor..s.posting.sealedInboxCursor.value]
    && Semantics.Run(h.accounts, txns).Some?
    && SignedThroughout(p.crypto, p.domain, h.accounts, txns)
    && v == ValuesOf(p.domain, h.accounts, s.settledInboxChain, e.batchBytes, txns,
                     Semantics.Run(h.accounts, txns).value)
  }

  /**
   * What a settlement establishes. Whatever the prover chose to feed the guest, the proof only
   * settles if it was made for this deployment, over exactly the bytes posted since the batch was
   * opened, signed for throughout, consuming exactly the sealed stretch of the inbox in order, and
   * landing on the root and payouts those transactions mean.
   */
  lemma SettlementIsExact(p: Deployment, s: State, h: History, env: Env, v: PublicValues, e: Evidence)
    requires Inv(p, World(s, h)) && Exposed(p, e) == Ok(v) && Settles(p, s, env, v)
    ensures BatchCodec.DecodeBatch(e.batchBytes).Ok?
    ensures SettlesExactly(p, s, h, v, e, BatchCodec.DecodeBatch(e.batchBytes).value.txns)
  {
    hide BoxesOk, PayoutOk, WatchOk, SettledOk, RefundsOk, ExitsOk, Solvent, Liabilities, MinBalance;
    hide Execute, Root, BatchCodec.DecodeBatch, Semantics.Run, ChainAt, FoldInbox, FoldChunks, PostsInto, Concat,
      ItemsOf,
      WithdrawalChain, BatchCommitment, SignedThroughout;
    ExposedInputs(p, e);
    ExecutionSoundness(p.crypto, p.wire, e.domain, h.accounts, e.anchor, e.batchBytes, e.sidecarBytes);
    var txns := BatchCodec.DecodeBatch(e.batchBytes).value.txns;
    CommitmentIsPostedBytes(p.domain, s.posting.batchLength.value, h.posted, e.domain, e.batchBytes);
    ChainBetween(h.items, s.settledInboxCursor, s.posting.sealedInboxCursor.value);
    InboxChainBinds(s.settledInboxChain, ItemsOf(txns),
                    h.items[s.settledInboxCursor..s.posting.sealedInboxCursor.value]);
  }

  /** A proof exposes the inputs it was started from. */
  lemma ExposedInputs(p: Deployment, e: Evidence)
    requires Exposed(p, e).Ok?
    ensures Exposed(p, e).value.priorRoot == e.priorRoot
    ensures Exposed(p, e).value.priorInboxChain == e.anchor
  {
  }

  // ----- each part of the invariant after a settlement -----

  lemma InboxSettled(items: seq<InboxItem>, chain: Digest, cursor: u64, settledChain: Digest, settled: u64,
                     sealedChain: Digest, sealed: u64)
    requires InboxOk(items, chain, cursor, settledChain, settled) && settled <= sealed <= cursor
    requires sealedChain == ChainAt(items, sealed)
    ensures InboxOk(items, chain, cursor, sealedChain, sealed)
  {
  }

  lemma BoxesSettled(items: seq<InboxItem>, inbox: map<u64, InboxRecord>, cursor: u64, settled: u64, round: u64,
                     boxCost: nat, sealed: u64)
    requires BoxesOk(items, inbox, cursor, settled, false, round, boxCost) && settled <= sealed <= cursor
    ensures BoxesOk(items, inbox, cursor, sealed, false, round, boxCost)
  {
    hide ChainAt, RecordsItem;
  }

  lemma LedgerSettled(items: seq<InboxItem>, root: Digest, settled: u64, accounts: Semantics.Ledger,
                      txns: seq<Transaction>,
                      sealed: u64, more: seq<Transaction>)
    requires LedgerOk(items, root, settled, accounts, txns) && settled <= sealed <= |items|
    requires ItemsOf(more) == items[settled..sealed] && Semantics.Run(accounts, more).Some?
    ensures LedgerOk(items, Root(Semantics.Run(accounts, more).value.accounts), sealed,
                     Semantics.Run(accounts, more).value.accounts, txns + more)
  {
    hide Root, Semantics.Run, ItemsOf;
    Semantics.RunConcat(map[], txns, more);
    ItemsOfConcat(txns, more);
    assert items[..settled] + items[settled..sealed] == items[..sealed];
  }

  lemma SettledLedger(items: seq<InboxItem>, root: Digest, settled: u64, accounts: Semantics.Ledger,
                      txns: seq<Transaction>)
    requires LedgerOk(items, root, settled, accounts, txns)
    ensures Semantics.Run(map[], txns).Some? && Semantics.Run(map[], txns).value.accounts == accounts
  {
  }

  lemma PayoutSettled(p: Deployment, pending: Option<Digest>, batches: seq<Settled>, paid: Semantics.Payouts,
                      owed: Semantics.Payouts, m: Semantics.Ledger, b: Settled)
    requires PayoutOk(p.domain, pending, batches, paid, owed) && pending.None?
    requires Semantics.Run(m, b.txns).Some? && b.payouts == Semantics.Run(m, b.txns).value.payouts
    ensures owed == []
    ensures var chain := WithdrawalChain(p.domain, b.payouts);
            PayoutOk(p.domain, if chain != PayoutEnd(p.domain) then Some(chain) else pending, batches + [b], [],
                     b.payouts)
  {
    Semantics.PayoutsAreDeliverable(m, b.txns);
    assert [] + b.payouts == b.payouts;
  }

  lemma SettledSettled(items: seq<InboxItem>, settled: u64, batches: seq<Settled>, sealed: u64, b: Settled)
    requires SettledOk(items, settled, batches) && settled <= sealed <= |items|
    requires b.first == settled && b.end == sealed && ItemsOf(b.txns) == items[settled..sealed]
    requires BatchCodec.DecodeBatch(b.bytes) == Ok(Batch(b.txns))
    ensures SettledOk(items, sealed, batches + [b])
  {
    hide ItemsOf, BatchCodec.DecodeBatch;
  }

  lemma ExitsSettled(accounts: Semantics.Ledger, exits: map<Address, u64>, exited: seq<(Address, u64)>,
                     next: Semantics.Ledger)
    requires ExitsOk(accounts, exits, false, exited)
    ensures ExitsOk(next, exits, false, exited) && exits == map[]
  {
  }

  lemma PendingStretch(items: seq<InboxItem>, inbox: map<u64, InboxRecord>, cursor: u64, settled: u64, round: u64,
                       boxCost: nat, sealed: u64)
    requires BoxesOk(items, inbox, cursor, settled, false, round, boxCost) && settled <= sealed <= cursor
    ensures Pending(inbox, settled, cursor) == SumItems(items[settled..sealed]) + Pending(inbox, sealed, cursor)
  {
    hide ChainAt;
    PendingSplit(inbox, settled, sealed, cursor);
    PendingIsItems(inbox, items, settled, sealed);
  }

  /** A settlement moves what is owed between books and adds nothing to it. */
  lemma SettlementBooks(items: seq<InboxItem>, accounts: Semantics.Ledger, inbox: map<u64, InboxRecord>,
                        cursor: u64, settled: u64, round: u64, boxCost: nat, sealed: u64, txns: seq<Transaction>)
    requires BoxesOk(items, inbox, cursor, settled, false, round, boxCost) && settled <= sealed <= cursor
    requires Semantics.Run(accounts, txns).Some? && ItemsOf(txns) == items[settled..sealed]
    ensures var o := Semantics.Run(accounts, txns).value;
            Liabilities(o.accounts, map[], inbox, cursor, sealed, o.payouts)
            == Liabilities(accounts, map[], inbox, cursor, settled, [])
  {
    hide Semantics.Total, Pending, Semantics.SumPayouts, Semantics.Run, ItemsOf, BoxesOk;
    var o := Semantics.Run(accounts, txns).value;
    Semantics.RunConserves(accounts, txns);
    DepositsAreItems(txns);
    BoxesLength(items, inbox, cursor, settled, round, boxCost);
    PendingStretch(items, inbox, cursor, settled, round, boxCost, sealed);
    NoneGone(accounts, map[]);
    NoneGone(o.accounts, map[]);
    NoPayouts();
  }

  lemma BoxesLength(items: seq<InboxItem>, inbox: map<u64, InboxRecord>, cursor: u64, settled: u64, round: u64,
                    boxCost: nat)
    requires BoxesOk(items, inbox, cursor, settled, false, round, boxCost)
    ensures |items| == cursor
  {
  }

  lemma NoneGone(m: Semantics.Ledger, exits: map<Address, u64>)
    requires exits == map[]
    ensures m - exits.Keys == m
  {
  }

  lemma NoPayouts()
    ensures Semantics.SumPayouts([]) == 0
  {
  }

  lemma WatchSettled(grace: u64, a: Accusation, cursor: u64, settled: u64, escaped: bool,
                     signalRound: u64, signalTarget: u64, extensions: nat, discharged: nat, work: nat, sealed: u64)
    requires WatchOk(grace, a, cursor, settled, escaped, signalRound, signalTarget, extensions, discharged, work)
    requires settled <= sealed <= cursor
    ensures a.inboxTarget.None? ==>
              && a.deadline.None?
              && WatchOk(grace, a, cursor, sealed, escaped, signalRound, signalTarget, extensions, discharged, work)
    ensures a.inboxTarget.Some? && sealed < a.inboxTarget.value ==>
              WatchOk(grace, a, cursor, sealed, escaped, signalRound, signalTarget, extensions, discharged, work)
  {
  }

  lemma WatchCleared(grace: u64, cursor: u64, settled: u64, escaped: bool,
                     signalRound: u64, signalTarget: u64, extensions: nat, discharged: nat, work: nat)
    ensures WatchOk(grace, NO_ACCUSATION, cursor, settled, escaped, signalRound, signalTarget, extensions, discharged,
                    work)
  {
  }

  /** The history a settlement makes before the watchdog has been told. */
  function Recorded(s: State, h: History, bytes: seq<byte>, txns: seq<Transaction>, o: Semantics.Outcome): History
    requires s.posting.sealedInboxCursor.Some?
  {
    h.(accounts := o.accounts, txns := h.txns + txns,
       settled := h.settled
                  + [Settled(s.settledInboxCursor, s.posting.sealedInboxCursor.value, bytes, txns, o.payouts)],
       paid := [], owed := o.payouts)
  }

  lemma BatchCleared(domain: DeploymentDomain, items: seq<InboxItem>, b: Posting, chunks: seq<seq<byte>>, cursor: u64,
                     settled: u64, escaped: bool, pending: Option<Digest>, settled1: u64, pending1: Option<Digest>)
    requires BatchOk(domain, items, b, chunks, cursor, settled, escaped, pending)
    ensures BatchOk(domain, items, NO_POSTING, chunks, cursor, settled1, escaped, pending1)
  {
  }

  lemma SealedBounds(p: Deployment, s: State, h: History, env: Env, v: PublicValues)
    requires BatchOk(p.domain, h.items, s.posting, h.posted, s.inboxCursor, s.settledInboxCursor, s.escaped,
                     s.pendingWithdrawals)
    requires Settles(p, s, env, v)
    ensures s.posting.sealedInboxChain.Some? && s.pendingWithdrawals.None? && !s.escaped
    ensures s.settledInboxCursor <= s.posting.sealedInboxCursor.value <= s.inboxCursor == |h.items|
    ensures s.posting.sealedInboxChain.value == ChainAt(h.items, s.posting.sealedInboxCursor.value)
  {
    hide ChainAt, FoldChunks, PostsInto, Concat;
  }

  lemma MinBalanceOfAdvanced(p: Deployment, s: State, v: PublicValues, a: Accusation)
    requires s.posting.sealedInboxChain.Some? && s.posting.sealedInboxCursor.Some?
    ensures MinBalance(p, Advanced(p, s, v).(accusation := a)) == MinBalance(p, s)
  {
  }

  lemma AdvancedHolds(p: Deployment, s: State, h: History, v: PublicValues, bytes: seq<byte>, txns: seq<Transaction>,
                      a: Accusation, extensions: nat, discharged: nat, work: nat)
    requires Inv(p, World(s, h)) && !s.escaped && s.pendingWithdrawals.None?
    requires s.posting.sealedInboxChain.Some? && s.posting.sealedInboxCursor.Some?
    requires s.settledInboxCursor <= s.posting.sealedInboxCursor.value <= s.inboxCursor == |h.items|
    requires s.posting.sealedInboxChain.value == ChainAt(h.items, s.posting.sealedInboxCursor.value)
    requires BatchCodec.DecodeBatch(bytes) == Ok(Batch(txns))
    requires ItemsOf(txns) == h.items[s.settledInboxCursor..s.posting.sealedInboxCursor.value]
    requires Semantics.Run(h.accounts, txns).Some? && SignedThroughout(p.crypto, p.domain, h.accounts, txns)
    requires v.newRoot == Root(Semantics.Run(h.accounts, txns).value.accounts)
    requires v.withdrawalChain == WithdrawalChain(p.domain, Semantics.Run(h.accounts, txns).value.payouts)
    requires WatchOk(p.escapeGrace, a, s.inboxCursor, s.posting.sealedInboxCursor.value, s.escaped,
                     h.signalRound, h.signalTarget, extensions, discharged, work)
    ensures var h1 := Recorded(s, h, bytes, txns, Semantics.Run(h.accounts, txns).value);
            Inv(p,
                World(Advanced(p, s, v).(accusation := a),
                      h1.(extensions := extensions, discharged := discharged, windowWork := work)))
  {
    hide InboxOk, BoxesOk, BatchOk, LedgerOk, PayoutOk, WatchOk, SettledOk, RefundsOk, ExitsOk, Solvent, Liabilities;
    hide MinBalance, Root, BatchCodec.DecodeBatch, Semantics.Run, ChainAt, ItemsOf, WithdrawalChain, SignedThroughout;
    var o, sealed := Semantics.Run(h.accounts, txns).value, s.posting.sealedInboxCursor.value;
    var b := Settled(s.settledInboxCursor, sealed, bytes, txns, o.payouts);
    InboxSettled(h.items, s.inboxChain, s.inboxCursor, s.settledInboxChain, s.settledInboxCursor,
                 s.posting.sealedInboxChain.value, sealed);
    SettlementBooks(h.items, h.accounts, s.inbox, s.inboxCursor, s.settledInboxCursor, h.round, p.inboxBoxCost, sealed,
                    txns);
    BoxesSettled(h.items, s.inbox, s.inboxCursor, s.settledInboxCursor, h.round, p.inboxBoxCost, sealed);
    var pending := if v.withdrawalChain != PayoutEnd(p.domain) then Some(v.withdrawalChain) else s.pendingWithdrawals;
    BatchCleared(p.domain, h.items, s.posting, h.posted, s.inboxCursor, s.settledInboxCursor, s.escaped,
                 s.pendingWithdrawals, sealed, pending);
    LedgerSettled(h.items, s.stateRoot, s.settledInboxCursor, h.accounts, h.txns, sealed, txns);
    SettledLedger(h.items, s.stateRoot, s.settledInboxCursor, h.accounts, h.txns);
    SignedConcat(p.crypto, p.domain, map[], h.txns, txns);
    PayoutSettled(p, s.pendingWithdrawals, h.settled, h.paid, h.owed, h.accounts, b);
    SettledSettled(h.items, s.settledInboxCursor, h.settled, sealed, b);
    CursorFree(h.items, s, h, p.inboxBoxCost);
    RefundsNone(h.items, s.inbox, s.inboxCursor, sealed, h.round, p.inboxBoxCost);
    ExitsSettled(h.accounts, s.exits, h.exited, o.accounts);
    MinBalanceOfAdvanced(p, s, v, a);
  }

  lemma SettleKeeps(p: Deployment, s: State, h: History, env: Env, v: PublicValues, e: Evidence)
    requires Inv(p, World(s, h)) && Exposed(p, e) == Ok(v) && SettleBatch(p, s, env, v).Some?
    ensures Inv(p, World(SettleBatch(p, s, env, v).value, NoteSettlement(s, h, e.batchBytes)))
  {
    hide InboxOk, BoxesOk, BatchOk, LedgerOk, PayoutOk, WatchOk, SettledOk, RefundsOk, ExitsOk, Solvent, Liabilities;
    hide MinBalance, Root, BatchCodec.DecodeBatch, Semantics.Run, ChainAt, ItemsOf, WithdrawalChain, Exposed,
      BatchCommitment, FoldInbox, Concat, Inv, CreditEscapeProgress, NoteCredit, SignedThroughout;
    InvParts(p, s, h);
    SealedBounds(p, s, h, env, v);
    SettlementIsExact(p, s, h, env, v, e);
    var txns := BatchCodec.DecodeBatch(e.batchBytes).value.txns;
    var o, sealed := Semantics.Run(h.accounts, txns).value, s.posting.sealedInboxCursor.value;
    var s1, h1 := Advanced(p, s, v), Recorded(s, h, e.batchBytes, txns, o);
    var n := sealed - s.settledInboxCursor;
    WatchSettled(p.escapeGrace, s.accusation, s.inboxCursor, s.settledInboxCursor, s.escaped,
                 h.signalRound, h.signalTarget, h.extensions, h.discharged, h.windowWork, sealed);
    NoteCreditFrame(s, s1, h1, n);
    NoteCreditSilent(s, h1, n);
    if s.accusation.inboxTarget.None? {
      AdvancedHolds(p, s, h, v, e.batchBytes, txns, s.accusation, h.extensions, h.discharged, h.windowWork);
    } else if sealed >= s.accusation.inboxTarget.value {
      var h2 := NoteCredit(s, h1, n);
      WatchCleared(p.escapeGrace, s.inboxCursor, sealed, s.escaped, h.signalRound, h.signalTarget, h2.extensions,
                   h2.discharged, h2.windowWork);
      AdvancedHolds(p, s, h, v, e.batchBytes, txns, NO_ACCUSATION, h2.extensions, h2.discharged, h2.windowWork);
    } else {
      CreditKeepsWatch(p, s1, h1, n);
      var s2, h2 := CreditEscapeProgress(p, s1, n).value, NoteCredit(s1, h1, n);
      AdvancedHolds(p, s, h, v, e.batchBytes, txns, s2.accusation, h2.extensions, h2.discharged, h2.windowWork);
    }
  }

  lemma NoteCreditSilent(s: State, h: History, n: nat)
    ensures var h1 := NoteCredit(s, h, n);
            h1 == h.(extensions := h1.extensions, discharged := h1.discharged, windowWork := h1.windowWork)
    ensures s.accusation.deadline.None? ==> NoteCredit(s, h, n) == h
  {
  }

  lemma InvParts(p: Deployment, s: State, h: History)
    requires Inv(p, World(s, h))
    ensures BatchOk(p.domain, h.items, s.posting, h.posted, s.inboxCursor, s.settledInboxCursor, s.escaped,
                    s.pendingWithdrawals)
    ensures WatchOk(p.escapeGrace, s.accusation, s.inboxCursor, s.settledInboxCursor, s.escaped,
                    h.signalRound, h.signalTarget, h.extensions, h.discharged, h.windowWork)
  {
    hide InboxOk, BoxesOk, BatchOk, LedgerOk, PayoutOk, WatchOk, SettledOk, RefundsOk, ExitsOk, Solvent, Liabilities;
  }
}
