/** The inbox never asks for the impossible: there is always a batch that consumes it. */
module Answering {
  import opened Types
  import opened Transactions
  import opened Chains
  import opened Replay
  import opened Settlement
  import opened Runs
  import opened Invariants
  import Semantics

  /** The transaction an inbox item calls for. */
  function AnswerTo(item: InboxItem): Transaction {
    match item
    case DepositItem(receiver, amount) => NewDeposit(receiver, amount)
    case RequestItem(owner, recipient) => NewForcedWithdrawal(owner, recipient)
  }

  function Answers(items: seq<InboxItem>): (txns: seq<Transaction>)
    ensures |txns| == |items|
  {
    if items == [] then [] else [AnswerTo(items[0])] + Answers(items[1..])
  }

  lemma {:induction false} AnswersHaveItems(items: seq<InboxItem>)
    ensures ItemsOf(Answers(items)) == items
    ensures forall txn :: txn in Answers(items) ==> ConstructorHeader(txn) && !Semantics.NeedsSignature(txn)
  {
    if items != [] {
      AnswersHaveItems(items[1..]);
      assert items == [items[0]] + items[1..];
    }
  }

  /** Room for what the items bring in, and for every nonce a forced withdrawal could use up. */
  ghost predicate HasRoom(m: Semantics.Ledger, items: seq<InboxItem>) {
    && Semantics.Total(m) + SumItems(items) <= MAX_U64
    && forall a :: Semantics.NonceAt(m, a) + |items| <= MAX_U64
  }

  lemma AmountWithinTotal(m: Semantics.Ledger, a: Address)
    requires a in m
    ensures m[a].amount <= Semantics.Total(m)
  {
    hide Semantics.Total;
    Semantics.TotalWithout(m, a);
  }

  lemma AnswerApplies(m: Semantics.Ledger, item: InboxItem)
    requires Semantics.Total(m) + (if item.DepositItem? then item.amount else 0) <= MAX_U64
    requires forall a :: Semantics.NonceAt(m, a) < MAX_U64
    ensures Semantics.Apply(m, AnswerTo(item)).Some?
  {
    hide Semantics.Total;
    var a := if item.DepositItem? then item.receiver else item.owner;
    if a in m {
      AmountWithinTotal(m, a);
      assert Semantics.NonceAt(m, a) < MAX_U64;
    }
  }

  /** One answer uses up no more room than its item took. */
  lemma AnswerKeepsRoom(m: Semantics.Ledger, items: seq<InboxItem>)
    requires items != [] && HasRoom(m, items) && Semantics.Apply(m, AnswerTo(items[0])).Some?
    ensures HasRoom(Semantics.Apply(m, AnswerTo(items[0])).value.accounts, items[1..])
  {
    hide Semantics.Total, Semantics.Apply, Semantics.NonceAt, Semantics.SpendsOf;
    var txn := AnswerTo(items[0]);
    var o := Semantics.Apply(m, txn).value;
    Semantics.ApplyConserves(m, txn);
    forall a
      ensures Semantics.NonceAt(o.accounts, a) + |items[1..]| <= MAX_U64
    {
      assert Semantics.NonceAt(m, a) + |items| <= MAX_U64;
      Semantics.ApplyAccounts(m, txn, a);
      OneSpendAtMost(m, txn, a);
    }
  }

  lemma OneSpendAtMost(m: Semantics.Ledger, txn: Transaction, a: Address)
    requires Semantics.Apply(m, txn).Some?
    ensures Semantics.SpendsOf(Semantics.Apply(m, txn).value.spends, a) <= 1
  {
    hide Semantics.Apply;
    Semantics.ApplySpends(m, txn);
    var spends := Semantics.Apply(m, txn).value.spends;
    if spends != [] {
      assert spends == [spends[0]];
      Semantics.OneSpend(spends[0], a);
    }
  }

  lemma {:induction false} AnswersRun(m: Semantics.Ledger, items: seq<InboxItem>)
    requires HasRoom(m, items)
    ensures Semantics.Run(m, Answers(items)).Some?
    decreases |items|
  {
    hide Semantics.Total, Semantics.Apply, AnswerTo;
    if items != [] {
      forall a
        ensures Semantics.NonceAt(m, a) < MAX_U64
      {
        assert Semantics.NonceAt(m, a) + |items| <= MAX_U64;
      }
      AnswerApplies(m, items[0]);
      AnswerKeepsRoom(m, items);
      AnswersRun(Semantics.Apply(m, AnswerTo(items[0])).value.accounts, items[1..]);
    }
  }

  lemma {:induction false} NothingToSign(c: Crypto, domain: DeploymentDomain, m: Semantics.Ledger,
                                         txns: seq<Transaction>, sigs: seq<Signature>)
    requires |txns| == |sigs| && Semantics.Run(m, txns).Some?
    requires forall txn :: txn in txns ==> !Semantics.NeedsSignature(txn)
    ensures Signed(c, domain, m, txns, sigs)
    decreases |txns|
  {
    hide Semantics.Apply, Authorizes;
    if txns != [] {
      assert !Semantics.NeedsSignature(txns[0]);
      NothingToSign(c, domain, Semantics.Apply(m, txns[0]).value.accounts, txns[1..], sigs[1..]);
    }
  }

  lemma SumWithin(items: seq<InboxItem>, lo: nat, mid: nat, hi: nat)
    requires lo <= mid <= hi <= |items|
    ensures SumItems(items[lo..mid]) <= SumItems(items[lo..hi])
  {
    assert items[lo..mid] + items[mid..hi] == items[lo..hi];
    SumItemsConcat(items[lo..mid], items[mid..hi]);
  }

  /** What the ledger holds and what waits to be credited are both covered by the app's balance. */
  lemma PendingIsBacked(p: Deployment, w: World, target: u64)
    requires Inv(p, w) && !w.s.escaped && w.s.settledInboxCursor <= target <= w.s.inboxCursor
    ensures target <= |w.h.items|
    ensures Semantics.Total(w.h.accounts) + SumItems(w.h.items[w.s.settledInboxCursor..target]) <= w.s.balance
  {
    hide BatchOk, LedgerOk, PayoutOk, WatchOk, SettledOk, RefundsOk, SignedThroughout, Pending, SumItems, ChainAt;
    hide Semantics.Total, Semantics.SumPayouts;
    var s, items := w.s, w.h.items;
    assert w.h.accounts - s.exits.Keys == w.h.accounts;
    PendingIsItems(s.inbox, items, s.settledInboxCursor, s.inboxCursor);
    SumWithin(items, s.settledInboxCursor, target, s.inboxCursor);
  }

  /**
   * The sequencer can always do its duty. From any state of a run, for every prefix of the pending
   * inbox, the plain list of answers to it is valid on the settled ledger, has exactly those inbox
   * items, and needs nobody's signature. The app's balance and the accounts' nonces are machine
   * integers with room to spare.
   */
  lemma InboxCanBeConsumed(p: Deployment, w: World, target: u64, sigs: seq<Signature>)
    requires Inv(p, w) && !w.s.escaped && w.s.settledInboxCursor <= target <= w.s.inboxCursor
    requires w.s.balance <= MAX_U64
    requires forall a :: Semantics.NonceAt(w.h.accounts, a) + (target - w.s.settledInboxCursor) <= MAX_U64
    requires |sigs| == target - w.s.settledInboxCursor
    ensures target <= |w.h.items|
    ensures var pending := w.h.items[w.s.settledInboxCursor..target];
            && Semantics.Run(w.h.accounts, Answers(pending)).Some?
            && ItemsOf(Answers(pending)) == pending
            && Signed(p.crypto, p.domain, w.h.accounts, Answers(pending), sigs)
            && forall txn :: txn in Answers(pending) ==> ConstructorHeader(txn)
  {
    hide Inv, Semantics.Total, SumItems, Semantics.Run, Signed, ItemsOf, ConstructorHeader, Semantics.NeedsSignature;
    PendingIsBacked(p, w, target);
    var pending := w.h.items[w.s.settledInboxCursor..target];
    AnswersRun(w.h.accounts, pending);
    AnswersHaveItems(pending);
    NothingToSign(p.crypto, p.domain, w.h.accounts, Answers(pending), sigs);
  }
}
