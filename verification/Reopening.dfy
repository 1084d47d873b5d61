/** Runs that reach an escape reopened by a late payout, and a drain the clock cannot carry. */
module Reopening {
  import opened Types
  import opened MerkleTree
  import opened Varint
  import opened Transactions
  import opened BatchCodec
  import opened Chains
  import opened Replay
  import opened Ledgers
  import opened Execution
  import opened Settlement
  import opened Runs
  import opened Invariants
  import opened Preservation
  import opened Guarantees
  import opened EndToEnd
  import opened DueEscapes
  import Wire
  import Semantics
  import SidecarCodec

  /** One obligation short of a tranche. */
  const SHORT: nat := 255

  function Repeat<T>(x: T, n: nat): (s: seq<T>)
    ensures |s| == n && forall i :: 0 <= i < n ==> s[i] == x
  {
    if n == 0 then [] else [x] + Repeat(x, n - 1)
  }

  lemma RepeatedIs<T>(s: seq<T>, x: T)
    requires forall i :: 0 <= i < |s| ==> s[i] == x
    ensures s == Repeat(x, |s|)
  {
  }

  // ----- the cast -----

  /** The account the managed scheme's empty key controls: nothing it signs is ever checked. */
  function Holder(p: Deployment): Address {
    p.crypto.addressOf(Managed, [])
  }

  /** Somebody other than the app. */
  function Funder(p: Deployment): L1Address {
    if p.app == ZERO_ADDRESS then FEE_SINK else ZERO_ADDRESS
  }

  function DepositCall(p: Deployment): Call
    requires p.inboxBoxCost + MIN_WITHDRAWAL <= MAX_U64
  {
    Call(Env(Funder(p), 0),
         DoDeposit(GroupPayment(Funder(p), p.app, p.inboxBoxCost + MIN_WITHDRAWAL), Holder(p)))
  }

  /** Enough deposits to fill all but one place of a tranche, and one withdrawal back out. */
  function Txns(p: Deployment): seq<Transaction> {
    Repeat(NewDeposit(Holder(p), MIN_WITHDRAWAL), SHORT)
    + [Withdrawal(TransactionHeader(Holder(p), 0), Funder(p), MIN_WITHDRAWAL)]
  }

  function Sigs(): seq<Signature> {
    Repeat(Signature(Managed, [], []), SHORT + 1)
  }

  // ----- filling the inbox -----

  /** A young contract with k deposits waiting and nothing else going on. */
  ghost predicate Stocked(p: Deployment, w: World, k: nat) {
    && w.h.items == Repeat(DepositItem(Holder(p), MIN_WITHDRAWAL), k)
    && w.s.settledInboxCursor == 0 && w.s.inboxCursor == k && w.s.settledInboxChain == Zero
    && w.s.posting == NO_POSTING && w.s.accusation == NO_ACCUSATION && w.s.pendingWithdrawals.None?
    && !w.s.escaped
    && w.h.accounts == map[] && w.h.owed == [] && w.h.round == 0
  }

  lemma OneDeposit(p: Deployment, w: World, k: nat)
    requires p.inboxBoxCost + MIN_WITHDRAWAL <= MAX_U64 && Inv(p, w) && Stocked(p, w, k) && k < MAX_U64
    ensures Step(p, w, DepositCall(p)).Some?
    ensures Inv(p, Step(p, w, DepositCall(p)).value) && Stocked(p, Step(p, w, DepositCall(p)).value, k + 1)
  {
    hide InboxOk, BatchOk, LedgerOk, PayoutOk, WatchOk, SettledOk, ExitsOk, BoxesOk, RefundsOk, MinBalance, Liabilities,
      Semantics.Run, SignedThroughout;
    var s, h, call := w.s, w.h, DepositCall(p);
    var item := DepositItem(Holder(p), MIN_WITHDRAWAL);
    CursorFree(h.items, s, h, p.inboxBoxCost);
    var record := InboxRecord(DepositKind, Holder(p), ZERO_ADDRESS, MIN_WITHDRAWAL, Funder(p), 0,
                              InboxDeposit(s.inboxChain, Holder(p), MIN_WITHDRAWAL));
    AppendBooks(p, s, h, record, p.inboxBoxCost + MIN_WITHDRAWAL);
    CursorOnly(p, s, record, p.inboxBoxCost + MIN_WITHDRAWAL);
    assert Step(p, w, call).Some?;
    StepKeeps(p, w, call);
    RepeatedIs(h.items + [item], item);
  }

  lemma CursorOnly(p: Deployment, s: State, record: InboxRecord, payment: u64)
    requires s.inboxCursor < MAX_U64
    ensures var s1 := s.(inbox := s.inbox[s.inboxCursor := record], balance := s.balance + payment,
                         inboxChain := record.chainAfter);
            var s2 := s.(inbox := s.inbox[s.inboxCursor := record], inboxCursor := s.inboxCursor + 1,
                         balance := s.balance + payment);
            MinBalance(p, s1) == MinBalance(p, s2)
  {
  }

  lemma {:induction false} ManyDeposits(p: Deployment, w: World, k: nat, n: nat)
    requires p.inboxBoxCost + MIN_WITHDRAWAL <= MAX_U64 && Inv(p, w) && Stocked(p, w, k) && k + n <= MAX_U64
    ensures var end := RunCalls(p, w, Repeat(DepositCall(p), n)); Inv(p, end) && Stocked(p, end, k + n)
    decreases n
  {
    hide Inv, Stocked, Step;
    if n > 0 {
      OneDeposit(p, w, k);
      assert Repeat(DepositCall(p), n)[1..] == Repeat(DepositCall(p), n - 1);
      ManyDeposits(p, Step(p, w, DepositCall(p)).value, k + 1, n - 1);
    }
  }

  lemma StartStocked(p: Deployment, balance: nat)
    requires balance >= p.baseMinBalance
    ensures Inv(p, Start(balance)) && Stocked(p, Start(balance), 0)
  {
    StartHolds(p, balance);
  }

  // ----- what the batch means -----

  /** The ledger once n deposits have been credited. */
  function Credited(a: Address, n: nat): Semantics.Ledger
    requires n * MIN_WITHDRAWAL <= MAX_U64
  {
    if n == 0 then map[] else map[a := Account(0, n * MIN_WITHDRAWAL, a)]
  }

  lemma CreditOne(a: Address, n: nat)
    requires (n + 1) * MIN_WITHDRAWAL <= MAX_U64
    ensures Semantics.Apply(Credited(a, n), NewDeposit(a, MIN_WITHDRAWAL))
         == Some(Semantics.Outcome(Credited(a, n + 1), [], []))
  {
    var m := Credited(a, n);
    assert Semantics.AccountAt(m, a) == Account(0, n * MIN_WITHDRAWAL, a);
    assert m[a := Account(0, (n + 1) * MIN_WITHDRAWAL, a)] == Credited(a, n + 1);
  }

  /** A transaction the holder makes or receives, on a ledger of no more than the holder's account. */
  lemma NoSiblings(a: Address, n: nat, txn: Transaction, sig: Signature)
    requires n * MIN_WITHDRAWAL <= MAX_U64 && Semantics.Apply(Credited(a, n), txn).Some?
    requires txn == NewDeposit(a, MIN_WITHDRAWAL) || (txn.Withdrawal? && txn.header == TransactionHeader(a, 0))
    ensures DigestsOf(HonestEntry(Credited(a, n), txn, sig)) == []
  {
    var m := Credited(a, n);
    var t := if n == 0 then Empty else Leaf(a, m[a]);
    assert Accounts(t) == m;
    TreeOfIsOnly(t);
  }

  lemma {:induction false} DepositsRun(p: Deployment, n: nat, left: nat, sigs: seq<Signature>, last: Transaction)
    requires (n + left) * MIN_WITHDRAWAL <= MAX_U64 && n + left > 0 && |sigs| == left + 1
    requires last == Withdrawal(TransactionHeader(Holder(p), 0), Funder(p), MIN_WITHDRAWAL)
    requires forall i :: 0 <= i < |sigs| ==> sigs[i] == Signature(Managed, [], [])
    ensures var m, txns := Credited(Holder(p), n), Repeat(NewDeposit(Holder(p), MIN_WITHDRAWAL), left) + [last];
            && Semantics.Run(m, txns).Some?
            && Semantics.Run(m, txns).value.payouts == [(Funder(p), MIN_WITHDRAWAL)]
            && Signed(p.crypto, p.domain, m, txns, sigs)
            && (forall e :: e in HonestEntries(m, txns, sigs) ==> DigestsOf(e) == [])
    decreases left
  {
    hide Credited, DigestsOf, HonestEntry, Semantics.Apply, BytesToSign;
    var a := Holder(p);
    var m, txns := Credited(a, n), Repeat(NewDeposit(a, MIN_WITHDRAWAL), left) + [last];
    if left == 0 {
      assert txns == [last];
      LastWithdrawal(p, n, last, sigs[0]);
      var o := Semantics.Apply(m, last).value;
      assert txns[1..] == [] && sigs[1..] == [];
      assert o.payouts + [] == o.payouts;
      NoSiblings(a, n, last, sigs[0]);
    } else {
      CreditOne(a, n);
      DepositsRun(p, n + 1, left - 1, sigs[1..], last);
      assert txns[0] == NewDeposit(a, MIN_WITHDRAWAL);
      assert txns[1..] == Repeat(NewDeposit(a, MIN_WITHDRAWAL), left - 1) + [last];
      var o := Semantics.Run(Credited(a, n + 1), txns[1..]).value;
      assert [] + o.payouts == o.payouts;
      NoSiblings(a, n, txns[0], sigs[0]);
    }
  }

  lemma LastWithdrawal(p: Deployment, n: nat, last: Transaction, sig: Signature)
    requires n > 0 && n * MIN_WITHDRAWAL <= MAX_U64 && sig == Signature(Managed, [], [])
    requires last == Withdrawal(TransactionHeader(Holder(p), 0), Funder(p), MIN_WITHDRAWAL)
    ensures Authorizes(p.crypto, p.domain, Credited(Holder(p), n), last, sig)
    ensures Semantics.Apply(Credited(Holder(p), n), last).Some?
    ensures Semantics.Apply(Credited(Holder(p), n), last).value.payouts == [(Funder(p), MIN_WITHDRAWAL)]
  {
    hide BytesToSign;
    assert Credited(Holder(p), n)[Holder(p)].amount >= MIN_WITHDRAWAL;
  }

  lemma {:induction false} DepositItems(a: Address, n: nat, last: Transaction)
    requires ItemOf(last) == []
    ensures ItemsOf(Repeat(NewDeposit(a, MIN_WITHDRAWAL), n) + [last]) == Repeat(DepositItem(a, MIN_WITHDRAWAL), n)
  {
    var txns := Repeat(NewDeposit(a, MIN_WITHDRAWAL), n) + [last];
    if n == 0 {
      assert txns == [last] && txns[1..] == [];
    } else {
      DepositItems(a, n - 1, last);
      assert txns[1..] == Repeat(NewDeposit(a, MIN_WITHDRAWAL), n - 1) + [last];
    }
  }

  // ----- how long the batch is -----

  lemma TxnIsShort(dict: Positions, txn: Transaction)
    requires Wire.Dense(dict) && |dict| + 2 <= MAX_U64
    ensures |PutTxn(dict, txn).0| <= 200
    ensures Wire.Dense(PutTxn(dict, txn).1) && |PutTxn(dict, txn).1| <= |dict| + 2
  {
    hide PutVarint, Wire.Dense, PutAddress;
    match txn {
      case Payment(header, receiver, amount) =>
        AddressIsShort(dict, header.sender);
        AddressIsShort(PutAddress(dict, header.sender).1, receiver);
        VarintRoundTrip(header.fee, []);
        VarintRoundTrip(amount, []);
      case Deposit(_, receiver, amount) =>
        AddressIsShort(dict, receiver);
        VarintRoundTrip(amount, []);
      case Withdrawal(header, _, amount) =>
        AddressIsShort(dict, header.sender);
        VarintRoundTrip(header.fee, []);
        VarintRoundTrip(amount, []);
      case ForcedWithdrawal(header, _) =>
        AddressIsShort(dict, header.sender);
    }
  }

  lemma AddressIsShort(dict: Positions, a: Address)
    requires Wire.Dense(dict) && |dict| + 1 <= MAX_U64
    ensures |PutAddress(dict, a).0| <= 33
    ensures Wire.Dense(PutAddress(dict, a).1) && |PutAddress(dict, a).1| <= |dict| + 1
  {
    hide PutVarint, Wire.Dense;
    Wire.DenseStep(dict, a);
    if a in dict {
      VarintRoundTrip(dict[a], []);
    }
  }

  lemma {:induction false} TxnsAreShort(dict: Positions, txns: seq<Transaction>)
    requires Wire.Dense(dict) && |dict| + 2 * |txns| <= MAX_U64
    ensures |PutTxns(dict, txns)| <= 200 * |txns|
    decreases |txns|
  {
    hide PutTxn, Wire.Dense;
    if txns != [] {
      TxnIsShort(dict, txns[0]);
      TxnsAreShort(PutTxn(dict, txns[0]).1, txns[1..]);
    }
  }

  lemma BatchIsShort(txns: seq<Transaction>)
    requires |txns| <= 1000
    ensures |EncodeBatch(Batch(txns))| <= MAX_U64
  {
    hide PutVarint, PutTxns;
    TxnsAreShort(map[], txns);
    VarintRoundTrip(|txns|, []);
  }

  // ----- the run -----

  /** Timeouts and prices that leave the run below room on the clock and in a payment. */
  predicate Roomy(p: Deployment) {
    p.inboxBoxCost + MIN_WITHDRAWAL <= MAX_U64 && p.inboxTimeout + 1 + p.escapeGrace <= MAX_U64
  }

  function SignalCall(p: Deployment): Call
    requires Roomy(p)
  {
    Call(Env(Funder(p), p.inboxTimeout + 1), DoSignalEscape)
  }

  /** A tranche of deposits, and an accusation as soon as the first of them is stale. */
  function Opening(p: Deployment): seq<Call>
    requires Roomy(p)
  {
    Repeat(DepositCall(p), SHORT + 1) + [SignalCall(p)]
  }

  /** An accusation one obligation short of its next window, with one payout outstanding. */
  ghost predicate OnTheBrink(p: Deployment, w: World) {
    && w.h.round == p.inboxTimeout + 1
    && !w.s.escaped
    && w.s.accusation.deadline.Some? && w.s.accusation.deadline.value == p.inboxTimeout + 1 + p.escapeGrace
    && w.s.accusation.progress == Some(SHORT)
    && w.h.owed == [(Funder(p), MIN_WITHDRAWAL)]
    && w.s.pendingWithdrawals == Some(WithdrawalChain(p.domain, w.h.owed))
  }

  /** Accused, with all but one of the entries it is accused over about to be settled. */
  ghost predicate Accused(p: Deployment, w: World) {
    && w.h.items == Repeat(DepositItem(Holder(p), MIN_WITHDRAWAL), SHORT + 1)
    && w.s.settledInboxCursor == 0 && w.s.inboxCursor == SHORT + 1 && w.s.settledInboxChain == Zero
    && w.s.posting == NO_POSTING && !w.s.escaped
    && w.h.accounts == map[] && w.h.owed == [] && w.h.round == p.inboxTimeout + 1
    && w.s.accusation == Accusation(w.s.accusation.deadline, Some(SHORT + 1), Some(0))
    && w.s.accusation.deadline.Some? && w.s.accusation.deadline.value == p.inboxTimeout + 1 + p.escapeGrace
  }

  lemma SignalTaken(p: Deployment, w: World)
    requires Roomy(p) && Inv(p, w) && Stocked(p, w, SHORT + 1)
    ensures Step(p, w, SignalCall(p)).Some?
  {
    hide Inv;
    HeadIsOldest(p, w, 0);
    FirstRound(p, w);
  }

  lemma SignalStep(p: Deployment, w: World)
    requires Roomy(p) && Inv(p, w) && Stocked(p, w, SHORT + 1)
    ensures Step(p, w, SignalCall(p)).Some?
    ensures Inv(p, Step(p, w, SignalCall(p)).value) && Accused(p, Step(p, w, SignalCall(p)).value)
  {
    hide Inv;
    SignalTaken(p, w);
    StepKeeps(p, w, SignalCall(p));
  }

  lemma FirstRound(p: Deployment, w: World)
    requires Inv(p, w) && 0 in w.s.inbox
    ensures w.s.inbox[0].round <= w.h.round
  {
    hide InboxOk, BatchOk, LedgerOk, PayoutOk, WatchOk, SettledOk, RefundsOk, ExitsOk, Solvent, ChainAt, RecordsItem;
  }

  lemma OpeningAccuses(p: Deployment, balance: nat)
    requires Roomy(p) && balance >= p.baseMinBalance
    ensures Inv(p, Reached(p, balance, Opening(p))) && Accused(p, Reached(p, balance, Opening(p)))
  {
    hide Inv, Stocked, Accused, Step;
    StartStocked(p, balance);
    ManyDeposits(p, Start(balance), 0, SHORT + 1);
    var w := RunCalls(p, Start(balance), Repeat(DepositCall(p), SHORT + 1));
    SignalStep(p, w);
    OneCall(p, w, SignalCall(p));
    RunCallsConcat(p, Start(balance), Repeat(DepositCall(p), SHORT + 1), [SignalCall(p)]);
  }

  ghost function TheBlock(p: Deployment): Block
    requires Semantics.Run(map[], Txns(p)).Some?
  {
    BlockOf(p.domain, map[], Zero, Txns(p), Sigs())
  }

  lemma BlockIsSound(p: Deployment)
    ensures Semantics.Run(map[], Txns(p)).Some?
    ensures Semantics.Run(map[], Txns(p)).value.payouts == [(Funder(p), MIN_WITHDRAWAL)]
    ensures Signed(p.crypto, p.domain, map[], Txns(p), Sigs())
    ensures forall e :: e in HonestEntries(map[], Txns(p), Sigs()) ==> Distinguishes(p.wire, DigestsOf(e))
    ensures WellFormed(Txns(p), Sigs())
    ensures ItemsOf(Txns(p)) == Repeat(DepositItem(Holder(p), MIN_WITHDRAWAL), SHORT)
    ensures |BatchBytes(TheBlock(p))| <= MAX_U64
  {
    hide Semantics.Run, Signed, HonestEntries, DigestsOf, EncodeBatch, SidecarCodec.Sized;
    var last := Withdrawal(TransactionHeader(Holder(p), 0), Funder(p), MIN_WITHDRAWAL);
    DepositsRun(p, 0, SHORT, Sigs(), last);
    DepositItems(Holder(p), SHORT, last);
    BatchIsShort(Txns(p));
    assert SidecarCodec.Sized(Signature(Managed, [], [])) by { Unsigned(); }
  }

  lemma Unsigned()
    ensures SidecarCodec.Sized(Signature(Managed, [], []))
  {
  }

  lemma ReadyToSettle(p: Deployment, w: World, env: Env)
    requires Accused(p, w) && env.sender == p.creator && env.round == w.h.round
    ensures Ready(p, w, env, SHORT)
  {
  }

  /** Settling all but one of the entries an accusation is over leaves it one short of a window. */
  lemma OneShort(p: Deployment, s: State)
    requires s.settledInboxCursor == 0 && s.accusation.deadline.Some?
    requires s.accusation == Accusation(s.accusation.deadline, Some(SHORT + 1), Some(0))
    ensures AccusationAfter(p, s, SHORT) == s.accusation.(progress := Some(SHORT))
  {
  }

  lemma BrinkStep(p: Deployment, w: World) returns (settle: seq<Call>)
    requires Roomy(p) && Accused(p, w) && Inv(p, w)
    ensures Inv(p, RunCalls(p, w, settle)) && OnTheBrink(p, RunCalls(p, w, settle))
  {
    hide Inv, Semantics.Run, Signed, HonestEntries, DigestsOf, WellFormed, BatchBytes, ItemsOf, SettleCalls, BlockOf,
      Distinguishes, WithdrawalChain, Root, Ready, AccusationAfter, RunCalls;
    BlockIsSound(p);
    var env := Env(p.creator, p.inboxTimeout + 1);
    assert w.h.items[0..SHORT] == Repeat(DepositItem(Holder(p), MIN_WITHDRAWAL), SHORT) by {
      RepeatedIs(w.h.items[0..SHORT], DepositItem(Holder(p), MIN_WITHDRAWAL));
    }
    ReadyToSettle(p, w, env);
    HonestSequencerSettles(p, w, env, SHORT, Txns(p), Sigs());
    var e := EvidenceFor(p, TheBlock(p));
    assert e.batchBytes == BatchBytes(TheBlock(p));
    settle := SettleCalls(env, SHORT, e);
    OneShort(p, w.s);
    OwedIsChained(p, RunCalls(p, w, settle));
  }

  /** In any roomy deployment a run of calls anyone and the sequencer can make reaches the brink. */
  lemma BrinkIsReached(p: Deployment, balance: nat) returns (calls: seq<Call>)
    requires Roomy(p) && balance >= p.baseMinBalance
    ensures Inv(p, Reached(p, balance, calls)) && OnTheBrink(p, Reached(p, balance, calls))
  {
    hide Accused, OnTheBrink, RunCalls, Inv;
    OpeningAccuses(p, balance);
    var w := Reached(p, balance, Opening(p));
    var settle := BrinkStep(p, w);
    calls := Opening(p) + settle;
    RunCallsConcat(p, Start(balance), Opening(p), settle);
  }

  /** The payout outstanding on the brink, made by the sequencer once the deadline has passed. */
  function LatePayout(p: Deployment): Call
    requires p.inboxTimeout + 1 + p.escapeGrace < MAX_U64
  {
    Call(Env(p.creator, p.inboxTimeout + 1 + p.escapeGrace + 1),
         DoPayWithdrawal(Funder(p), MIN_WITHDRAWAL, PayoutEnd(p.domain), 0))
  }

  /**
   * A due escape can be reopened. In every deployment with a grace period and room on the clock there
   * is a run after which the escape is due, and a payout by the sequencer that is accepted and after
   * which it no longer is.
   */
  lemma DueEscapeCanReopen(p: Deployment, balance: nat) returns (calls: seq<Call>)
    requires Roomy(p) && balance >= p.baseMinBalance
    requires p.escapeGrace >= 1 && p.inboxTimeout + 1 + 2 * p.escapeGrace <= MAX_U64
    ensures var w, late := Reached(p, balance, calls), LatePayout(p);
            && ExecuteEscape(p, w.s, late.env).Some?
            && Step(p, w, late).Some?
            && ExecuteEscape(p, Step(p, w, late).value.s, late.env).None?
            && !Step(p, w, late).value.s.escaped
  {
    hide Inv, Reached, NoteCredit, Pay;
    calls := BrinkIsReached(p, balance);
    var w, late := Reached(p, balance, calls), LatePayout(p);
    NothingAfter(p, w);
    PayoutsNeverFallShort(p, w, late.env, Funder(p), MIN_WITHDRAWAL, PayoutEnd(p.domain), 0);
    DueStep(p, w, late);
  }

  lemma NothingAfter(p: Deployment, w: World)
    requires w.h.owed == [(Funder(p), MIN_WITHDRAWAL)]
    ensures WithdrawalChain(p.domain, w.h.owed) == Payout(PayoutEnd(p.domain), Funder(p), MIN_WITHDRAWAL)
  {
    assert w.h.owed[1..] == [];
  }

  /**
   * The clock can run out. In a deployment whose second grace window would not fit it there is a run
   * after which the sequencer's drain fails, and the very payout it owes is refused it; anybody else
   * can still make it.
   */
  lemma ClockCanRunOut(p: Deployment, balance: nat, other: L1Address) returns (calls: seq<Call>)
    requires Roomy(p) && balance >= p.baseMinBalance && other != p.creator
    requires p.inboxTimeout + 1 + 2 * p.escapeGrace > MAX_U64
    ensures var w, round := Reached(p, balance, calls), p.inboxTimeout + 1;
            && !ClockAllows(p, w.s.accusation, Env(p.creator, round), |w.h.owed|)
            && w.h.owed == [(Funder(p), MIN_WITHDRAWAL)]
            && PayWithdrawal(p, w.s, Env(p.creator, round), Funder(p), MIN_WITHDRAWAL, PayoutEnd(p.domain), 0).None?
            && PayWithdrawal(p, w.s, Env(other, round), Funder(p), MIN_WITHDRAWAL, PayoutEnd(p.domain), 0).Some?
  {
    hide Inv, Reached, Pay;
    calls := BrinkIsReached(p, balance);
    var w, round := Reached(p, balance, calls), p.inboxTimeout + 1;
    NothingAfter(p, w);
    PayoutsNeverFallShort(p, w, Env(p.creator, round), Funder(p), MIN_WITHDRAWAL, PayoutEnd(p.domain), 0);
    PayoutsNeverFallShort(p, w, Env(other, round), Funder(p), MIN_WITHDRAWAL, PayoutEnd(p.domain), 0);
  }

  // ----- in particular -----

  /** A small deployment: a week's timeout in rounds, and whatever grace is wanted. */
  function Example(grace: u64): Deployment {
    Deployment(Crypto((_, _) => ZERO_ADDRESS, (_, _, _, _) => None, (_, _, _) => true),
               DigestWire(_ => ZERO_ADDRESS, (word: Bytes32) => Raw(word)),
               ZERO_ADDRESS, FEE_SINK, FEE_SINK, ZERO_ADDRESS, 216_000, grace, 100_000, 70_500, 18_900)
  }

  lemma ExamplesExist() returns (reopened: seq<Call>, stuck: seq<Call>)
    ensures var p, w := Example(31_000), Reached(Example(31_000), 1_000_000, reopened);
            ExecuteEscape(p, w.s, LatePayout(p).env).Some? && Step(p, w, LatePayout(p)).Some?
            && ExecuteEscape(p, Step(p, w, LatePayout(p)).value.s, LatePayout(p).env).None?
    ensures var p := Example(0x8000_0000_0000_0000);
            var w := Reached(p, 1_000_000, stuck);
            !ClockAllows(p, w.s.accusation, Env(p.creator, 216_001), |w.h.owed|)
  {
    hide Reached, ExecuteEscape, Step, ClockAllows;
    reopened := DueEscapeCanReopen(Example(31_000), 1_000_000);
    stuck := ClockCanRunOut(Example(0x8000_0000_0000_0000), 1_000_000, ZERO_ADDRESS);
  }
}
