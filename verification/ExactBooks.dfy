/** The books close exactly: what the app holds beyond what it owes is what it was given, to the unit. */
module ExactBooks {
  import opened Types
  import opened Chains
  import opened MerkleProofs
  import opened Execution
  import opened Settlement
  import opened Runs
  import opened Invariants
  import opened Preservation
  import opened SettlementStep
  import opened Guarantees
  import BatchCodec
  import Semantics

  /** What the app holds beyond its minimum balance and its debts. */
  ghost function Surplus(p: Deployment, w: World): int {
    w.s.balance - Owing(p, w.s, w.h)
  }

  /** What a call adds to the surplus: a donation, or a payment the app makes to itself. */
  function Gift(p: Deployment, s: State, call: Call): nat {
    match call.action
    case Donate(amount) => amount
    case DoPayWithdrawal(payee, sum, _, _) => if payee == p.app then sum else 0
    case DoReclaimDeposit(index, _) =>
      if index in s.inbox && s.inbox[index].payer == p.app then s.inbox[index].amount + p.inboxBoxCost else 0
    case DoPruneDeposit(index, _) => if index in s.inbox && s.inbox[index].payer == p.app then p.inboxBoxCost else 0
    case DoPruneRequest(index, _) => if index in s.inbox && s.inbox[index].payer == p.app then p.inboxBoxCost else 0
    case DoForceExit(claim, _) =>
      if claim.recipient == p.app && claim.account.amount > p.exitBoxCost then claim.account.amount - p.exitBoxCost
      else 0
    case _ => 0
  }

  /** Gifts over a run, from the calls that succeed in it. */
  function Gifts(p: Deployment, w: World, calls: seq<Call>): nat
    decreases |calls|
  {
    if calls == [] then 0
    else
      match Step(p, w, calls[0])
      case None => Gifts(p, w, calls[1..])
      case Some(next) => Gift(p, w.s, calls[0]) + Gifts(p, next, calls[1..])
  }

  /** Nothing that is owed, or charged for, depends on anything else. */
  lemma SameBooks(p: Deployment, s: State, h: History, s1: State, h1: History)
    requires s1.inbox == s.inbox && s1.exits == s.exits
    requires s1.inboxCursor == s.inboxCursor && s1.settledInboxCursor == s.settledInboxCursor
    requires h1.accounts == h.accounts && h1.owed == h.owed
    ensures Owing(p, s1, h1) == Owing(p, s, h)
  {
  }

  /** A successful inner payment leaves all but the balance, and its receiver is the app or somebody else. */
  lemma PayMoves(p: Deployment, s: State, receiver: L1Address, amount: nat, receiverBalance: nat)
    requires Pay(p, s, receiver, amount, receiverBalance).Some?
    ensures Pay(p, s, receiver, amount, receiverBalance).value
         == s.(balance := if receiver == p.app then s.balance else s.balance - amount,
               sent := s.sent + [Transfer(receiver, amount)])
    ensures amount <= s.balance
  {
  }

  lemma AppendGives(p: Deployment, w: World, record: InboxRecord, payment: u64, s1: State, h1: History)
    requires Inv(p, w) && Append(p, w.s, record, payment).Some?
    requires payment == NextBoxCost(p, w.s) + if record.kind == DepositKind then record.amount else 0
    requires s1.inbox == Append(p, w.s, record, payment).value.inbox
    requires s1.(inbox := w.s.inbox, inboxChain := w.s.inboxChain, inboxCursor := w.s.inboxCursor,
                 requestCursor := w.s.requestCursor, balance := w.s.balance) == w.s
    requires s1.inboxCursor == w.s.inboxCursor + 1 && s1.balance == w.s.balance + payment
    requires h1.accounts == w.h.accounts && h1.owed == w.h.owed
    ensures Surplus(p, World(s1, h1)) == Surplus(p, w)
  {
    hide BatchOk, LedgerOk, PayoutOk, WatchOk, SettledOk, ExitsOk, Solvent, BoxesOk, RefundsOk, Owing, InboxOk,
      MinBalance;
    var s, h := w.s, w.h;
    CursorFree(h.items, s, h, p.inboxBoxCost);
    SettledBelow(h.items, s);
    AppendBooks(p, s, h, record, payment);
    var s0 := s.(inbox := s.inbox[s.inboxCursor := record], inboxCursor := s.inboxCursor + 1,
                 balance := s.balance + payment);
    SameBooks(p, s0, h, s1, h1);
  }

  lemma RefundGives(p: Deployment, w: World, index: u64, extra: u64, receiverBalance: nat, h1: History)
    requires Inv(p, w) && index in w.s.inbox && Refund(p, w.s, index, extra, receiverBalance).Some?
    requires extra == if w.s.settledInboxCursor <= index < w.s.inboxCursor then PendingAt(w.s.inbox, index) else 0
    requires h1.accounts == w.h.accounts && h1.owed == w.h.owed
    ensures Surplus(p, World(Refund(p, w.s, index, extra, receiverBalance).value, h1))
         == Surplus(p, w) + if w.s.inbox[index].payer == p.app then extra + p.inboxBoxCost else 0
  {
    hide Inv, Owing, Pay;
    var s1 := w.s.(inbox := w.s.inbox - {index});
    RefundBooks(p, w.s, w.h, index, extra);
    PayMoves(p, s1, w.s.inbox[index].payer, extra + p.inboxBoxCost, receiverBalance);
    SameBooks(p, s1, w.h, Refund(p, w.s, index, extra, receiverBalance).value, h1);
  }

  lemma PendingExtra(p: Deployment, w: World, index: u64)
    requires Inv(p, w) && index in w.s.inbox
    ensures index < w.s.inboxCursor
    ensures w.s.inbox[index].kind == RequestKind ==> PendingAt(w.s.inbox, index) == 0
    ensures w.s.inbox[index].kind == DepositKind ==> PendingAt(w.s.inbox, index) == w.s.inbox[index].amount
  {
    hide InboxOk, BatchOk, LedgerOk, PayoutOk, WatchOk, SettledOk, RefundsOk, ExitsOk, Solvent;
  }

  lemma RefundCalls(p: Deployment, w: World, call: Call)
    requires Inv(p, w) && Step(p, w, call).Some?
    requires call.action.DoReclaimDeposit? || call.action.DoPruneDeposit? || call.action.DoPruneRequest?
    ensures Surplus(p, Step(p, w, call).value) == Surplus(p, w) + Gift(p, w.s, call)
  {
    hide Inv, Surplus, Refund, PendingAt;
    var a, h1 := call.action, Step(p, w, call).value.h;
    PendingExtra(p, w, a.index);
    RefundGives(p, w, a.index, if a.DoReclaimDeposit? then w.s.inbox[a.index].amount else 0, a.receiverBalance, h1);
  }

  lemma ExitCall(p: Deployment, w: World, call: Call)
    requires Inv(p, w) && Step(p, w, call).Some? && call.action.DoForceExit?
    ensures Surplus(p, Step(p, w, call).value) == Surplus(p, w) + Gift(p, w.s, call)
  {
    hide InboxOk, BoxesOk, BatchOk, LedgerOk, PayoutOk, WatchOk, SettledOk, RefundsOk, ExitsOk, Solvent, Owing, Exits,
      Pay;
    var e, s, h := call.action.claim, w.s, w.h;
    RootKept(s, h);
    ExitClaimIsTrue(p, s, h.accounts, e);
    FreshExit(p, s, e);
    ExitBooks(p, s, h, e.address);
    var s1 := s.(exits := s.exits[e.address := e.account.amount]);
    PayMoves(p, s1, e.recipient, e.account.amount - p.exitBoxCost, call.action.receiverBalance);
    SameBooks(p, s1, h, Step(p, w, call).value.s, Step(p, w, call).value.h);
  }

  lemma FreshExit(p: Deployment, s: State, e: ExitClaim)
    requires Exits(p, s, e)
    ensures e.address !in s.exits
  {
    hide PathHash, Words, ExitMessage;
  }

  lemma PayoutCall(p: Deployment, w: World, call: Call)
    requires Inv(p, w) && Step(p, w, call).Some? && call.action.DoPayWithdrawal?
    ensures Surplus(p, Step(p, w, call).value) == Surplus(p, w) + Gift(p, w.s, call)
  {
    hide InboxOk, BoxesOk, BatchOk, LedgerOk, PayoutOk, WatchOk, SettledOk, RefundsOk, ExitsOk, Solvent, Owing, Pay,
      CreditEscapeProgress, NoteCredit, WithdrawalChain;
    var a, s, h := call.action, w.s, w.h;
    NextPayout(p, s, h, a.payee, a.sum, a.tail);
    var s1 := s.(pendingWithdrawals := if a.tail == PayoutEnd(p.domain) then None else Some(a.tail));
    CreditTouchesClockOnly(p, s1);
    var s2 := if call.env.sender == p.creator then CreditEscapeProgress(p, s1, 1).value else s1;
    PayMoves(p, s2, a.payee, a.sum, a.receiverBalance);
    var h1 := h.(owed := h.owed[1..]);
    OneLessOwed(p, s, h);
    NoteCreditSilent(s, h.(round := call.env.round, paid := h.paid + [(a.payee, a.sum)], owed := h.owed[1..]), 1);
    SameBooks(p, s, h1, Step(p, w, call).value.s, Step(p, w, call).value.h);
  }

  lemma OneLessOwed(p: Deployment, s: State, h: History)
    requires h.owed != []
    ensures Owing(p, s, h) == Owing(p, s, h.(owed := h.owed[1..])) + h.owed[0].1
  {
    hide Semantics.Total, Pending, MinBalance;
  }

  lemma SettleCall(p: Deployment, w: World, call: Call)
    requires Inv(p, w) && Step(p, w, call).Some? && call.action.DoVerifyBatch?
    ensures Surplus(p, Step(p, w, call).value) == Surplus(p, w) + Gift(p, w.s, call)
  {
    hide InboxOk, BoxesOk, BatchOk, LedgerOk, PayoutOk, WatchOk, SettledOk, RefundsOk, ExitsOk, Solvent, Owing,
      CreditEscapeProgress, NoteCredit, Exposed, BatchCodec.DecodeBatch, Semantics.Run, ItemsOf, WithdrawalChain;
    hide ValuesOf, Concat, Inv;
    var s, h, e := w.s, w.h.(round := call.env.round), call.action.evidence;
    var v := Exposed(p, e).value;
    LaterRound(p, s, w.h, call.env.round);
    SettlementIsExact(p, s, h, call.env, v, e);
    var txns := BatchCodec.DecodeBatch(e.batchBytes).value.txns;
    var o, sealed := Semantics.Run(h.accounts, txns).value, s.posting.sealedInboxCursor.value;
    SettlingParts(p, s, h, call.env, v);
    SettlementBooks(h.items, h.accounts, s.inbox, s.inboxCursor, s.settledInboxCursor, h.round, p.inboxBoxCost, sealed,
                    txns);
    SettledOwing(p, s, h, sealed, o);
    AnsweredFrame(p, Advanced(p, s, v), s.settledInboxCursor);
    var h1 := NoteSettlement(s, h, e.batchBytes);
    NoteCreditSilent(s, Recorded(s, h, e.batchBytes, txns, o), sealed - s.settledInboxCursor);
    SameBooks(p, s.(settledInboxCursor := sealed), h.(accounts := o.accounts, owed := o.payouts),
              Step(p, w, call).value.s, h1);
    SameBooks(p, s, h, w.s, w.h);
  }

  lemma SettlingParts(p: Deployment, s: State, h: History, env: Env, v: PublicValues)
    requires Inv(p, World(s, h)) && Settles(p, s, env, v)
    ensures BoxesOk(h.items, s.inbox, s.inboxCursor, s.settledInboxCursor, false, h.round, p.inboxBoxCost)
    ensures s.exits == map[] && h.owed == [] && s.posting.sealedInboxCursor.Some?
    ensures s.settledInboxCursor <= s.posting.sealedInboxCursor.value <= s.inboxCursor
  {
    hide InboxOk, BoxesOk, LedgerOk, WatchOk, SettledOk, RefundsOk, Solvent, ChainAt, FoldChunks, PostsInto, Concat,
      WithdrawalChain;
  }

  lemma SettledOwing(p: Deployment, s: State, h: History, sealed: u64, o: Semantics.Outcome)
    requires s.exits == map[] && h.owed == []
    requires Liabilities(o.accounts, map[], s.inbox, s.inboxCursor, sealed, o.payouts)
          == Liabilities(h.accounts, map[], s.inbox, s.inboxCursor, s.settledInboxCursor, [])
    ensures Owing(p, s.(settledInboxCursor := sealed), h.(accounts := o.accounts, owed := o.payouts)) == Owing(p, s, h)
  {
    hide Liabilities;
  }

  lemma AnsweredFrame(p: Deployment, s: State, prior: u64)
    requires Answered(p, s, prior).Some?
    ensures Answered(p, s, prior).value == s.(accusation := Answered(p, s, prior).value.accusation)
  {
  }

  lemma InboxCall(p: Deployment, w: World, call: Call)
    requires Inv(p, w) && Step(p, w, call).Some? && (call.action.DoDeposit? || call.action.DoRequest?)
    ensures Surplus(p, Step(p, w, call).value) == Surplus(p, w) + Gift(p, w.s, call)
  {
    hide Inv, Surplus, RequestMessage;
    var next := Step(p, w, call).value;
    AppendGives(p, w, next.s.inbox[w.s.inboxCursor], call.action.payment.amount, next.s, next.h);
  }

  /** Every call moves the surplus by its gift and by nothing else. */
  lemma StepBooks(p: Deployment, w: World, call: Call)
    requires Inv(p, w) && Step(p, w, call).Some?
    ensures Surplus(p, Step(p, w, call).value) == Surplus(p, w) + Gift(p, w.s, call)
  {
    hide Inv, Owing, Exposed, Exits, NoteSettlement, NoteCredit, AcceptDeposit, RequestWithdrawal, SettleBatch,
      ForceExit,
      PayWithdrawal, Refund;
    var a, next := call.action, Step(p, w, call).value;
    if a.DoDeposit? || a.DoRequest? {
      InboxCall(p, w, call);
    } else if a.DoVerifyBatch? {
      SettleCall(p, w, call);
    } else if a.DoPayWithdrawal? {
      PayoutCall(p, w, call);
    } else if a.DoReclaimDeposit? || a.DoPruneDeposit? || a.DoPruneRequest? {
      RefundCalls(p, w, call);
    } else if a.DoForceExit? {
      ExitCall(p, w, call);
    } else {
      SameBooks(p, w.s, w.h, next.s, next.h);
    }
  }

  lemma {:induction false} RunBooks(p: Deployment, w: World, calls: seq<Call>)
    requires Inv(p, w)
    ensures Surplus(p, RunCalls(p, w, calls)) == Surplus(p, w) + Gifts(p, w, calls)
    decreases |calls|
  {
    hide Inv, Step, Surplus, Gift;
    if calls != [] {
      match Step(p, w, calls[0]) {
        case None => RunBooks(p, w, calls[1..]);
        case Some(next) =>
          StepKeeps(p, w, calls[0]);
          StepBooks(p, w, calls[0]);
          RunBooks(p, next, calls[1..]);
      }
    }
  }

  /**
   * The books of every run close exactly: what the app holds is what it owes, what it was created with
   * beyond its base, and what it was given since. Nothing is stranded and nothing leaks.
   */
  lemma BooksCloseExactly(p: Deployment, balance: nat, calls: seq<Call>)
    requires balance >= p.baseMinBalance
    ensures var w := Reached(p, balance, calls);
            w.s.balance == Owing(p, w.s, w.h) + (balance - p.baseMinBalance) + Gifts(p, Start(balance), calls)
  {
    hide Inv, Owing, Gifts, RunCalls;
    StartHolds(p, balance);
    RunBooks(p, Start(balance), calls);
    StartOwes(p, balance);
  }

  lemma StartOwes(p: Deployment, balance: nat)
    ensures Owing(p, Start(balance).s, Start(balance).h) == p.baseMinBalance
  {
    var none: Semantics.Ledger := map[];
    assert none - {} == none;
  }
}
