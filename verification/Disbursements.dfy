/** To whom every payment out of the app goes, in terms of who paid for what and who is owed. */
module Disbursements {
  import opened Types
  import opened Transactions
  import opened Chains
  import opened Replay
  import opened Settlement
  import opened Runs
  import opened Invariants
  import opened Preservation
  import opened Guarantees

  // ----- who opened each entry -----

  /** Every standing box names the account whose payment opened its entry, and the round; a deposit's, no recipient. */
  ghost predicate OpenedOk(s: State, h: History) {
    && |h.openings| == s.inboxCursor
    && forall i :: i in s.inbox ==>
         && i < |h.openings| && s.inbox[i].payer == h.openings[i].payer && s.inbox[i].round == h.openings[i].round
         && (s.inbox[i].kind == DepositKind ==> s.inbox[i].recipient == ZERO_ADDRESS)
  }

  lemma StepOpens(p: Deployment, w: World, call: Call)
    requires OpenedOk(w.s, w.h) && Step(p, w, call).Some?
    ensures OpenedOk(Step(p, w, call).value.s, Step(p, w, call).value.h)
  {
    hide Act, Note;
    if call.action.DoDeposit? || call.action.DoRequest? {
      EntryOpens(p, w.s, w.h, call);
    } else {
      OthersOpenNothing(p, w.s, w.h, call);
    }
  }

  lemma EntryOpens(p: Deployment, s: State, h: History, call: Call)
    requires (call.action.DoDeposit? || call.action.DoRequest?) && Act(p, s, call).Some?
    ensures var s1, opening := Act(p, s, call).value, Opening(call.action.payment.sender, call.env.round);
            && s1.inboxCursor == s.inboxCursor + 1
            && s1.inbox.Keys == s.inbox.Keys + {s.inboxCursor}
            && (forall i :: i in s.inbox && i != s.inboxCursor ==> s1.inbox[i] == s.inbox[i])
            && Opening(s1.inbox[s.inboxCursor].payer, s1.inbox[s.inboxCursor].round) == opening
            && (s1.inbox[s.inboxCursor].kind == DepositKind ==> s1.inbox[s.inboxCursor].recipient == ZERO_ADDRESS)
            && Note(p, s, h, call).openings == h.openings + [opening]
  {
    hide RequestMessage, MinBalance;
  }

  lemma OthersOpenNothing(p: Deployment, s: State, h: History, call: Call)
    requires !call.action.DoDeposit? && !call.action.DoRequest? && Act(p, s, call).Some?
    ensures var s1 := Act(p, s, call).value;
            && s1.inboxCursor == s.inboxCursor
            && s1.inbox.Keys <= s.inbox.Keys
            && forall i :: i in s1.inbox ==> s1.inbox[i] == s.inbox[i]
    ensures Note(p, s, h, call).openings == h.openings
  {
    hide Exposed, Exits, MinBalance, CanReceive, NoteSettlement, CreditEscapeProgress, NoteCredit;
    CreditReadsNoBoxes(p);
    CreditNotesNoOpenings(s);
    if call.action.DoVerifyBatch? {
      SettlingNotesNoOpenings(s, h.(round := call.env.round), call.action.evidence.batchBytes);
    }
  }

  lemma CreditReadsNoBoxes(p: Deployment)
    ensures forall s: State, n: nat :: CreditEscapeProgress(p, s, n).Some? ==>
              && CreditEscapeProgress(p, s, n).value.inbox == s.inbox
              && CreditEscapeProgress(p, s, n).value.inboxCursor == s.inboxCursor
              && CreditEscapeProgress(p, s, n).value.sent == s.sent
  {
  }

  lemma CreditNotesNoOpenings(s: State)
    ensures forall h: History, n: nat :: NoteCredit(s, h, n).openings == h.openings
  {
  }

  lemma SettlingNotesNoOpenings(s: State, h: History, bytes: seq<byte>)
    ensures NoteSettlement(s, h, bytes).openings == h.openings
  {
  }

  lemma {:induction false} RunOpens(p: Deployment, w: World, calls: seq<Call>)
    requires OpenedOk(w.s, w.h)
    ensures OpenedOk(RunCalls(p, w, calls).s, RunCalls(p, w, calls).h)
    decreases |calls|
  {
    hide Step, OpenedOk;
    if calls != [] {
      match Step(p, w, calls[0]) {
        case None => RunOpens(p, w, calls[1..]);
        case Some(next) =>
          StepOpens(p, w, calls[0]);
          RunOpens(p, next, calls[1..]);
      }
    }
  }

  lemma ReachedOpens(p: Deployment, balance: nat, calls: seq<Call>)
    ensures OpenedOk(Reached(p, balance, calls).s, Reached(p, balance, calls).h)
  {
    hide RunCalls;
    RunOpens(p, Start(balance), calls);
  }

  // ----- when an accusation stands -----

  /** Something still pending was accepted more than the timeout ago. */
  ghost predicate SomethingStale(p: Deployment, w: World, round: u64) {
    exists i: nat :: w.s.settledInboxCursor <= i < w.s.inboxCursor && i < |w.h.openings|
                     && w.h.openings[i].round + p.inboxTimeout < round
  }

  /** An escape can be signalled exactly when an entry has waited out the timeout, by the round it was accepted. */
  lemma StaleIsAccused(p: Deployment, w: World, env: Env)
    requires Inv(p, w) && OpenedOk(w.s, w.h)
    ensures SignalEscape(p, w.s, env).Some? <==>
            && !w.s.escaped && w.s.accusation.deadline.None? && env.round + p.escapeGrace <= MAX_U64
            && SomethingStale(p, w, env.round)
    ensures SignalEscape(p, w.s, env).Some? ==>
              && env.round + p.escapeGrace <= MAX_U64
              && SignalEscape(p, w.s, env).value.accusation
                 == Accusation(Some(env.round + p.escapeGrace), Some(w.s.inboxCursor), Some(0))
  {
    hide Inv;
    if !w.s.escaped && SomethingStale(p, w, env.round) {
      var i: nat :| w.s.settledInboxCursor <= i < w.s.inboxCursor && i < |w.h.openings|
                    && w.h.openings[i].round + p.inboxTimeout < env.round;
      HeadIsOldest(p, w, i);
    }
    if SignalEscape(p, w.s, env).Some? {
      assert w.s.settledInboxCursor < |w.h.openings|;
    }
  }

  /** In every run, by the rounds of the calls that made the entries. */
  lemma FreshIsNotAccused(p: Deployment, balance: nat, calls: seq<Call>, env: Env)
    requires balance >= p.baseMinBalance
    ensures var w := Reached(p, balance, calls);
            SignalEscape(p, w.s, env).Some? <==>
              && !w.s.escaped && w.s.accusation.deadline.None? && env.round + p.escapeGrace <= MAX_U64
              && SomethingStale(p, w, env.round)
  {
    hide Inv, Reached, SignalEscape, SomethingStale, OpenedOk;
    ReachedHolds(p, balance, calls);
    ReachedOpens(p, balance, calls);
    StaleIsAccused(p, Reached(p, balance, calls), env);
  }

  // ----- every payment out -----

  /** What a call should send: a debt to its creditor, a refund to the opener, a balance to whom its holder says. */
  function Disbursement(p: Deployment, h: History, call: Call): seq<Transfer> {
    match call.action
    case DoPayWithdrawal(_, _, _, _) => if h.owed == [] then [] else [Transfer(h.owed[0].0, h.owed[0].1)]
    case DoReclaimDeposit(i, _) =>
      if i >= |h.openings| || i >= |h.items| || !h.items[i].DepositItem? then []
      else [Transfer(h.openings[i].payer, h.items[i].amount + p.inboxBoxCost)]
    case DoPruneDeposit(i, _) => if i >= |h.openings| then [] else [Transfer(h.openings[i].payer, p.inboxBoxCost)]
    case DoPruneRequest(i, _) => if i >= |h.openings| then [] else [Transfer(h.openings[i].payer, p.inboxBoxCost)]
    case DoForceExit(e, _) =>
      if e.address !in h.accounts || h.accounts[e.address].amount < p.exitBoxCost then []
      else [Transfer(e.recipient, h.accounts[e.address].amount - p.exitBoxCost)]
    case _ => []
  }

  function Disbursed(p: Deployment, w: World, calls: seq<Call>): seq<Transfer>
    decreases |calls|
  {
    if calls == [] then []
    else
      match Step(p, w, calls[0])
      case None => Disbursed(p, w, calls[1..])
      case Some(next) => Disbursement(p, w.h, calls[0]) + Disbursed(p, next, calls[1..])
  }

  lemma PaySends(p: Deployment, s: State, receiver: L1Address, amount: nat, receiverBalance: nat)
    requires Pay(p, s, receiver, amount, receiverBalance).Some?
    ensures Pay(p, s, receiver, amount, receiverBalance).value.sent == s.sent + [Transfer(receiver, amount)]
  {
  }

  lemma RefundSends(p: Deployment, w: World, call: Call)
    requires Inv(p, w) && OpenedOk(w.s, w.h) && Step(p, w, call).Some?
    requires call.action.DoReclaimDeposit? || call.action.DoPruneDeposit? || call.action.DoPruneRequest?
    ensures call.action.index < |w.h.openings|
    ensures Step(p, w, call).value.s.sent == w.s.sent + Disbursement(p, w.h, call)
    ensures Disbursement(p, w.h, call) != []
  {
    hide Inv, OpenedOk, Refund, Note;
    var a, i := call.action, call.action.index;
    BoxMeans(p, w, i);
    RefundSent(p, w.s, i, if a.DoReclaimDeposit? then w.s.inbox[i].amount else 0, a.receiverBalance);
  }

  /** What a standing box says of its entry. */
  lemma BoxMeans(p: Deployment, w: World, i: u64)
    requires Inv(p, w) && OpenedOk(w.s, w.h)
    ensures i in w.s.inbox ==>
              && i < |w.h.items| && i < |w.h.openings|
              && w.s.inbox[i].payer == w.h.openings[i].payer
              && (w.s.inbox[i].kind == DepositKind <==> w.h.items[i].DepositItem?)
              && (w.h.items[i].DepositItem? ==> w.s.inbox[i].amount == w.h.items[i].amount)
  {
    hide InboxOk, BoxesOk, BatchOk, LedgerOk, PayoutOk, WatchOk, SettledOk, RefundsOk, ExitsOk, Solvent,
      SignedThroughout;
    if i in w.s.inbox {
      PruneRequestItem(w.h.items, w.s, w.h, p.inboxBoxCost, i);
    }
  }

  lemma RefundSent(p: Deployment, s: State, index: u64, extra: u64, receiverBalance: nat)
    requires index in s.inbox && Refund(p, s, index, extra, receiverBalance).Some?
    ensures Refund(p, s, index, extra, receiverBalance).value.sent
         == s.sent + [Transfer(s.inbox[index].payer, extra + p.inboxBoxCost)]
  {
    hide MinBalance, CanReceive;
  }

  lemma PayoutSends(p: Deployment, w: World, call: Call)
    requires Inv(p, w) && Step(p, w, call).Some? && call.action.DoPayWithdrawal?
    ensures Step(p, w, call).value.s.sent == w.s.sent + Disbursement(p, w.h, call)
  {
    hide InboxOk, BoxesOk, BatchOk, LedgerOk, PayoutOk, WatchOk, SettledOk, RefundsOk, ExitsOk, Solvent, Pay,
      SignedThroughout, CreditEscapeProgress, WithdrawalChain;
    var a := call.action;
    NextPayout(p, w.s, w.h, a.payee, a.sum, a.tail);
    CreditReadsNoBoxes(p);
    var s1 := w.s.(pendingWithdrawals := if a.tail == PayoutEnd(p.domain) then None else Some(a.tail));
    var s2 := if call.env.sender == p.creator then CreditEscapeProgress(p, s1, 1).value else s1;
    PaySends(p, s2, a.payee, a.sum, a.receiverBalance);
  }

  lemma ExitSends(p: Deployment, w: World, call: Call)
    requires Inv(p, w) && Step(p, w, call).Some? && call.action.DoForceExit?
    ensures Step(p, w, call).value.s.sent == w.s.sent + Disbursement(p, w.h, call)
  {
    hide InboxOk, BoxesOk, BatchOk, LedgerOk, PayoutOk, WatchOk, SettledOk, RefundsOk, ExitsOk, Solvent, Pay,
      SignedThroughout, Exits;
    var e := call.action.claim;
    RootKept(w.s, w.h);
    ExitClaimIsTrue(p, w.s, w.h.accounts, e);
    PaySends(p, w.s.(exits := w.s.exits[e.address := e.account.amount]), e.recipient, e.account.amount - p.exitBoxCost,
             call.action.receiverBalance);
  }

  /** A call sends exactly its disbursement. */
  lemma StepSends(p: Deployment, w: World, call: Call)
    requires Inv(p, w) && OpenedOk(w.s, w.h) && Step(p, w, call).Some?
    ensures Step(p, w, call).value.s.sent == w.s.sent + Disbursement(p, w.h, call)
  {
    hide Inv, OpenedOk, Act, Note;
    var a := call.action;
    if a.DoReclaimDeposit? || a.DoPruneDeposit? || a.DoPruneRequest? {
      RefundSends(p, w, call);
    } else if a.DoPayWithdrawal? {
      PayoutSends(p, w, call);
    } else if a.DoForceExit? {
      ExitSends(p, w, call);
    } else {
      OthersSendNothing(p, w.s, call);
    }
  }

  lemma OthersSendNothing(p: Deployment, s: State, call: Call)
    requires Act(p, s, call).Some?
    requires !call.action.DoReclaimDeposit? && !call.action.DoPruneDeposit? && !call.action.DoPruneRequest?
    requires !call.action.DoPayWithdrawal? && !call.action.DoForceExit?
    ensures Act(p, s, call).value.sent == s.sent
  {
    hide Exposed, RequestMessage, NextBoxCost, MinBalance;
  }

  lemma {:induction false} RunSends(p: Deployment, w: World, calls: seq<Call>)
    requires Inv(p, w) && OpenedOk(w.s, w.h)
    ensures RunCalls(p, w, calls).s.sent == w.s.sent + Disbursed(p, w, calls)
    decreases |calls|
  {
    hide Inv, OpenedOk, Step, Disbursement;
    if calls == [] {
      assert w.s.sent + [] == w.s.sent;
    } else {
      match Step(p, w, calls[0]) {
        case None => RunSends(p, w, calls[1..]);
        case Some(next) =>
          StepKeeps(p, w, calls[0]);
          StepOpens(p, w, calls[0]);
          StepSends(p, w, calls[0]);
          RunSends(p, next, calls[1..]);
          var now, later := Disbursement(p, w.h, calls[0]), Disbursed(p, next, calls[1..]);
          assert (w.s.sent + now) + later == w.s.sent + (now + later);
      }
    }
  }

  /**
   * Every payment the app has ever made, in order, is one it owed: a batch's payout to the payee the
   * batch named, a box or a deposit back to whoever's payment opened the entry, or a settled balance
   * to the recipient its holder asked for.
   */
  lemma EveryPaymentIsOwed(p: Deployment, balance: nat, calls: seq<Call>)
    requires balance >= p.baseMinBalance
    ensures Reached(p, balance, calls).s.sent == Disbursed(p, Start(balance), calls)
  {
    hide Inv, OpenedOk, Disbursed, RunCalls;
    StartHolds(p, balance);
    StartOpens(balance);
    RunSends(p, Start(balance), calls);
    assert [] + Disbursed(p, Start(balance), calls) == Disbursed(p, Start(balance), calls);
  }

  lemma StartOpens(balance: nat)
    ensures OpenedOk(Start(balance).s, Start(balance).h)
  {
  }

  /** In every run a refund goes to the account whose payment opened the entry, and to nobody else. */
  lemma RefundsGoToOpener(p: Deployment, balance: nat, calls: seq<Call>, call: Call)
    requires balance >= p.baseMinBalance
    requires call.action.DoReclaimDeposit? || call.action.DoPruneDeposit? || call.action.DoPruneRequest?
    requires Step(p, Reached(p, balance, calls), call).Some?
    ensures var w, i := Reached(p, balance, calls), call.action.index;
            && i < |w.h.openings| == |w.h.items|
            && (call.action.DoReclaimDeposit? ==> w.h.items[i].DepositItem?)
            && Step(p, w, call).value.s.sent
               == w.s.sent + [Transfer(w.h.openings[i].payer,
                                       p.inboxBoxCost
                                       + if call.action.DoReclaimDeposit? then w.h.items[i].amount else 0)]
  {
    hide Inv, Reached, OpenedOk, Step;
    ReachedHolds(p, balance, calls);
    ReachedOpens(p, balance, calls);
    RefundSends(p, Reached(p, balance, calls), call);
    EntriesOpened(p, Reached(p, balance, calls));
  }

  lemma EntriesOpened(p: Deployment, w: World)
    requires Inv(p, w) && OpenedOk(w.s, w.h)
    ensures |w.h.openings| == |w.h.items|
  {
    hide BoxesOk, BatchOk, LedgerOk, PayoutOk, WatchOk, SettledOk, RefundsOk, ExitsOk, Solvent, SignedThroughout,
      ChainAt;
  }
}
