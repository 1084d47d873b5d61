/** The contract's counters against what happened: requests accepted, obligations discharged. */
module Accounting {
  import opened Types
  import opened Encoding
  import opened Transactions
  import opened Chains
  import opened Replay
  import opened Execution
  import opened Settlement
  import opened Runs
  import opened Invariants
  import opened Preservation
  import opened SettlementStep
  import opened Guarantees
  import BatchCodec
  import Semantics

  // ----- requests -----

  function RequestsIn(items: seq<InboxItem>): nat {
    if items == [] then 0
    else RequestsIn(items[..|items| - 1]) + if items[|items| - 1].RequestItem? then 1 else 0
  }

  lemma RequestsSnoc(items: seq<InboxItem>, item: InboxItem)
    ensures RequestsIn(items + [item]) == RequestsIn(items) + if item.RequestItem? then 1 else 0
  {
    assert (items + [item])[..|items|] == items;
  }

  lemma RequestStep(p: Deployment, w: World, call: Call)
    requires Step(p, w, call).Some?
    ensures var next := Step(p, w, call).value;
            && next.s.requestCursor == w.s.requestCursor + (if call.action.DoRequest? then 1 else 0)
            && RequestsIn(next.h.items) == RequestsIn(w.h.items) + (if call.action.DoRequest? then 1 else 0)
            && (call.action.DoRequest? ==> call.action.expectedNonce == w.s.requestCursor)
  {
    hide Exposed, Exits, RequestMessage, NoteSettlement, NoteCredit, RequestsIn, CreditEscapeProgress, MinBalance,
      CanReceive;
    var a := call.action;
    match a {
      case DoDeposit(payment, recipient) =>
        RequestsSnoc(w.h.items, DepositItem(recipient, if payment.amount < NextBoxCost(p, w.s) then 0
                                                       else payment.amount - NextBoxCost(p, w.s)));
      case DoRequest(_, _, address, to, _, _, _) =>
        RequestsSnoc(w.h.items, RequestItem(address, to));
      case DoVerifyBatch(e) =>
        SettlementKeepsItems(w.s, w.h.(round := call.env.round), e.batchBytes);
        CreditFrame(p);
      case _ =>
        NoteCreditItems(w.s);
        CreditFrame(p);
    }
  }

  lemma SettlementKeepsItems(s: State, h: History, bytes: seq<byte>)
    ensures NoteSettlement(s, h, bytes).items == h.items
  {
  }

  lemma NoteCreditItems(s: State)
    ensures forall h: History, n: nat :: NoteCredit(s, h, n).items == h.items
  {
  }

  lemma CreditFrame(p: Deployment)
    ensures forall s: State, n: nat :: CreditEscapeProgress(p, s, n).Some? ==>
              CreditEscapeProgress(p, s, n).value.requestCursor == s.requestCursor
  {
  }

  /** The request nonce counts the requests accepted, and never goes back. */
  lemma {:induction false} RequestCursorCounts(p: Deployment, w: World, calls: seq<Call>)
    requires w.s.requestCursor == RequestsIn(w.h.items)
    ensures var end := RunCalls(p, w, calls);
            w.s.requestCursor <= end.s.requestCursor == RequestsIn(end.h.items)
    decreases |calls|
  {
    hide Step, RequestsIn;
    if calls != [] {
      match Step(p, w, calls[0]) {
        case None => RequestCursorCounts(p, w, calls[1..]);
        case Some(next) =>
          RequestStep(p, w, calls[0]);
          RequestCursorCounts(p, next, calls[1..]);
      }
    }
  }

  /** What a request's signature covers. */
  function RequestSigned(p: Deployment, call: Call): seq<byte>
    requires call.action.DoRequest?
  {
    RequestMessage(p, call.action.expectedNonce, call.action.address, call.action.to)
  }

  /** A request's signature covers the deployment, the nonce, the account and the recipient, and is for these alone. */
  lemma RequestMessageInjective(p: Deployment, n: u64, a: Address, to: L1Address,
                                p': Deployment, n': u64, a': Address, to': L1Address)
    requires RequestMessage(p, n, a, to) == RequestMessage(p', n', a', to')
    ensures p.domain == p'.domain && n == n' && a == a' && to == to'
  {
    SplitAppend(TAG_REQUEST + p.domain + U64Bytes(n) + a, TAG_REQUEST + p'.domain + U64Bytes(n') + a', to, to');
    SplitAppend(TAG_REQUEST + p.domain + U64Bytes(n), TAG_REQUEST + p'.domain + U64Bytes(n'), a, a');
    SplitAppend(TAG_REQUEST + p.domain, TAG_REQUEST + p'.domain, U64Bytes(n), U64Bytes(n'));
    SplitAppend(TAG_REQUEST, TAG_REQUEST, p.domain, p'.domain);
    U64BytesInjective(n, n');
  }

  /** An exit's covers the deployment, the account and the recipient. */
  lemma ExitMessageInjective(p: Deployment, a: Address, to: L1Address, p': Deployment, a': Address, to': L1Address)
    requires ExitMessage(p, a, to) == ExitMessage(p', a', to')
    ensures p.domain == p'.domain && a == a' && to == to'
  {
    SplitAppend(TAG_EXIT + p.domain + a, TAG_EXIT + p'.domain + a', to, to');
    SplitAppend(TAG_EXIT + p.domain, TAG_EXIT + p'.domain, a, a');
    SplitAppend(TAG_EXIT, TAG_EXIT, p.domain, p'.domain);
  }

  /** A key that signs for a spend, a request or an exit has signed for no other of the three, in any deployment. */
  lemma PurposesNeverMix(p: Deployment, n: u64, a: Address, to: L1Address, p': Deployment, a': Address, to': L1Address,
                         domain: DeploymentDomain, txn: Transaction, nonce: u64)
    requires Semantics.NeedsSignature(txn)
    ensures RequestMessage(p, n, a, to) != ExitMessage(p', a', to')
    ensures BytesToSign(domain, txn, nonce) != RequestMessage(p, n, a, to)
    ensures BytesToSign(domain, txn, nonce) != ExitMessage(p', a', to')
  {
    assert |RequestMessage(p, n, a, to)| == 108 && |ExitMessage(p', a', to')| == 100;
    assert |BytesToSign(domain, txn, nonce)| == 123;
  }

  /**
   * No two requests accepted in one run, whatever happens between them, are signed by one message: a
   * signature seen once on the settlement chain is spent.
   */
  lemma RequestsNeverShareAMessage(p: Deployment, balance: nat, before: seq<Call>, first: Call, between: seq<Call>,
                                   second: Call)
    requires first.action.DoRequest? && second.action.DoRequest?
    requires var w := Reached(p, balance, before);
             && Step(p, w, first).Some?
             && Step(p, RunCalls(p, Step(p, w, first).value, between), second).Some?
    ensures RequestSigned(p, first) != RequestSigned(p, second)
  {
    hide Step, RequestMessage, RunCalls, RequestsIn;
    StartCounts(balance);
    RequestCursorCounts(p, Start(balance), before);
    var w := Reached(p, balance, before);
    RequestStep(p, w, first);
    var w1 := Step(p, w, first).value;
    RequestCursorCounts(p, w1, between);
    RequestStep(p, RunCalls(p, w1, between), second);
    var a, b := first.action, second.action;
    if RequestSigned(p, first) == RequestSigned(p, second) {
      RequestMessageInjective(p, a.expectedNonce, a.address, a.to, p, b.expectedNonce, b.address, b.to);
    }
  }

  lemma StartCounts(balance: nat)
    ensures Start(balance).s.requestCursor == RequestsIn(Start(balance).h.items)
  {
  }

  // ----- obligations -----

  /** How many payouts the sequencer makes over a run. */
  function PayoutsByCreator(p: Deployment, w: World, calls: seq<Call>): nat
    decreases |calls|
  {
    if calls == [] then 0
    else
      match Step(p, w, calls[0])
      case None => PayoutsByCreator(p, w, calls[1..])
      case Some(next) => PaidByCreator(p, calls[0]) + PayoutsByCreator(p, next, calls[1..])
  }

  function PaidByCreator(p: Deployment, call: Call): nat {
    if call.action.DoPayWithdrawal? && call.env.sender == p.creator then 1 else 0
  }

  /** Obligations counted towards the next window, and the windows bought so far. */
  datatype Tally = Tally(work: nat, windows: nat)

  /** A call's obligations go in together, and buy one window at most; what is over goes with it. */
  function Count(t: Tally, n: nat): Tally {
    if t.work + n >= 256 then Tally(0, t.windows + 1) else Tally(t.work + n, t.windows)
  }

  /** The obligations a call discharges: entries it settles, and a payout made by the sequencer. */
  function Discharges(p: Deployment, w: World, call: Call, next: World): nat {
    PaidByCreator(p, call)
    + if next.s.settledInboxCursor < w.s.settledInboxCursor then 0
      else next.s.settledInboxCursor - w.s.settledInboxCursor
  }

  /** What a run's calls add to a tally. */
  function Counted(p: Deployment, w: World, calls: seq<Call>, t: Tally): Tally
    decreases |calls|
  {
    if calls == [] then t
    else
      match Step(p, w, calls[0])
      case None => Counted(p, w, calls[1..], t)
      case Some(next) => Counted(p, next, calls[1..], Count(t, Discharges(p, w, calls[0], next)))
  }

  function TallyOf(h: History): Tally {
    Tally(h.windowWork, h.extensions)
  }

  /** While an accusation lasts, the tally moves with the settled cursor and the sequencer's payouts. */
  lemma WorkStep(p: Deployment, w: World, call: Call)
    requires Inv(p, w) && Step(p, w, call).Some? && !call.action.DoSignalEscape?
    requires Step(p, w, call).value.s.accusation.deadline.Some?
    ensures var next := Step(p, w, call).value;
            && w.s.accusation.deadline.Some?
            && next.h.signalRound == w.h.signalRound
            && w.s.settledInboxCursor <= next.s.settledInboxCursor
            && next.h.discharged == w.h.discharged + (next.s.settledInboxCursor - w.s.settledInboxCursor)
                                    + PaidByCreator(p, call)
            && TallyOf(next.h) == Count(TallyOf(w.h), Discharges(p, w, call, next))
  {
    hide Inv, Act, Note;
    if w.s.accusation.deadline.Some? {
      WatchedProgress(p, w);
    }
    if call.action.DoVerifyBatch? {
      SettleWork(p, w, call);
    } else if call.action.DoPayWithdrawal? {
      PayWork(p, w, call);
    } else {
      IdleWork(p, w.s, w.h, call);
    }
  }

  /** The remaining calls neither discharge anything nor touch an accusation, unless to drop it. */
  lemma IdleWork(p: Deployment, s: State, h: History, call: Call)
    requires !call.action.DoSignalEscape? && !call.action.DoVerifyBatch? && !call.action.DoPayWithdrawal?
    requires Act(p, s, call).Some?
    ensures Act(p, s, call).value.settledInboxCursor == s.settledInboxCursor
    ensures Act(p, s, call).value.accusation.deadline.Some? ==> Act(p, s, call).value.accusation == s.accusation
    ensures Note(p, s, h, call).signalRound == h.signalRound && Note(p, s, h, call).discharged == h.discharged
    ensures TallyOf(Note(p, s, h, call)) == TallyOf(h)
  {
    hide Exits, RequestMessage, NextBoxCost, MinBalance, CanReceive;
  }

  lemma PayWork(p: Deployment, w: World, call: Call)
    requires Inv(p, w) && Step(p, w, call).Some? && call.action.DoPayWithdrawal?
    requires Step(p, w, call).value.s.accusation.deadline.Some?
    ensures var next := Step(p, w, call).value;
            && w.s.accusation.deadline.Some?
            && next.h.signalRound == w.h.signalRound
            && next.s.settledInboxCursor == w.s.settledInboxCursor
            && next.h.discharged == w.h.discharged + PaidByCreator(p, call)
            && TallyOf(next.h) == if call.env.sender == p.creator then Count(TallyOf(w.h), 1) else TallyOf(w.h)
  {
    hide Inv;
    if w.s.accusation.deadline.Some? {
      WatchedProgress(p, w);
    }
  }

  lemma SettleWork(p: Deployment, w: World, call: Call)
    requires Inv(p, w) && Step(p, w, call).Some? && call.action.DoVerifyBatch?
    requires Step(p, w, call).value.s.accusation.deadline.Some?
    ensures var next := Step(p, w, call).value;
            && w.s.accusation.deadline.Some?
            && next.h.signalRound == w.h.signalRound
            && w.s.settledInboxCursor <= next.s.settledInboxCursor
            && next.h.discharged == w.h.discharged + (next.s.settledInboxCursor - w.s.settledInboxCursor)
            && TallyOf(next.h) == Count(TallyOf(w.h), next.s.settledInboxCursor - w.s.settledInboxCursor)
  {
    hide Inv, Exposed, BatchCodec.DecodeBatch, Semantics.Run, ItemsOf, Concat, ValuesOf, SignedThroughout;
    var s, h, e := w.s, w.h.(round := call.env.round), call.action.evidence;
    var v := Exposed(p, e).value;
    LaterRound(p, s, w.h, call.env.round);
    SettlementIsExact(p, s, h, call.env, v, e);
    if s.accusation.deadline.Some? {
      WatchedProgress(p, w);
    } else {
      Unaccused(p, w);
    }
  }

  lemma Unaccused(p: Deployment, w: World)
    requires Inv(p, w) && w.s.accusation.deadline.None?
    ensures w.s.accusation.inboxTarget.None?
  {
    hide InboxOk, BoxesOk, BatchOk, LedgerOk, PayoutOk, SettledOk, RefundsOk, ExitsOk, Solvent, SignedThroughout;
  }

  lemma {:induction false} TallyIsWork(p: Deployment, w: World, calls: seq<Call>)
    requires Inv(p, w) && (forall call :: call in calls ==> !call.action.DoSignalEscape?)
    requires RunCalls(p, w, calls).s.accusation.deadline.Some?
    ensures var end := RunCalls(p, w, calls);
            && w.s.accusation.deadline.Some?
            && end.h.signalRound == w.h.signalRound
            && w.s.settledInboxCursor <= end.s.settledInboxCursor
            && end.h.discharged == w.h.discharged + (end.s.settledInboxCursor - w.s.settledInboxCursor)
                                   + PayoutsByCreator(p, w, calls)
    decreases |calls|
  {
    hide Inv, Step;
    if calls != [] {
      match Step(p, w, calls[0]) {
        case None => TallyIsWork(p, w, calls[1..]);
        case Some(next) =>
          StepKeeps(p, w, calls[0]);
          TallyIsWork(p, next, calls[1..]);
          WorkStep(p, w, calls[0]);
      }
    }
  }

  lemma {:induction false} TallyIsCounted(p: Deployment, w: World, calls: seq<Call>)
    requires Inv(p, w) && (forall call :: call in calls ==> !call.action.DoSignalEscape?)
    requires RunCalls(p, w, calls).s.accusation.deadline.Some?
    ensures w.s.accusation.deadline.Some?
    ensures TallyOf(RunCalls(p, w, calls).h) == Counted(p, w, calls, TallyOf(w.h))
    decreases |calls|
  {
    hide Inv, Step, Discharges, Count;
    if calls != [] {
      match Step(p, w, calls[0]) {
        case None => TallyIsCounted(p, w, calls[1..]);
        case Some(next) =>
          StepKeeps(p, w, calls[0]);
          TallyIsCounted(p, next, calls[1..]);
          WorkStep(p, w, calls[0]);
      }
    }
  }

  /**
   * The sequencer's clock to the obligation. In every run in which an escape is signalled and that
   * accusation still stands at the end, the progress stored is what the entries settled and the payouts
   * made since the signal come to since the last window they bought, and the deadline is the one those
   * windows give: a call at a time, whatever a call brings beyond 256 being lost.
   */
  lemma ClockCountsObligations(p: Deployment, balance: nat, before: seq<Call>, signal: Call, since: seq<Call>)
    requires balance >= p.baseMinBalance && signal.action.DoSignalEscape?
    requires Step(p, Reached(p, balance, before), signal).Some?
    requires forall call :: call in since ==> !call.action.DoSignalEscape?
    requires RunCalls(p, Step(p, Reached(p, balance, before), signal).value, since).s.accusation.deadline.Some?
    ensures var accused := Step(p, Reached(p, balance, before), signal).value;
            var a, t := RunCalls(p, accused, since).s.accusation, Counted(p, accused, since, Tally(0, 0));
            && a.progress == Some(t.work)
            && a.deadline.value == signal.env.round + p.escapeGrace * (1 + t.windows)
  {
    hide Inv, Reached, RunCalls, Counted, Act;
    ReachedHolds(p, balance, before);
    var w := Reached(p, balance, before);
    StepKeeps(p, w, signal);
    var accused := Step(p, w, signal).value;
    RunsKeep(p, accused, since);
    TallyIsCounted(p, accused, since);
    TallyIsWork(p, accused, since);
    WatchHolds(p, RunCalls(p, accused, since));
  }

  /**
   * Every window is worked for. Take any run in which an escape is signalled and that accusation still
   * stands at the end: its deadline is one grace period after the signal and one more for each window,
   * and at 256 obligations a window those come to no more than the inbox entries settled since the
   * signal and the payouts the sequencer has made since.
   */
  lemma WindowsAreWorkedFor(p: Deployment, balance: nat, before: seq<Call>, signal: Call, since: seq<Call>)
    requires balance >= p.baseMinBalance && signal.action.DoSignalEscape?
    requires Step(p, Reached(p, balance, before), signal).Some?
    requires forall call :: call in since ==> !call.action.DoSignalEscape?
    requires RunCalls(p, Step(p, Reached(p, balance, before), signal).value, since).s.accusation.deadline.Some?
    ensures var accused := Step(p, Reached(p, balance, before), signal).value;
            var end := RunCalls(p, accused, since);
            && accused.s.settledInboxCursor <= end.s.settledInboxCursor
            && end.s.accusation.deadline.value == signal.env.round + p.escapeGrace * (1 + end.h.extensions)
            && 256 * end.h.extensions
               <= (end.s.settledInboxCursor - accused.s.settledInboxCursor) + PayoutsByCreator(p, accused, since)
  {
    hide Inv, Reached, RunCalls, PayoutsByCreator, Act;
    ReachedHolds(p, balance, before);
    var w := Reached(p, balance, before);
    StepKeeps(p, w, signal);
    var accused := Step(p, w, signal).value;
    RunsKeep(p, accused, since);
    TallyIsWork(p, accused, since);
    WatchHolds(p, RunCalls(p, accused, since));
  }

  lemma WatchHolds(p: Deployment, w: World)
    requires Inv(p, w) && w.s.accusation.deadline.Some?
    ensures w.s.accusation.deadline.value == w.h.signalRound + p.escapeGrace * (1 + w.h.extensions)
    ensures 256 * w.h.extensions <= w.h.discharged
    ensures w.s.accusation.progress == Some(w.h.windowWork)
  {
    hide InboxOk, BoxesOk, BatchOk, LedgerOk, PayoutOk, SettledOk, RefundsOk, ExitsOk, Solvent, SignedThroughout;
  }

  // ----- how long an accusation lasts -----

  /** The accusation of s1 is that of s with more time, unless s1 has settled or escaped its way out of it. */
  predicate StillAccused(s: State, s1: State) {
    && (s1.accusation.deadline.Some? ==>
          s.accusation.deadline.Some? && s1.accusation.inboxTarget == s.accusation.inboxTarget)
    && (s.accusation.deadline.Some? && s.accusation.inboxTarget.Some? && s1.accusation.deadline.None? ==>
          s1.escaped || s1.settledInboxCursor >= s.accusation.inboxTarget.value)
  }

  lemma AccusationAfter(p: Deployment, s: State, call: Call)
    requires Act(p, s, call).Some?
    ensures call.action.DoSignalEscape? ==>
              s.accusation.deadline.None? && Act(p, s, call).value.accusation.deadline.Some?
    ensures !call.action.DoSignalEscape? ==> StillAccused(s, Act(p, s, call).value)
  {
    hide Act, StillAccused;
    if call.action.DoSignalEscape? {
      SignalAccuses(p, s, call);
    } else if call.action.DoVerifyBatch? {
      SettlingAccusation(p, s, call);
    } else if call.action.DoPayWithdrawal? {
      PayingAccusation(p, s, call);
    } else {
      IdleAccusation(p, s, call);
    }
  }

  lemma SignalAccuses(p: Deployment, s: State, call: Call)
    requires call.action.DoSignalEscape? && Act(p, s, call).Some?
    ensures s.accusation.deadline.None? && Act(p, s, call).value.accusation.deadline.Some?
  {
  }

  lemma SettlingAccusation(p: Deployment, s: State, call: Call)
    requires call.action.DoVerifyBatch? && Act(p, s, call).Some?
    ensures StillAccused(s, Act(p, s, call).value)
  {
    hide Exposed;
  }

  lemma PayingAccusation(p: Deployment, s: State, call: Call)
    requires call.action.DoPayWithdrawal? && Act(p, s, call).Some?
    ensures StillAccused(s, Act(p, s, call).value)
  {
    hide MinBalance, CanReceive;
  }

  lemma IdleAccusation(p: Deployment, s: State, call: Call)
    requires !call.action.DoSignalEscape? && !call.action.DoVerifyBatch? && !call.action.DoPayWithdrawal?
    requires Act(p, s, call).Some?
    ensures StillAccused(s, Act(p, s, call).value)
  {
    hide Exits, RequestMessage, NextBoxCost, MinBalance, CanReceive;
  }

  /**
   * An accusation lasts until it is answered: it begins with a signal, when there is none, and it ends
   * with the entries that stood when it was made settled, or with an escape. Nothing else makes,
   * replaces or lifts it.
   */
  lemma AccusationsLast(p: Deployment, w: World, call: Call)
    requires Inv(p, w) && Step(p, w, call).Some?
    ensures var next := Step(p, w, call).value;
            && (next.s.accusation.deadline.Some? <==>
                || call.action.DoSignalEscape?
                || (w.s.accusation.deadline.Some? && next.s.settledInboxCursor < w.h.signalTarget && !next.s.escaped))
            && (call.action.DoSignalEscape? ==>
                  w.s.accusation.deadline.None? && next.h.signalTarget == |next.h.items|)
            && (!call.action.DoSignalEscape? ==>
                  next.h.signalTarget == w.h.signalTarget && next.h.signalRound == w.h.signalRound)
  {
    hide Inv, Act, Note;
    AccusationAfter(p, w.s, call);
    SignalNoted(p, w.s, w.h, call);
    TargetHolds(p, w);
    StepKeeps(p, w, call);
    TargetHolds(p, Step(p, w, call).value);
  }

  lemma SignalNoted(p: Deployment, s: State, h: History, call: Call)
    ensures var n := Note(p, s, h, call);
            if call.action.DoSignalEscape? then
              n.signalTarget == s.inboxCursor && n.signalRound == call.env.round && n.items == h.items
            else n.signalTarget == h.signalTarget && n.signalRound == h.signalRound
  {
  }

  lemma TargetHolds(p: Deployment, w: World)
    requires Inv(p, w)
    ensures w.s.inboxCursor == |w.h.items|
    ensures w.s.accusation.deadline.Some? ==>
              && w.s.accusation.inboxTarget == Some(w.h.signalTarget)
              && w.s.settledInboxCursor < w.h.signalTarget && !w.s.escaped
  {
    hide BoxesOk, BatchOk, LedgerOk, PayoutOk, SettledOk, RefundsOk, ExitsOk, Solvent, SignedThroughout, ChainAt;
  }
}
