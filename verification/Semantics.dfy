/** What a batch means: plain sequential updates of a map of accounts, with no trees and no hashes. */
module Semantics {
  import opened Types
  import opened Transactions

  type Ledger = map<Address, Account>

  type Payouts = seq<(L1Address, u64)>

  /** One use of an account's nonce: the value it was bumped to, and whether a signature covers it. */
  datatype Spend = Spend(address: Address, nonce: u64, signed: bool)

  /** What a transaction leaves behind. */
  datatype Outcome = Outcome(accounts: Ledger, payouts: Payouts, spends: seq<Spend>)

  /** Take amount and fee from a sender that exists and can afford both, using up its next nonce. */
  function Take(m: Ledger, sender: Address, amount: u64, fee: u64): Option<Ledger> {
    if sender !in m || m[sender].nonce == MAX_U64 || m[sender].amount < amount + fee then None
    else
      Some(m[sender := m[sender].(nonce := m[sender].nonce + 1, amount := m[sender].amount - amount - fee)])
  }

  /** The account at an address, or the one that would be created there. */
  function AccountAt(m: Ledger, a: Address): Account {
    if a in m then m[a] else Account(0, 0, a)
  }

  function Give(m: Ledger, receiver: Address, amount: u64): Option<Ledger> {
    var prior := AccountAt(m, receiver);
    if prior.amount + amount > MAX_U64 then None
    else Some(m[receiver := prior.(amount := prior.amount + amount)])
  }

  function GiveFee(m: Ledger, fee: u64): Option<Ledger> {
    if fee == 0 then Some(m) else Give(m, FEE_SINK, fee)
  }

  function Balance(m: Ledger, a: Address): u64 {
    if a in m then m[a].amount else 0
  }

  /** One transaction, or None when it is not valid on m. */
  function Apply(m: Ledger, txn: Transaction): Option<Outcome> {
    match txn
    case Payment(header, receiver, amount) =>
      (match Take(m, header.sender, amount, header.fee)
       case None => None
       case Some(m1) =>
         match Give(m1, receiver, amount)
         case None => None
         case Some(m2) =>
           match GiveFee(m2, header.fee)
           case None => None
           case Some(m3) => Some(Outcome(m3, [], [Spend(header.sender, m1[header.sender].nonce, true)])))
    case Deposit(_, receiver, amount) =>
      (match Give(m, receiver, amount)
       case None => None
       case Some(m1) => Some(Outcome(m1, [], [])))
    case Withdrawal(header, recipient, amount) =>
      if amount < MIN_WITHDRAWAL then None
      else
        (match Take(m, header.sender, amount, header.fee)
         case None => None
         case Some(m1) =>
           match GiveFee(m1, header.fee)
           case None => None
           case Some(m2) =>
             Some(Outcome(m2, [(recipient, amount)], [Spend(header.sender, m1[header.sender].nonce, true)])))
    case ForcedWithdrawal(header, recipient) =>
      var balance := Balance(m, header.sender);
      if balance < MIN_WITHDRAWAL then Some(Outcome(m, [], []))
      else
        match Take(m, header.sender, balance, 0)
        case None => None
        case Some(m1) =>
          Some(Outcome(m1, [(recipient, balance)], [Spend(header.sender, m1[header.sender].nonce, false)]))
  }

  function Then(first: Outcome, second: Outcome): Outcome {
    Outcome(second.accounts, first.payouts + second.payouts, first.spends + second.spends)
  }

  /** A whole list of transactions in order. */
  function Run(m: Ledger, txns: seq<Transaction>): Option<Outcome>
    decreases |txns|
  {
    if txns == [] then Some(Outcome(m, [], []))
    else
      match Apply(m, txns[0])
      case None => None
      case Some(first) =>
        match Run(first.accounts, txns[1..])
        case None => None
        case Some(rest) => Some(Then(first, rest))
  }

  lemma {:induction false} RunConcat(m: Ledger, xs: seq<Transaction>, ys: seq<Transaction>)
    ensures Run(m, xs + ys) ==
            match Run(m, xs)
            case None => None
            case Some(first) =>
              match Run(first.accounts, ys)
              case None => None
              case Some(rest) => Some(Then(first, rest))
    decreases |xs|
  {
    hide Apply;
    if xs == [] {
      assert xs + ys == ys;
      match Run(m, ys) {
        case None =>
        case Some(r) => assert [] + r.payouts == r.payouts && [] + r.spends == r.spends;
      }
    } else {
      assert (xs + ys)[1..] == xs[1..] + ys;
      match Apply(m, xs[0]) {
        case None =>
        case Some(first) =>
          RunConcat(first.accounts, xs[1..], ys);
          match Run(first.accounts, xs[1..]) {
            case None =>
            case Some(middle) =>
              match Run(middle.accounts, ys) {
                case None =>
                case Some(last) =>
                  assert (first.payouts + middle.payouts) + last.payouts
                      == first.payouts + (middle.payouts + last.payouts);
                  assert (first.spends + middle.spends) + last.spends == first.spends + (middle.spends + last.spends);
              }
          }
      }
    }
  }

  // ----- conservation of value -----

  ghost function Total(m: Ledger): nat
    decreases |m|
  {
    if m == map[] then 0
    else
      var a :| a in m;
      SmallerWithout(m, a);
      m[a].amount + Total(m - {a})
  }

  lemma SmallerWithout(m: Ledger, a: Address)
    requires a in m
    ensures |m - {a}| < |m|
  {
    assert (m - {a}).Keys == m.Keys - {a};
  }

  lemma {:induction false} TotalWithout(m: Ledger, a: Address)
    requires a in m
    ensures Total(m) == m[a].amount + Total(m - {a})
    decreases |m|
  {
    var b :| b in m && Total(m) == m[b].amount + Total(m - {b});
    if a != b {
      SmallerWithout(m, b);
      TotalWithout(m - {b}, a);
      TotalWithout(m - {a}, b);
      assert m - {b} - {a} == m - {a} - {b};
    }
  }

  lemma TotalUpdate(m: Ledger, a: Address, x: Account)
    ensures Total(m[a := x]) == Total(m) - Balance(m, a) + x.amount
  {
    TotalWithout(m[a := x], a);
    assert m[a := x] - {a} == m - {a};
    if a in m {
      TotalWithout(m, a);
    } else {
      assert m - {a} == m;
    }
  }

  function SumPayouts(ps: Payouts): nat {
    if ps == [] then 0 else ps[0].1 + SumPayouts(ps[1..])
  }

  function SumDeposits(txns: seq<Transaction>): nat {
    if txns == [] then 0
    else (if txns[0].Deposit? then txns[0].amount else 0) + SumDeposits(txns[1..])
  }

  lemma {:induction false} SumPayoutsConcat(ps: Payouts, qs: Payouts)
    ensures SumPayouts(ps + qs) == SumPayouts(ps) + SumPayouts(qs)
  {
    if ps == [] {
      assert ps + qs == qs;
    } else {
      assert (ps + qs)[1..] == ps[1..] + qs;
      SumPayoutsConcat(ps[1..], qs);
    }
  }

  lemma TakeConserves(m: Ledger, sender: Address, amount: u64, fee: u64)
    ensures Take(m, sender, amount, fee).Some? ==>
              Total(Take(m, sender, amount, fee).value) + amount + fee == Total(m)
  {
    if Take(m, sender, amount, fee).Some? {
      TotalUpdate(m, sender, Take(m, sender, amount, fee).value[sender]);
    }
  }

  lemma GiveConserves(m: Ledger, receiver: Address, amount: u64)
    ensures Give(m, receiver, amount).Some? ==>
              Total(Give(m, receiver, amount).value) == Total(m) + amount
  {
    if Give(m, receiver, amount).Some? {
      TotalUpdate(m, receiver, Give(m, receiver, amount).value[receiver]);
    }
  }

  lemma GiveFeeConserves(m: Ledger, fee: u64)
    ensures GiveFee(m, fee).Some? ==> Total(GiveFee(m, fee).value) == Total(m) + fee
  {
    GiveConserves(m, FEE_SINK, fee);
  }

  lemma ApplyConserves(m: Ledger, txn: Transaction)
    requires Apply(m, txn).Some?
    ensures var o := Apply(m, txn).value;
            Total(o.accounts) + SumPayouts(o.payouts) == Total(m) + SumDeposits([txn])
  {
    var o := Apply(m, txn).value;
    assert |o.payouts| == 1 ==> SumPayouts(o.payouts) == o.payouts[0].1 + SumPayouts(o.payouts[1..]);
    match txn {
      case Payment(header, receiver, amount) =>
        var m1 := Take(m, header.sender, amount, header.fee).value;
        var m2 := Give(m1, receiver, amount).value;
        TakeConserves(m, header.sender, amount, header.fee);
        GiveConserves(m1, receiver, amount);
        GiveFeeConserves(m2, header.fee);
      case Deposit(_, receiver, amount) =>
        GiveConserves(m, receiver, amount);
      case Withdrawal(header, recipient, amount) =>
        var m1 := Take(m, header.sender, amount, header.fee).value;
        TakeConserves(m, header.sender, amount, header.fee);
        GiveFeeConserves(m1, header.fee);
      case ForcedWithdrawal(header, recipient) =>
        TakeConserves(m, header.sender, Balance(m, header.sender), 0);
    }
  }

  /**
   * Value conservation: over any valid list of transactions, for every aliasing of senders,
   * receivers and the fee sink, balances change by what was deposited less what is paid out.
   */
  lemma {:induction false} RunConserves(m: Ledger, txns: seq<Transaction>)
    requires Run(m, txns).Some?
    ensures var o := Run(m, txns).value;
            Total(o.accounts) + SumPayouts(o.payouts) == Total(m) + SumDeposits(txns)
    decreases |txns|
  {
    if txns != [] {
      var first := Apply(m, txns[0]).value;
      var rest := Run(first.accounts, txns[1..]).value;
      ApplyConserves(m, txns[0]);
      RunConserves(first.accounts, txns[1..]);
      SumPayoutsConcat(first.payouts, rest.payouts);
      assert SumDeposits([txns[0]]) == (if txns[0].Deposit? then txns[0].amount else 0);
    }
  }

  /** Every payout a batch queues is one the settlement network can always deliver. */
  lemma {:induction false} PayoutsAreDeliverable(m: Ledger, txns: seq<Transaction>)
    requires Run(m, txns).Some?
    ensures forall i :: 0 <= i < |Run(m, txns).value.payouts| ==>
              Run(m, txns).value.payouts[i].1 >= MIN_WITHDRAWAL
    decreases |txns|
  {
    if txns != [] {
      PayoutsAreDeliverable(Apply(m, txns[0]).value.accounts, txns[1..]);
    }
  }

  // ----- what every reachable account satisfies -----

  /** Each account is authorised by the key its own address derives from. */
  ghost predicate OwnAuth(m: Ledger) {
    forall a :: a in m ==> m[a].authAddress == a
  }

  function NonceAt(m: Ledger, a: Address): u64 {
    if a in m then m[a].nonce else 0
  }

  function SpendsOf(spends: seq<Spend>, a: Address): nat {
    if spends == [] then 0
    else (if spends[0].address == a then 1 else 0) + SpendsOf(spends[1..], a)
  }

  lemma {:induction false} SpendsOfConcat(xs: seq<Spend>, ys: seq<Spend>, a: Address)
    ensures SpendsOf(xs + ys, a) == SpendsOf(xs, a) + SpendsOf(ys, a)
  {
    if xs == [] {
      assert xs + ys == ys;
    } else {
      assert (xs + ys)[1..] == xs[1..] + ys;
      SpendsOfConcat(xs[1..], ys, a);
    }
  }

  /** Nonces of one account's spends only ever rise along the list. */
  ghost predicate NoncesRise(spends: seq<Spend>) {
    forall i, j :: 0 <= i < j < |spends| && spends[i].address == spends[j].address ==>
      spends[i].nonce < spends[j].nonce
  }

  /** Each spend uses a nonce above the account's first and no higher than its last. */
  ghost predicate SpendsBetween(m: Ledger, spends: seq<Spend>, n: Ledger) {
    forall s :: s in spends ==> NonceAt(m, s.address) < s.nonce <= NonceAt(n, s.address)
  }

  lemma GiveAccounts(m: Ledger, receiver: Address, amount: u64, a: Address)
    requires Give(m, receiver, amount).Some?
    ensures m.Keys <= Give(m, receiver, amount).value.Keys
    ensures OwnAuth(m) ==> OwnAuth(Give(m, receiver, amount).value)
    ensures NonceAt(Give(m, receiver, amount).value, a) == NonceAt(m, a)
  {
  }

  lemma GiveFeeAccounts(m: Ledger, fee: u64, a: Address)
    requires GiveFee(m, fee).Some?
    ensures m.Keys <= GiveFee(m, fee).value.Keys
    ensures OwnAuth(m) ==> OwnAuth(GiveFee(m, fee).value)
    ensures NonceAt(GiveFee(m, fee).value, a) == NonceAt(m, a)
  {
    hide Give, OwnAuth;
    if fee != 0 {
      GiveAccounts(m, FEE_SINK, fee, a);
    }
  }

  lemma TakeAccounts(m: Ledger, sender: Address, amount: u64, fee: u64, a: Address)
    requires Take(m, sender, amount, fee).Some?
    ensures m.Keys == Take(m, sender, amount, fee).value.Keys
    ensures OwnAuth(m) ==> OwnAuth(Take(m, sender, amount, fee).value)
    ensures NonceAt(Take(m, sender, amount, fee).value, a) == NonceAt(m, a) + if a == sender then 1 else 0
  {
  }

  lemma OneSpend(s: Spend, a: Address)
    ensures SpendsOf([s], a) == if s.address == a then 1 else 0
  {
    assert [s][1..] == [];
  }

  lemma ApplyAccounts(m: Ledger, txn: Transaction, a: Address)
    requires Apply(m, txn).Some?
    ensures m.Keys <= Apply(m, txn).value.accounts.Keys
    ensures OwnAuth(m) ==> OwnAuth(Apply(m, txn).value.accounts)
    ensures NonceAt(Apply(m, txn).value.accounts, a) == NonceAt(m, a) + SpendsOf(Apply(m, txn).value.spends, a)
  {
    hide Take, Give, GiveFee, OwnAuth, NonceAt, SpendsOf;
    var spends := Apply(m, txn).value.spends;
    assert SpendsOf([], a) == 0 by { NoSpend(a); }
    if spends != [] {
      OneSpend(spends[0], a);
    }
    match txn {
      case Payment(header, receiver, amount) =>
        var m1 := Take(m, header.sender, amount, header.fee).value;
        var m2 := Give(m1, receiver, amount).value;
        TakeAccounts(m, header.sender, amount, header.fee, a);
        GiveAccounts(m1, receiver, amount, a);
        GiveFeeAccounts(m2, header.fee, a);
      case Deposit(_, receiver, amount) =>
        GiveAccounts(m, receiver, amount, a);
      case Withdrawal(header, _, amount) =>
        var m1 := Take(m, header.sender, amount, header.fee).value;
        TakeAccounts(m, header.sender, amount, header.fee, a);
        GiveFeeAccounts(m1, header.fee, a);
      case ForcedWithdrawal(header, _) =>
        if Balance(m, header.sender) >= MIN_WITHDRAWAL {
          TakeAccounts(m, header.sender, Balance(m, header.sender), 0, a);
        }
    }
  }

  lemma NoSpend(a: Address)
    ensures SpendsOf([], a) == 0
  {
  }

  lemma ApplySpends(m: Ledger, txn: Transaction)
    requires Apply(m, txn).Some?
    ensures |Apply(m, txn).value.spends| <= 1
    ensures SpendsBetween(m, Apply(m, txn).value.spends, Apply(m, txn).value.accounts)
  {
  }

  lemma SpendsChain(m: Ledger, xs: seq<Spend>, n: Ledger, ys: seq<Spend>, o: Ledger)
    requires SpendsBetween(m, xs, n) && SpendsBetween(n, ys, o)
    requires NoncesRise(xs) && NoncesRise(ys)
    requires forall a :: NonceAt(m, a) <= NonceAt(n, a) <= NonceAt(o, a)
    ensures SpendsBetween(m, xs + ys, o) && NoncesRise(xs + ys)
  {
    forall i, j | 0 <= i < j < |xs + ys| && (xs + ys)[i].address == (xs + ys)[j].address
      ensures (xs + ys)[i].nonce < (xs + ys)[j].nonce
    {
      if i < |xs| <= j {
        assert (xs + ys)[i] in xs && (xs + ys)[j] in ys;
      }
    }
  }

  /**
   * Over any valid list of transactions no account disappears, each stays authorised by its own
   * address, and its nonce counts its spends.
   */
  lemma {:induction false} RunAccounts(m: Ledger, txns: seq<Transaction>, a: Address)
    requires Run(m, txns).Some?
    ensures m.Keys <= Run(m, txns).value.accounts.Keys
    ensures OwnAuth(m) ==> OwnAuth(Run(m, txns).value.accounts)
    ensures NonceAt(Run(m, txns).value.accounts, a) == NonceAt(m, a) + SpendsOf(Run(m, txns).value.spends, a)
    decreases |txns|
  {
    hide Apply, NonceAt, OwnAuth;
    if txns != [] {
      var first := Apply(m, txns[0]).value;
      ApplyAccounts(m, txns[0], a);
      RunAccounts(first.accounts, txns[1..], a);
      SpendsOfConcat(first.spends, Run(first.accounts, txns[1..]).value.spends, a);
    }
  }

  /** No two spends of one account, signed or forced, ever use one nonce. */
  lemma {:induction false} RunNonces(m: Ledger, txns: seq<Transaction>)
    requires Run(m, txns).Some?
    ensures SpendsBetween(m, Run(m, txns).value.spends, Run(m, txns).value.accounts)
    ensures NoncesRise(Run(m, txns).value.spends)
    decreases |txns|
  {
    hide Apply;
    if txns != [] {
      var first := Apply(m, txns[0]).value;
      var rest := Run(first.accounts, txns[1..]).value;
      forall a
        ensures NonceAt(m, a) <= NonceAt(first.accounts, a) <= NonceAt(rest.accounts, a)
      {
        ApplyAccounts(m, txns[0], a);
        RunAccounts(first.accounts, txns[1..], a);
      }
      ApplySpends(m, txns[0]);
      RunNonces(first.accounts, txns[1..]);
      SpendsChain(m, first.spends, first.accounts, rest.spends, rest.accounts);
    }
  }

  // ----- what a transaction does to each address -----

  /** A spend its sender can make: it has an account, a nonce left to use, and enough for amount and fee. */
  predicate CanSpend(m: Ledger, sender: Address, amount: nat) {
    sender in m && m[sender].nonce < MAX_U64 && amount <= m[sender].amount
  }

  /** What one transaction brings to an address. */
  function Received(txn: Transaction, a: Address): nat {
    match txn
    case Payment(header, receiver, amount) =>
      (if a == receiver then amount else 0) + if a == FEE_SINK then header.fee else 0
    case Deposit(_, receiver, amount) => if a == receiver then amount else 0
    case Withdrawal(header, _, _) => if a == FEE_SINK then header.fee else 0
    case ForcedWithdrawal(_, _) => 0
  }

  /** What one transaction takes from an address: a forced withdrawal takes everything, if that is enough to pay out. */
  function Spent(m: Ledger, txn: Transaction, a: Address): nat {
    match txn
    case Payment(header, _, amount) => if a == header.sender then amount + header.fee else 0
    case Deposit(_, _, _) => 0
    case Withdrawal(header, _, amount) => if a == header.sender then amount + header.fee else 0
    case ForcedWithdrawal(header, _) =>
      if a == header.sender && Balance(m, a) >= MIN_WITHDRAWAL then Balance(m, a) else 0
  }

  function BalanceAfter(m: Ledger, txn: Transaction, a: Address): int {
    Balance(m, a) + Received(txn, a) - Spent(m, txn, a)
  }

  /** Whether txn uses up its sender's nonce. */
  predicate Spends(m: Ledger, txn: Transaction) {
    match txn
    case Deposit(_, _, _) => false
    case ForcedWithdrawal(header, _) => Balance(m, header.sender) >= MIN_WITHDRAWAL
    case _ => true
  }

  ghost predicate IsValidOn(m: Ledger, txn: Transaction) {
    && (Spends(m, txn) ==> CanSpend(m, txn.header.sender, Spent(m, txn, txn.header.sender)))
    && (txn.Withdrawal? ==> txn.amount >= MIN_WITHDRAWAL)
    && forall a :: BalanceAfter(m, txn, a) <= MAX_U64
  }

  /**
   * However sender, receiver and fee sink coincide, a transaction is valid exactly when its sender can
   * make it and it leaves nobody with more than fits; and then it changes each balance by what that
   * address receives and spends, and each nonce by one at the spender.
   */
  lemma ApplyMoves(m: Ledger, txn: Transaction, a: Address)
    ensures Apply(m, txn).Some? <==> IsValidOn(m, txn)
    ensures Apply(m, txn).Some? ==>
              var o := Apply(m, txn).value;
              && Balance(o.accounts, a) == BalanceAfter(m, txn, a)
              && NonceAt(o.accounts, a)
                 == NonceAt(m, a) + if Spends(m, txn) && a == txn.header.sender then 1 else 0
  {
    if Apply(m, txn).Some? {
      MovesAt(m, txn, a);
      forall b
        ensures BalanceAfter(m, txn, b) <= MAX_U64
      {
        MovesAt(m, txn, b);
      }
    }
    if IsValidOn(m, txn) {
      ValidApplies(m, txn);
    }
  }

  lemma MovesAt(m: Ledger, txn: Transaction, a: Address)
    requires Apply(m, txn).Some?
    ensures var o := Apply(m, txn).value;
            && Balance(o.accounts, a) == BalanceAfter(m, txn, a)
            && NonceAt(o.accounts, a)
               == NonceAt(m, a) + if Spends(m, txn) && a == txn.header.sender then 1 else 0
    ensures Spends(m, txn) ==> CanSpend(m, txn.header.sender, Spent(m, txn, txn.header.sender))
    ensures txn.Withdrawal? ==> txn.amount >= MIN_WITHDRAWAL
  {
  }

  lemma ValidApplies(m: Ledger, txn: Transaction)
    requires IsValidOn(m, txn)
    ensures Apply(m, txn).Some?
  {
    match txn {
      case Payment(header, receiver, amount) =>
        assert BalanceAfter(m, txn, receiver) <= MAX_U64 && BalanceAfter(m, txn, FEE_SINK) <= MAX_U64;
        var m1 := Take(m, header.sender, amount, header.fee).value;
        assert Give(m1, receiver, amount).Some?;
        assert GiveFee(Give(m1, receiver, amount).value, header.fee).Some?;
      case Deposit(_, receiver, _) =>
        assert BalanceAfter(m, txn, receiver) <= MAX_U64;
      case Withdrawal(header, _, amount) =>
        assert BalanceAfter(m, txn, FEE_SINK) <= MAX_U64;
        assert GiveFee(Take(m, header.sender, amount, header.fee).value, header.fee).Some?;
      case ForcedWithdrawal(_, _) =>
    }
  }

  /** What leaves the rollup: nothing, or the amount withdrawn to the recipient named. */
  lemma ApplyPays(m: Ledger, txn: Transaction)
    requires Apply(m, txn).Some?
    ensures Apply(m, txn).value.payouts
         == match txn
            case Withdrawal(_, recipient, amount) => [(recipient, amount)]
            case ForcedWithdrawal(header, recipient) =>
              if Spends(m, txn) then [(recipient, Spent(m, txn, header.sender))] else []
            case _ => []
  {
  }

  // ----- what each signature had to cover -----

  /** A spend somebody signed for, and the nonce its signature covers. */
  datatype SignedSpend = SignedSpend(txn: Transaction, nonce: u64)

  predicate NeedsSignature(txn: Transaction) {
    txn.Payment? || txn.Withdrawal?
  }

  /** Every signed spend of a batch, each with the nonce its sender was bumped to. */
  function SignedSpends(m: Ledger, txns: seq<Transaction>): (spends: seq<SignedSpend>)
    requires Run(m, txns).Some?
    decreases |txns|
  {
    if txns == [] then []
    else
      var rest := SignedSpends(Apply(m, txns[0]).value.accounts, txns[1..]);
      if NeedsSignature(txns[0]) then [SignedSpend(txns[0], SignedNonce(m, txns[0]))] + rest else rest
  }

  /** The nonce a valid spend is signed at: its sender's next. */
  function SignedNonce(m: Ledger, txn: Transaction): u64
    requires NeedsSignature(txn) && Apply(m, txn).Some?
  {
    m[txn.header.sender].nonce + 1
  }

  lemma SignedStepsUp(m: Ledger, txn: Transaction)
    requires NeedsSignature(txn) && Apply(m, txn).Some?
    ensures NonceAt(m, txn.header.sender) < SignedNonce(m, txn)
    ensures SignedNonce(m, txn) <= NonceAt(Apply(m, txn).value.accounts, txn.header.sender)
  {
    hide Give, GiveFee;
    ApplyAccounts(m, txn, txn.header.sender);
    OneSpend(Apply(m, txn).value.spends[0], txn.header.sender);
  }

  ghost predicate SignedRise(spends: seq<SignedSpend>) {
    forall i, j :: 0 <= i < j < |spends| && spends[i].txn.header.sender == spends[j].txn.header.sender ==>
      spends[i].nonce < spends[j].nonce
  }

  lemma RiseFrom(first: SignedSpend, rest: seq<SignedSpend>)
    requires SignedRise(rest)
    requires forall s :: s in rest && s.txn.header.sender == first.txn.header.sender ==> first.nonce < s.nonce
    ensures SignedRise([first] + rest)
  {
    forall i, j | 0 <= i < j < |rest| + 1
              && ([first] + rest)[i].txn.header.sender == ([first] + rest)[j].txn.header.sender
      ensures ([first] + rest)[i].nonce < ([first] + rest)[j].nonce
    {
      assert ([first] + rest)[j] == rest[j - 1];
    }
  }

  /** Signed spends use nonces above where their sender stood, and no sender uses one twice. */
  lemma {:induction false} SignedNoncesRise(m: Ledger, txns: seq<Transaction>)
    requires Run(m, txns).Some?
    ensures forall s :: s in SignedSpends(m, txns) ==>
              NeedsSignature(s.txn) && NonceAt(m, s.txn.header.sender) < s.nonce
    ensures SignedRise(SignedSpends(m, txns))
    decreases |txns|
  {
    hide Apply, NonceAt, SignedNonce;
    if txns != [] {
      var m1 := Apply(m, txns[0]).value.accounts;
      SignedNoncesRise(m1, txns[1..]);
      var spends, rest := SignedSpends(m, txns), SignedSpends(m1, txns[1..]);
      forall s | s in rest
        ensures NonceAt(m, s.txn.header.sender) < s.nonce
      {
        ApplyAccounts(m, txns[0], s.txn.header.sender);
      }
      if NeedsSignature(txns[0]) {
        SignedStepsUp(m, txns[0]);
        assert spends == [SignedSpend(txns[0], SignedNonce(m, txns[0]))] + rest;
        RiseFrom(spends[0], rest);
      }
    }
  }

  /** No message signed for one spend of a batch is the message of another. */
  lemma MessagesAreDistinct(domain: DeploymentDomain, m: Ledger, txns: seq<Transaction>, i: nat, j: nat)
    requires Run(m, txns).Some? && i < j < |SignedSpends(m, txns)|
    ensures var x, y := SignedSpends(m, txns)[i], SignedSpends(m, txns)[j];
            && NeedsSignature(x.txn) && NeedsSignature(y.txn)
            && BytesToSign(domain, x.txn, x.nonce) != BytesToSign(domain, y.txn, y.nonce)
  {
    hide SignedSpends, Run, BytesToSign;
    SignedNoncesRise(m, txns);
    var x, y := SignedSpends(m, txns)[i], SignedSpends(m, txns)[j];
    if BytesToSign(domain, x.txn, x.nonce) == BytesToSign(domain, y.txn, y.nonce) {
      BytesToSignInjective(domain, x.txn, x.nonce, domain, y.txn, y.nonce);
    }
  }

  // ----- how an address comes to hold an account -----

  /** A credit to a: as a receiver, or as the sink of a fee. */
  predicate Credits(txn: Transaction, a: Address) {
    match txn
    case Payment(header, receiver, _) => receiver == a || (header.fee != 0 && a == FEE_SINK)
    case Deposit(_, receiver, _) => receiver == a
    case Withdrawal(header, _, _) => header.fee != 0 && a == FEE_SINK
    case ForcedWithdrawal(_, _) => false
  }

  lemma ApplyHolds(m: Ledger, txn: Transaction, a: Address)
    requires Apply(m, txn).Some?
    ensures a in Apply(m, txn).value.accounts <==> a in m || Credits(txn, a)
  {
  }

  /** An address is in the ledger a list leaves exactly if it was there or something in the list credits it. */
  lemma {:induction false} RunHolds(m: Ledger, txns: seq<Transaction>, a: Address)
    requires Run(m, txns).Some?
    ensures a in Run(m, txns).value.accounts <==> a in m || exists txn :: txn in txns && Credits(txn, a)
    decreases |txns|
  {
    hide Apply, Credits;
    if txns != [] {
      ApplyHolds(m, txns[0], a);
      RunHolds(Apply(m, txns[0]).value.accounts, txns[1..], a);
      assert forall txn :: txn in txns <==> txn == txns[0] || txn in txns[1..];
    }
  }

  predicate NamesReceiver(txn: Transaction, a: Address) {
    (txn.Payment? || txn.Deposit?) && txn.receiver == a
  }

  /**
   * The marker for a deposit's sender can hold an account: a deposit to it makes one. Starting from
   * nothing it does exactly when some payment or deposit names it as receiver.
   */
  lemma ZeroAddressCanHold(txns: seq<Transaction>, amount: u64)
    requires Run(map[], txns).Some?
    ensures Run(map[], [NewDeposit(ZERO_ADDRESS, amount)]).Some?
    ensures ZERO_ADDRESS in Run(map[], [NewDeposit(ZERO_ADDRESS, amount)]).value.accounts
    ensures ZERO_ADDRESS in Run(map[], txns).value.accounts <==>
            exists txn :: txn in txns && NamesReceiver(txn, ZERO_ADDRESS)
  {
    hide Run;
    assert ZERO_ADDRESS[0] != FEE_SINK[0];
    RunHolds(map[], txns, ZERO_ADDRESS);
    assert forall txn :: NamesReceiver(txn, ZERO_ADDRESS) <==> Credits(txn, ZERO_ADDRESS);
    OneDepositRuns(ZERO_ADDRESS, amount);
    assert NewDeposit(ZERO_ADDRESS, amount) in [NewDeposit(ZERO_ADDRESS, amount)];
    RunHolds(map[], [NewDeposit(ZERO_ADDRESS, amount)], ZERO_ADDRESS);
  }

  lemma OneDepositRuns(a: Address, amount: u64)
    ensures Run(map[], [NewDeposit(a, amount)]).Some?
  {
    assert [NewDeposit(a, amount)][1..] == [];
  }
}
