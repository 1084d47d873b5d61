/** Whole runs of the settlement contract, with the history its promises are about. */
module Runs {
  import opened Types
  import opened Transactions
  import opened Chains
  import opened Execution
  import opened Settlement
  import BatchCodec
  import Semantics

  /** What a prover fed the guest. An accepted proof is one some evidence makes execute expose. */
  datatype Evidence = Evidence(domain: DeploymentDomain, priorRoot: Digest, anchor: Digest,
                               batchBytes: seq<byte>, sidecarBytes: seq<byte>)

  datatype Action =
    | Donate(amount: nat)
    | DoDeposit(payment: GroupPayment, recipient: Address)
    | DoRequest(payment: GroupPayment, expectedNonce: u64, address: Address, to: L1Address,
                scheme: seq<byte>, pubKey: seq<byte>, signature: seq<byte>)
    | DoOpenBatch(batchLength: u64, target: u64)
    | DoAccumulateChunk(chunk: seq<byte>)
    | DoVerifyBatch(evidence: Evidence)
    | DoPayWithdrawal(payee: L1Address, sum: u64, tail: Digest, receiverBalance: nat)
    | DoSignalEscape
    | DoExecuteEscape
    | DoCouncilEscape
    | DoAbandonBatch
    | DoReclaimDeposit(index: u64, receiverBalance: nat)
    | DoPruneDeposit(index: u64, receiverBalance: nat)
    | DoPruneRequest(index: u64, receiverBalance: nat)
    | DoForceExit(claim: ExitClaim, receiverBalance: nat)

  datatype Call = Call(env: Env, action: Action)

  function Exposed(p: Deployment, e: Evidence): Result<PublicValues, ExecutionError> {
    Execute(p.crypto, p.wire, e.domain, e.priorRoot, e.anchor, e.batchBytes, e.sidecarBytes)
  }

  /** What a call makes of the contract's state. */
  function Act(p: Deployment, s: State, call: Call): Option<State> {
    var env := call.env;
    match call.action
    case Donate(amount) => Some(s.(balance := s.balance + amount))
    case DoDeposit(payment, recipient) => AcceptDeposit(p, s, env, payment, recipient)
    case DoRequest(payment, nonce, address, to, scheme, pubKey, signature) =>
      RequestWithdrawal(p, s, env, payment, nonce, address, to, scheme, pubKey, signature)
    case DoOpenBatch(length, target) => OpenBatch(p, s, env, length, target)
    case DoAccumulateChunk(chunk) => AccumulateChunk(p, s, env, chunk)
    case DoVerifyBatch(evidence) =>
      (match Exposed(p, evidence)
       case Err(_) => None
       case Ok(values) => SettleBatch(p, s, env, values))
    case DoPayWithdrawal(payee, sum, tail, receiverBalance) =>
      PayWithdrawal(p, s, env, payee, sum, tail, receiverBalance)
    case DoSignalEscape => SignalEscape(p, s, env)
    case DoExecuteEscape => ExecuteEscape(p, s, env)
    case DoCouncilEscape => SecurityCouncilEscape(p, s, env)
    case DoAbandonBatch => AbandonBatch(p, s, env)
    case DoReclaimDeposit(index, receiverBalance) => ReclaimDeposit(p, s, index, receiverBalance)
    case DoPruneDeposit(index, receiverBalance) => PruneDeposit(p, s, index, receiverBalance)
    case DoPruneRequest(index, receiverBalance) => PruneRequest(p, s, index, receiverBalance)
    case DoForceExit(claim, receiverBalance) => ForceExit(p, s, claim, receiverBalance)
  }

  /** One settled batch: the inbox entries it consumed, its bytes, and what they meant. */
  datatype Settled = Settled(first: nat, end: nat, bytes: seq<byte>, txns: seq<Transaction>, payouts: Semantics.Payouts)

  datatype History = History(
    round: u64,
    items: seq<InboxItem>,
    accounts: Semantics.Ledger,
    txns: seq<Transaction>,
    posted: seq<seq<byte>>,
    settled: seq<Settled>,
    paid: Semantics.Payouts,
    owed: Semantics.Payouts,
    refunded: seq<u64>,
    exited: seq<(Address, u64)>,
    signalRound: u64, signalTarget: u64, extensions: nat, discharged: nat, windowWork: nat,
    openings: seq<Opening>,
    claims: seq<ExitClaim>)

  /** Whose payment opened an inbox entry, and when. */
  datatype Opening = Opening(payer: L1Address, round: u64)

  datatype World = World(s: State, h: History)

  function Start(balance: nat): World {
    World(Genesis(balance), History(0, [], map[], [], [], [], [], [], [], [], 0, 0, 0, 0, 0, [], []))
  }

  /**
   * Obligations counted while an accusation is live: in all, since the window they are buying was
   * begun, and the windows bought, one at most for each call.
   */
  function NoteCredit(s: State, h: History, n: nat): History {
    if s.accusation.deadline.None? then h
    else
      var work := h.windowWork + n;
      var bought := work >= ESCAPE_PROGRESS_TRANCHE;
      h.(discharged := h.discharged + n,
         extensions := h.extensions + if bought then 1 else 0,
         windowWork := if bought then 0 else work)
  }

  function NoteSettlement(s: State, h: History, bytes: seq<byte>): History {
    match BatchCodec.DecodeBatch(bytes)
    case Err(_) => h
    case Ok(batch) =>
      match Semantics.Run(h.accounts, batch.txns)
      case None => h
      case Some(o) =>
        var end := if s.posting.sealedInboxCursor.Some? then s.posting.sealedInboxCursor.value
                   else s.settledInboxCursor;
        var h1 := h.(accounts := o.accounts, txns := h.txns + batch.txns,
                     settled := h.settled + [Settled(s.settledInboxCursor, end, bytes, batch.txns, o.payouts)],
                     paid := [], owed := o.payouts);
        if end < s.settledInboxCursor then h1 else NoteCredit(s, h1, end - s.settledInboxCursor)
  }

  /** What a successful call adds to the history. */
  function Note(p: Deployment, s: State, h: History, call: Call): History {
    var h1 := h.(round := call.env.round);
    match call.action
    case DoDeposit(payment, recipient) =>
      if payment.amount < NextBoxCost(p, s) then h1
      else
        h1.(items := h.items + [DepositItem(recipient, payment.amount - NextBoxCost(p, s))],
            openings := h.openings + [Opening(payment.sender, call.env.round)])
    case DoRequest(payment, _, address, to, _, _, _) =>
      h1.(items := h.items + [RequestItem(address, to)],
          openings := h.openings + [Opening(payment.sender, call.env.round)])
    case DoOpenBatch(_, _) => h1.(posted := [])
    case DoAccumulateChunk(chunk) => h1.(posted := h.posted + [chunk])
    case DoVerifyBatch(evidence) => NoteSettlement(s, h1, evidence.batchBytes)
    case DoPayWithdrawal(payee, sum, _, _) =>
      var h2 := h1.(paid := h.paid + [(payee, sum)], owed := if h.owed == [] then [] else h.owed[1..]);
      if call.env.sender == p.creator then NoteCredit(s, h2, 1) else h2
    case DoSignalEscape =>
      h1.(signalRound := call.env.round, signalTarget := s.inboxCursor, extensions := 0, discharged := 0,
          windowWork := 0)
    case DoReclaimDeposit(index, _) => h1.(refunded := h.refunded + [index])
    case DoForceExit(claim, _) =>
      h1.(exited := h.exited + [(claim.address, claim.account.amount)], claims := h.claims + [claim])
    case _ => h1
  }

  /** One call, at a round no earlier than the last; None where it fails and changes nothing. */
  function Step(p: Deployment, w: World, call: Call): Option<World> {
    if call.env.round < w.h.round then None
    else
      match Act(p, w.s, call)
      case None => None
      case Some(s) => Some(World(s, Note(p, w.s, w.h, call)))
  }

  /** A run: calls that fail leave no trace. */
  function RunCalls(p: Deployment, w: World, calls: seq<Call>): World
    decreases |calls|
  {
    if calls == [] then w
    else
      match Step(p, w, calls[0])
      case None => RunCalls(p, w, calls[1..])
      case Some(next) => RunCalls(p, next, calls[1..])
  }
}
