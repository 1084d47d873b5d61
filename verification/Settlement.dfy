/** The settlement contract: its state and what each call does to it, or None where it fails. */
module Settlement {
  import opened Types
  import opened Encoding
  import opened Addresses
  import opened MerkleProofs
  import opened Transactions
  import opened Chains
  import opened Execution

  /** How far CreditEscapeProgress counts before it moves the deadline on and starts again. */
  const ESCAPE_PROGRESS_TRANCHE: nat := 256

  /** Pay refuses to leave any receiver but the app with less than this. */
  const MIN_ACCOUNT_BALANCE: nat := 100_000

  const TAG_REQUEST: seq<byte> := [0x57, 0x52, 0x45, 0x51]
  const TAG_EXIT: seq<byte> := [0x45, 0x58, 0x49, 0x54]

  /** What is fixed at creation, and what the network charges for each kind of box. */
  datatype Deployment = Deployment(
    crypto: Crypto, wire: DigestWire, domain: DeploymentDomain,
    creator: L1Address, council: L1Address, app: L1Address,
    inboxTimeout: u64, escapeGrace: u64,
    baseMinBalance: nat, inboxBoxCost: nat, exitBoxCost: nat)

  datatype Kind = DepositKind | RequestKind

  datatype InboxRecord = InboxRecord(
    kind: Kind, address: Address, recipient: L1Address, amount: u64,
    payer: L1Address, round: u64, chainAfter: Digest)

  /** The globals of a batch being posted. */
  datatype Posting = Posting(
    chunkAccumulator: Option<Digest>, batchLength: Option<u64>, postedLength: Option<u64>,
    sealedInboxChain: Option<Digest>, sealedInboxCursor: Option<u64>)

  /** The globals of a signalled escape. */
  datatype Accusation = Accusation(deadline: Option<u64>, inboxTarget: Option<u64>, progress: Option<u64>)

  const NO_POSTING: Posting := Posting(None, None, None, None, None)
  const NO_ACCUSATION: Accusation := Accusation(None, None, None)

  datatype State = State(
    stateRoot: Digest,
    posting: Posting,
    inboxChain: Digest, inboxCursor: u64,
    settledInboxChain: Digest, settledInboxCursor: u64,
    requestCursor: u64,
    inbox: map<u64, InboxRecord>,
    pendingWithdrawals: Option<Digest>,
    exits: map<Address, u64>,
    escaped: bool,
    accusation: Accusation,
    balance: nat,
    sent: seq<Transfer>)

  /** A payment out of the app account, as the network records it. */
  datatype Transfer = Transfer(receiver: L1Address, amount: nat)

  /** Who is calling, and when. */
  datatype Env = Env(sender: L1Address, round: u64)

  /** A payment made to the app in the same group as a call. */
  datatype GroupPayment = GroupPayment(sender: L1Address, receiver: L1Address, amount: u64)

  function Genesis(balance: nat): State {
    State(Zero, NO_POSTING, Zero, 0, Zero, 0, 0, map[], None, map[], false, NO_ACCUSATION, balance, [])
  }

  /** The base charge and one charge for each inbox and exit box that stands. */
  function MinBalance(p: Deployment, s: State): nat {
    p.baseMinBalance + p.inboxBoxCost * |s.inbox| + p.exitBoxCost * |s.exits|
  }

  /** A payment leaves its receiver with enough to exist; the app itself always has that. */
  predicate CanReceive(p: Deployment, receiver: L1Address, amount: nat, receiverBalance: nat) {
    receiver == p.app || receiverBalance + amount >= MIN_ACCOUNT_BALANCE
  }

  /**
   * Send an inner payment. It fails if the app could not keep its minimum balance, or if the
   * receiver would be left with less than an account needs to exist.
   */
  function Pay(p: Deployment, s: State, receiver: L1Address, amount: nat, receiverBalance: nat): Option<State> {
    if amount > s.balance then None
    else
      var after := if receiver == p.app then s.balance else s.balance - amount;
      if after < MinBalance(p, s) then None
      else if !CanReceive(p, receiver, amount, receiverBalance) then None
      else Some(s.(balance := after, sent := s.sent + [Transfer(receiver, amount)]))
  }

  function DropBatch(s: State): State {
    s.(posting := NO_POSTING)
  }

  /** Add a record at the cursor, paid for by a payment in the group, extending the chain. */
  function Append(p: Deployment, s: State, record: InboxRecord, payment: u64): Option<State> {
    var s1 := s.(inbox := s.inbox[s.inboxCursor := record], inboxChain := record.chainAfter,
                 balance := s.balance + payment);
    if s.inboxCursor == MAX_U64 || s1.balance < MinBalance(p, s1) then None
    else Some(s1.(inboxCursor := s.inboxCursor + 1))
  }

  /** How much MinBalance rises when a box is put at the cursor. */
  function NextBoxCost(p: Deployment, s: State): nat {
    if s.inboxCursor in s.inbox then 0 else p.inboxBoxCost
  }

  function AcceptDeposit(p: Deployment, s: State, env: Env, payment: GroupPayment, recipient: Address): Option<State> {
    if s.escaped then None
    else if payment.sender == p.app || payment.receiver != p.app || payment.amount <= NextBoxCost(p, s) then None
    else
      var amount := payment.amount - NextBoxCost(p, s);
      var chainAfter := InboxDeposit(s.inboxChain, recipient, amount);
      Append(p, s, InboxRecord(DepositKind, recipient, ZERO_ADDRESS, amount, payment.sender, env.round, chainAfter),
             payment.amount)
  }

  function RequestMessage(p: Deployment, nonce: u64, address: Address, recipient: L1Address): seq<byte> {
    TAG_REQUEST + p.domain + U64Bytes(nonce) + address + recipient
  }

  function RequestWithdrawal(p: Deployment, s: State, env: Env, payment: GroupPayment, expectedNonce: u64,
                             address: Address, recipient: L1Address,
                             scheme: seq<byte>, pubKey: seq<byte>, signature: seq<byte>): Option<State>
  {
    if s.escaped then None
    else if payment.sender == p.app || payment.receiver != p.app || payment.amount != NextBoxCost(p, s) then None
    else if s.requestCursor != expectedNonce || s.requestCursor == MAX_U64 then None
    else if scheme != Ed25519.Identifier() || p.crypto.addressOf(Ed25519, pubKey) != address then None
    else if !p.crypto.avmEd25519(RequestMessage(p, s.requestCursor, address, recipient), signature, pubKey) then None
    else
      var chainAfter := InboxRequest(s.inboxChain, address, recipient);
      var record := InboxRecord(RequestKind, address, recipient, 0, payment.sender, env.round, chainAfter);
      match Append(p, s, record, payment.amount)
      case None => None
      case Some(s1) => Some(s1.(requestCursor := s.requestCursor + 1))
  }

  /** Delete a box and send what that releases, plus any amount owed with it, to its payer. */
  function Refund(p: Deployment, s: State, index: u64, extra: u64, receiverBalance: nat): Option<State>
    requires index in s.inbox
  {
    var s1 := s.(inbox := s.inbox - {index});
    if extra + p.inboxBoxCost > MAX_U64 then None
    else Pay(p, s1, s.inbox[index].payer, extra + p.inboxBoxCost, receiverBalance)
  }

  function PruneRequest(p: Deployment, s: State, index: u64, receiverBalance: nat): Option<State> {
    if index !in s.inbox || s.inbox[index].kind != RequestKind then None
    else if !(index < s.settledInboxCursor || s.escaped) then None
    else Refund(p, s, index, 0, receiverBalance)
  }

  function PruneDeposit(p: Deployment, s: State, index: u64, receiverBalance: nat): Option<State> {
    if index !in s.inbox || s.inbox[index].kind != DepositKind then None
    else if index >= s.settledInboxCursor then None
    else Refund(p, s, index, 0, receiverBalance)
  }

  function ReclaimDeposit(p: Deployment, s: State, index: u64, receiverBalance: nat): Option<State> {
    if !s.escaped || index < s.settledInboxCursor || index >= s.inboxCursor then None
    else if index !in s.inbox || s.inbox[index].kind != DepositKind then None
    else Refund(p, s, index, s.inbox[index].amount, receiverBalance)
  }

  function OpenBatch(p: Deployment, s: State, env: Env, batchLength: u64, target: u64): Option<State> {
    if env.sender != p.creator || s.escaped || s.posting.batchLength.Some? || s.pendingWithdrawals.Some? then None
    else if target < s.settledInboxCursor || target > s.inboxCursor then None
    else if target != s.settledInboxCursor && target - 1 !in s.inbox then None
    else
      var sealed := if target == s.settledInboxCursor then s.settledInboxChain else s.inbox[target - 1].chainAfter;
      Some(s.(posting := Posting(Some(BatchSeed(p.domain, batchLength)), Some(batchLength), Some(0),
                                 Some(sealed), Some(target))))
  }

  function AccumulateChunk(p: Deployment, s: State, env: Env, chunk: seq<byte>): Option<State> {
    if env.sender != p.creator || s.posting.batchLength.None? then None
    else if s.posting.postedLength.None? || s.posting.chunkAccumulator.None? then None
    else if s.posting.postedLength.value >= s.posting.batchLength.value then None
    else if |chunk| != ExpectedChunk(s.posting.batchLength.value, s.posting.postedLength.value) then None
    else
      Some(s.(posting := s.posting.(
                chunkAccumulator := Some(ChunkFold(s.posting.chunkAccumulator.value, ChunkDigest(chunk))),
                postedLength := Some(s.posting.postedLength.value + |chunk|))))
  }

  /** Count obligations against a live accusation, buying at most one grace window. */
  function CreditEscapeProgress(p: Deployment, s: State, discharged: nat): Option<State> {
    if s.accusation.deadline.None? then Some(s)
    else if s.accusation.progress.None? || s.accusation.progress.value + discharged > MAX_U64 then None
    else if s.accusation.progress.value + discharged >= ESCAPE_PROGRESS_TRANCHE then
      if s.accusation.deadline.value + p.escapeGrace > MAX_U64 then None
      else
        Some(s.(accusation := s.accusation.(
                  deadline := Some(s.accusation.deadline.value + p.escapeGrace), progress := Some(0))))
    else Some(s.(accusation := s.accusation.(progress := Some(s.accusation.progress.value + discharged))))
  }

  /** Everything verifyBatch compares before it settles. */
  predicate Settles(p: Deployment, s: State, env: Env, v: PublicValues) {
    && env.sender == p.creator
    && !s.escaped
    && (s.accusation.deadline.Some? ==> env.round <= s.accusation.deadline.value)
    && s.posting.batchLength.Some?
    && s.posting.postedLength == s.posting.batchLength
    && v.priorRoot == s.stateRoot
    && Some(v.batchCommitment) == s.posting.chunkAccumulator
    && v.priorInboxChain == s.settledInboxChain
    && Some(v.newInboxChain) == s.posting.sealedInboxChain
    && s.posting.sealedInboxCursor.Some?
  }

  /** The root and settled cursor moved to where the batch reached, its payouts taken on. */
  function Advanced(p: Deployment, s: State, v: PublicValues): State
    requires s.posting.sealedInboxChain.Some? && s.posting.sealedInboxCursor.Some?
  {
    DropBatch(s.(
      stateRoot := v.newRoot,
      settledInboxChain := s.posting.sealedInboxChain.value,
      settledInboxCursor := s.posting.sealedInboxCursor.value,
      pendingWithdrawals :=
        if v.withdrawalChain != PayoutEnd(p.domain) then Some(v.withdrawalChain) else s.pendingWithdrawals))
  }

  /** What a settlement that has moved the settled cursor on from prior makes of an accusation. */
  function Answered(p: Deployment, s: State, prior: u64): Option<State> {
    if s.accusation.inboxTarget.None? then Some(s)
    else if s.settledInboxCursor >= s.accusation.inboxTarget.value then Some(s.(accusation := NO_ACCUSATION))
    else if s.settledInboxCursor < prior then None
    else CreditEscapeProgress(p, s, s.settledInboxCursor - prior)
  }

  /** Advanced and then Answered, if v and the state pass every comparison of Settles. */
  function SettleBatch(p: Deployment, s: State, env: Env, v: PublicValues): Option<State> {
    if !Settles(p, s, env, v) then None
    else Answered(p, Advanced(p, s, v), s.settledInboxCursor)
  }

  function PayWithdrawal(p: Deployment, s: State, env: Env, recipient: L1Address, amount: u64, tail: Digest,
                         receiverBalance: nat): Option<State>
  {
    if s.pendingWithdrawals != Some(Payout(tail, recipient, amount)) then None
    else
      var s1 := s.(pendingWithdrawals := if tail == PayoutEnd(p.domain) then None else Some(tail));
      match (if env.sender == p.creator then CreditEscapeProgress(p, s1, 1) else Some(s1))
      case None => None
      case Some(s2) => Pay(p, s2, recipient, amount, receiverBalance)
  }

  function SignalEscape(p: Deployment, s: State, env: Env): Option<State> {
    if s.escaped || s.accusation.deadline.Some? || s.settledInboxCursor >= s.inboxCursor then None
    else if s.settledInboxCursor !in s.inbox then None
    else
      var head := s.inbox[s.settledInboxCursor].round;
      if head + p.inboxTimeout > MAX_U64 || env.round <= head + p.inboxTimeout then None
      else if env.round + p.escapeGrace > MAX_U64 then None
      else
        Some(s.(accusation := Accusation(Some(env.round + p.escapeGrace), Some(s.inboxCursor), Some(0))))
  }

  /** Freeze for good, dropping any open batch but not a debt already settled. */
  function Freeze(s: State): State {
    var s1 := s.(escaped := true, accusation := NO_ACCUSATION);
    if s.posting.batchLength.Some? then DropBatch(s1) else s1
  }

  function ExecuteEscape(p: Deployment, s: State, env: Env): Option<State> {
    if s.escaped || s.accusation.deadline.None? || env.round <= s.accusation.deadline.value then None
    else Some(Freeze(s))
  }

  function SecurityCouncilEscape(p: Deployment, s: State, env: Env): Option<State> {
    if env.sender != p.council || s.escaped then None else Some(Freeze(s))
  }

  function AbandonBatch(p: Deployment, s: State, env: Env): Option<State> {
    if env.sender != p.creator || s.posting.batchLength.None? then None else Some(DropBatch(s))
  }

  /** The 32-byte words of a proof path given as bytes. */
  function Words(wire: DigestWire, bytes: seq<byte>): (words: seq<Digest>)
    requires |bytes| % 32 == 0
    ensures |words| == |bytes| / 32
  {
    if |bytes| < 32 then [] else [wire.decode(bytes[..32])] + Words(wire, bytes[32..])
  }

  function ExitMessage(p: Deployment, address: Address, recipient: L1Address): seq<byte> {
    TAG_EXIT + p.domain + address + recipient
  }

  /** An account as a holder presents it for an exit. */
  datatype ExitClaim = ExitClaim(
    address: Address, account: Account, scheme: seq<byte>, pubKey: seq<byte>, signature: seq<byte>,
    recipient: L1Address, siblings: seq<byte>)

  /** Everything forceExit checks before it writes its record. */
  predicate Exits(p: Deployment, s: State, e: ExitClaim) {
    && s.escaped
    && e.address !in s.exits
    && e.scheme == Ed25519.Identifier()
    && p.crypto.addressOf(Ed25519, e.pubKey) == e.account.authAddress
    && p.crypto.avmEd25519(ExitMessage(p, e.address, e.recipient), e.signature, e.pubKey)
    && |e.siblings| % 32 == 0
    && |e.siblings| / 32 <= DEPTH
    && PathHash(e.address, 0, Words(p.wire, e.siblings), LeafHash(e.address, e.account)) == s.stateRoot
  }

  function ForceExit(p: Deployment, s: State, e: ExitClaim, receiverBalance: nat): Option<State> {
    if !Exits(p, s, e) || e.account.amount <= p.exitBoxCost then None
    else
      Pay(p, s.(exits := s.exits[e.address := e.account.amount]), e.recipient,
          e.account.amount - p.exitBoxCost, receiverBalance)
  }
}
