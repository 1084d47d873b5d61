/** The settlement contract as it runs: globals and boxes written call by call, undone on failure. */
module RollupVerifiers {
  import opened Types
  import opened Addresses
  import opened MerkleProofs
  import opened Transactions
  import opened Chains
  import opened Execution
  import opened Settlement
  import opened Runs
  import opened Invariants
  import Guarantees

  /** A call does what the specification says, and fails exactly where it does. */
  predicate Does(ok: bool, spec: Option<State>, now: State) {
    match spec
    case None => !ok
    case Some(s) => ok && now == s
  }

  /** An allocated box before anything is written to it. */
  const BLANK: InboxRecord := InboxRecord(DepositKind, ZERO_ADDRESS, ZERO_ADDRESS, 0, ZERO_ADDRESS, 0, Zero)

  /** The state once the next box has been created and before anything is written to it. */
  function Blanked(s: State): State {
    s.(inbox := s.inbox[s.inboxCursor := BLANK])
  }

  /** The state once a record has been written and its payment counted, the cursor not yet moved. */
  function Recorded(s: State, record: InboxRecord, payment: u64): State {
    s.(inbox := s.inbox[s.inboxCursor := record], inboxChain := record.chainAfter, balance := s.balance + payment)
  }

  lemma AppendOverBlank(p: Deployment, s: State, record: InboxRecord, payment: u64)
    ensures Append(p, Blanked(s), record, payment) == Append(p, s, record, payment)
  {
    assert Blanked(s).inbox[s.inboxCursor := record] == s.inbox[s.inboxCursor := record];
  }

  lemma {:induction false} WordAt(wire: DigestWire, bytes: seq<byte>, level: nat)
    requires |bytes| % 32 == 0 && level < |bytes| / 32
    ensures Words(wire, bytes)[level] == wire.decode(bytes[level * 32..(level + 1) * 32])
  {
    if level > 0 {
      var rest := bytes[32..];
      WordAt(wire, rest, level - 1);
      SliceOfRest(bytes, level);
      assert Words(wire, bytes) == [wire.decode(bytes[..32])] + Words(wire, rest);
    }
  }

  lemma SliceOfRest(bytes: seq<byte>, level: nat)
    requires 0 < level && (level + 1) * 32 <= |bytes|
    ensures bytes[32..][(level - 1) * 32..(level - 1 + 1) * 32] == bytes[level * 32..(level + 1) * 32]
  {
  }

  class RollupVerifier {
    const p: Deployment

    var stateRoot: Digest
    var chunkAccumulator: Option<Digest>
    var batchLength: Option<u64>
    var postedLength: Option<u64>
    var inboxChain: Digest
    var inboxCursor: u64
    var settledInboxChain: Digest
    var settledInboxCursor: u64
    var sealedInboxChain: Option<Digest>
    var sealedInboxCursor: Option<u64>
    var requestCursor: u64
    var inbox: map<u64, InboxRecord>
    var pendingWithdrawals: Option<Digest>
    var exits: map<Address, u64>
    var escaped: bool
    var escapeDeadline: Option<u64>
    var escapeInboxTarget: Option<u64>
    var escapeProgress: Option<u64>
    var balance: nat
    var sent: seq<Transfer>

    ghost var history: History

    function Abs(): State
      reads this
    {
      State(stateRoot, Posting(chunkAccumulator, batchLength, postedLength, sealedInboxChain, sealedInboxCursor),
            inboxChain, inboxCursor, settledInboxChain, settledInboxCursor, requestCursor, inbox,
            pendingWithdrawals, exits, escaped, Accusation(escapeDeadline, escapeInboxTarget, escapeProgress), balance,
            sent)
    }

    ghost function Now(): World
      reads this
    {
      World(Abs(), history)
    }

    /** MinBalance of the fields as they stand; differences of two readings are box prices. */
    function AppMinBalance(): nat
      reads this
    {
      MinBalance(p, Abs())
    }

    /** createApplication, by a creator who funds the app with at least its base minimum. */
    constructor (p: Deployment, funded: nat)
      requires funded >= p.baseMinBalance
      ensures this.p == p && Now() == Start(funded) && Inv(p, Now())
    {
      this.p := p;
      stateRoot, inboxChain, settledInboxChain := Zero, Zero, Zero;
      inboxCursor, settledInboxCursor, requestCursor := 0, 0, 0;
      chunkAccumulator, batchLength, postedLength, sealedInboxChain, sealedInboxCursor := None, None, None, None, None;
      inbox, exits := map[], map[];
      pendingWithdrawals := None;
      escaped := false;
      escapeDeadline, escapeInboxTarget, escapeProgress := None, None, None;
      balance, sent := funded, [];
      history := Start(funded).h;
      new;
      StartHolds(p, funded);
    }

    /** An inner payment out of the app account. */
    method Submit(receiver: L1Address, amount: nat, receiverBalance: nat) returns (ok: bool)
      modifies this`balance, this`sent
      ensures Does(ok, Pay(p, old(Abs()), receiver, amount, receiverBalance), Abs())
    {
      if amount > balance {
        return false;
      }
      if receiver != p.app {
        balance := balance - amount;
      }
      sent := sent + [Transfer(receiver, amount)];
      return balance >= AppMinBalance() && CanReceive(p, receiver, amount, receiverBalance);
    }

    /** DropBatch on the fields. */
    method DeleteBatch()
      modifies this`chunkAccumulator, this`batchLength, this`postedLength, this`sealedInboxChain, this`sealedInboxCursor
      ensures Abs() == DropBatch(old(Abs()))
    {
      chunkAccumulator, batchLength, postedLength := None, None, None;
      sealedInboxChain, sealedInboxCursor := None, None;
    }

    /** Create the box at the cursor and measure what that charges. */
    method AllocateBox() returns (boxCost: nat)
      modifies this`inbox
      ensures Abs() == Blanked(old(Abs())) && boxCost == NextBoxCost(p, old(Abs()))
    {
      assert inbox[inboxCursor := BLANK].Keys == inbox.Keys + {inboxCursor};
      var before := AppMinBalance();
      inbox := inbox[inboxCursor := BLANK];
      boxCost := AppMinBalance() - before;
    }

    /** Write the record into its box and move the chain and the cursor past it. */
    method Enter(record: InboxRecord, payment: u64) returns (ok: bool)
      modifies this`inbox, this`inboxChain, this`inboxCursor, this`balance
      ensures Does(ok, Append(p, old(Abs()), record, payment), Abs())
    {
      hide MinBalance;
      inbox := inbox[inboxCursor := record];
      inboxChain := record.chainAfter;
      balance := balance + payment;
      assert Abs() == Recorded(old(Abs()), record, payment);
      if inboxCursor == MAX_U64 || balance < AppMinBalance() { return false; }
      inboxCursor := inboxCursor + 1;
      return true;
    }

    method Deposit(env: Env, payment: GroupPayment, recipient: Address) returns (index: Option<u64>)
      modifies this
      ensures history == old(history)
      ensures Does(index.Some?, AcceptDeposit(p, old(Abs()), env, payment, recipient), Abs())
      ensures index.Some? ==> index.value == old(inboxCursor)
    {
      hide Append, NextBoxCost;
      if escaped || payment.sender == p.app { return None; }
      var i := inboxCursor;
      var boxCost := AllocateBox();
      if payment.receiver != p.app || payment.amount <= boxCost { return None; }
      var amount: u64 := payment.amount - boxCost;
      var chainAfter := InboxDeposit(inboxChain, recipient, amount);
      var record := InboxRecord(DepositKind, recipient, ZERO_ADDRESS, amount, payment.sender, env.round, chainAfter);
      AppendOverBlank(p, old(Abs()), record, payment.amount);
      var ok := Enter(record, payment.amount);
      return if ok then Some(i) else None;
    }

    method Request(env: Env, payment: GroupPayment, expectedNonce: u64, address: Address, recipient: L1Address,
                   scheme: seq<byte>, pubKey: seq<byte>, signature: seq<byte>) returns (index: Option<u64>)
      modifies this
      ensures history == old(history)
      ensures Does(index.Some?, RequestWithdrawal(p, old(Abs()), env, payment, expectedNonce, address, recipient,
                                                  scheme, pubKey, signature), Abs())
      ensures index.Some? ==> index.value == old(inboxCursor)
    {
      hide Append, NextBoxCost, RequestMessage;
      if escaped || payment.sender == p.app { return None; }
      var i := inboxCursor;
      var boxCost := AllocateBox();
      if payment.receiver != p.app || payment.amount != boxCost { return None; }
      var nonce := requestCursor;
      if nonce != expectedNonce { return None; }
      if scheme != Ed25519.Identifier() || p.crypto.addressOf(Ed25519, pubKey) != address { return None; }
      if !p.crypto.avmEd25519(RequestMessage(p, nonce, address, recipient), signature, pubKey) { return None; }
      var chainAfter := InboxRequest(inboxChain, address, recipient);
      var record := InboxRecord(RequestKind, address, recipient, 0, payment.sender, env.round, chainAfter);
      AppendOverBlank(p, old(Abs()), record, payment.amount);
      var ok := Enter(record, payment.amount);
      if !ok || nonce == MAX_U64 { return None; }
      requestCursor := nonce + 1;
      return Some(i);
    }

    lemma BoxRelease(index: u64)
      requires index in inbox
      ensures MinBalance(p, Abs()) == MinBalance(p, Abs().(inbox := inbox - {index})) + p.inboxBoxCost
    {
      assert (inbox - {index}).Keys + {index} == inbox.Keys;
      assert p.inboxBoxCost * |inbox| == p.inboxBoxCost * (|inbox| - 1) + p.inboxBoxCost;
    }

    /** Refund on the fields: the price is the fall in AppMinBalance as the box goes. */
    method ReleaseBox(index: u64, extra: u64, receiverBalance: nat) returns (ok: bool)
      requires index in inbox
      modifies this`inbox, this`balance, this`sent
      ensures Does(ok, Refund(p, old(Abs()), index, extra, receiverBalance), Abs())
    {
      var payer := inbox[index].payer;
      BoxRelease(index);
      var before := AppMinBalance();
      inbox := inbox - {index};
      var boxCost := before - AppMinBalance();
      if extra + boxCost > MAX_U64 { return false; }
      ok := Submit(payer, extra + boxCost, receiverBalance);
    }

    method Prune(kind: Kind, index: u64, receiverBalance: nat) returns (ok: bool)
      modifies this`inbox, this`balance, this`sent
      ensures kind == RequestKind ==> Does(ok, PruneRequest(p, old(Abs()), index, receiverBalance), Abs())
      ensures kind == DepositKind ==> Does(ok, PruneDeposit(p, old(Abs()), index, receiverBalance), Abs())
    {
      if index !in inbox || inbox[index].kind != kind { return false; }
      if !(index < settledInboxCursor || (kind == RequestKind && escaped)) { return false; }
      ok := ReleaseBox(index, 0, receiverBalance);
    }

    method Reclaim(index: u64, receiverBalance: nat) returns (ok: bool)
      modifies this`inbox, this`balance, this`sent
      ensures Does(ok, ReclaimDeposit(p, old(Abs()), index, receiverBalance), Abs())
    {
      if !escaped || index < settledInboxCursor || index >= inboxCursor { return false; }
      if index !in inbox || inbox[index].kind != DepositKind { return false; }
      ok := ReleaseBox(index, inbox[index].amount, receiverBalance);
    }

    /** The globals of a batch with nothing posted yet. */
    method BeginPosting(length: u64)
      modifies this`chunkAccumulator, this`batchLength, this`postedLength
      ensures Abs() == old(Abs()).(posting := old(Abs()).posting.(
                                     chunkAccumulator := Some(BatchSeed(p.domain, length)),
                                     batchLength := Some(length), postedLength := Some(0)))
    {
      chunkAccumulator := Some(BatchSeed(p.domain, length));
      batchLength, postedLength := Some(length), Some(0);
    }

    method Open(env: Env, length: u64, target: u64) returns (ok: bool)
      modifies this`chunkAccumulator, this`batchLength, this`postedLength, this`sealedInboxChain, this`sealedInboxCursor
      ensures Does(ok, OpenBatch(p, old(Abs()), env, length, target), Abs())
    {
      if env.sender != p.creator || escaped || batchLength.Some? || pendingWithdrawals.Some? { return false; }
      if target < settledInboxCursor || target > inboxCursor { return false; }
      BeginPosting(length);
      if target == settledInboxCursor {
        sealedInboxChain := Some(settledInboxChain);
      } else {
        if target - 1 !in inbox { return false; }
        sealedInboxChain := Some(inbox[target - 1].chainAfter);
      }
      sealedInboxCursor := Some(target);
      return true;
    }

    method Accumulate(env: Env, chunk: seq<byte>) returns (ok: bool)
      modifies this`chunkAccumulator, this`postedLength
      ensures Does(ok, AccumulateChunk(p, old(Abs()), env, chunk), Abs())
    {
      if env.sender != p.creator || batchLength.None? || postedLength.None? || chunkAccumulator.None? { return false; }
      if postedLength.value >= batchLength.value { return false; }
      var remaining := batchLength.value - postedLength.value;
      var expected := CHUNK_SIZE;
      if remaining < CHUNK_SIZE {
        expected := remaining;
      }
      if |chunk| != expected { return false; }
      chunkAccumulator := Some(ChunkFold(chunkAccumulator.value, ChunkDigest(chunk)));
      postedLength := Some(postedLength.value + |chunk|);
      return true;
    }

    method Credit(discharged: nat) returns (ok: bool)
      modifies this`escapeDeadline, this`escapeProgress
      ensures Does(ok, CreditEscapeProgress(p, old(Abs()), discharged), Abs())
    {
      if escapeDeadline.None? { return true; }
      if escapeProgress.None? || escapeProgress.value + discharged > MAX_U64 { return false; }
      var progress := escapeProgress.value + discharged;
      if progress >= ESCAPE_PROGRESS_TRANCHE {
        if escapeDeadline.value + p.escapeGrace > MAX_U64 { return false; }
        escapeDeadline := Some(escapeDeadline.value + p.escapeGrace);
        escapeProgress := Some(0);
      } else {
        escapeProgress := Some(progress);
      }
      return true;
    }

    /** Every comparison verifyBatch makes before it settles. */
    method Accepts(env: Env, v: PublicValues) returns (ok: bool)
      ensures ok == Settles(p, Abs(), env, v)
    {
      if env.sender != p.creator || escaped { return false; }
      if escapeDeadline.Some? && env.round > escapeDeadline.value { return false; }
      if batchLength.None? || postedLength != batchLength { return false; }
      if v.priorRoot != stateRoot || Some(v.batchCommitment) != chunkAccumulator { return false; }
      if v.priorInboxChain != settledInboxChain || Some(v.newInboxChain) != sealedInboxChain { return false; }
      return sealedInboxCursor.Some?;
    }

    /** Clear an accusation whose target a settlement has reached, or credit what it discharged. */
    method AnswerAccusation(priorCursor: u64) returns (ok: bool)
      modifies this`escapeInboxTarget, this`escapeDeadline, this`escapeProgress
      ensures Does(ok, Answered(p, old(Abs()), priorCursor), Abs())
    {
      if escapeInboxTarget.None? { return true; }
      if settledInboxCursor >= escapeInboxTarget.value {
        escapeInboxTarget, escapeDeadline, escapeProgress := None, None, None;
        return true;
      }
      if settledInboxCursor < priorCursor { return false; }
      ok := Credit(settledInboxCursor - priorCursor);
    }

    /** Move the root and the settled cursor to where the batch reached, and take on its payouts. */
    method Advance(v: PublicValues)
      requires sealedInboxChain.Some? && sealedInboxCursor.Some?
      modifies this
      ensures history == old(history)
      ensures Abs() == Advanced(p, old(Abs()), v)
    {
      stateRoot := v.newRoot;
      settledInboxChain := sealedInboxChain.value;
      settledInboxCursor := sealedInboxCursor.value;
      if v.withdrawalChain != PayoutEnd(p.domain) {
        pendingWithdrawals := Some(v.withdrawalChain);
      }
      DeleteBatch();
    }

    /** verifyBatch, once the proof has been found to expose v. */
    method VerifyBatch(env: Env, v: PublicValues) returns (ok: bool)
      modifies this
      ensures history == old(history)
      ensures Does(ok, SettleBatch(p, old(Abs()), env, v), Abs())
    {
      hide CreditEscapeProgress;
      ok := Accepts(env, v);
      if !ok { return; }
      var priorCursor := settledInboxCursor;
      Advance(v);
      ok := AnswerAccusation(priorCursor);
    }

    method PayNext(env: Env, recipient: L1Address, amount: u64, tail: Digest, receiverBalance: nat) returns (ok: bool)
      modifies this
      ensures history == old(history)
      ensures Does(ok, PayWithdrawal(p, old(Abs()), env, recipient, amount, tail, receiverBalance), Abs())
    {
      hide CreditEscapeProgress, Pay;
      if pendingWithdrawals.None? || Payout(tail, recipient, amount) != pendingWithdrawals.value { return false; }
      if tail == PayoutEnd(p.domain) {
        pendingWithdrawals := None;
      } else {
        pendingWithdrawals := Some(tail);
      }
      if env.sender == p.creator {
        ok := Credit(1);
        if !ok { return; }
      }
      ok := Submit(recipient, amount, receiverBalance);
    }

    method Signal(env: Env) returns (ok: bool)
      modifies this`escapeInboxTarget, this`escapeProgress, this`escapeDeadline
      ensures Does(ok, SignalEscape(p, old(Abs()), env), Abs())
    {
      if escaped || escapeDeadline.Some? || settledInboxCursor >= inboxCursor { return false; }
      if settledInboxCursor !in inbox { return false; }
      var head := inbox[settledInboxCursor].round;
      if head + p.inboxTimeout > MAX_U64 || env.round <= head + p.inboxTimeout { return false; }
      escapeInboxTarget := Some(inboxCursor);
      escapeProgress := Some(0);
      if env.round + p.escapeGrace > MAX_U64 { return false; }
      escapeDeadline := Some(env.round + p.escapeGrace);
      return true;
    }

    /** What both escapes do once allowed. */
    method Escape()
      modifies this`escaped, this`escapeDeadline, this`escapeInboxTarget, this`escapeProgress,
        this`chunkAccumulator, this`batchLength, this`postedLength, this`sealedInboxChain, this`sealedInboxCursor
      ensures Abs() == Freeze(old(Abs()))
    {
      escaped := true;
      escapeDeadline, escapeInboxTarget, escapeProgress := None, None, None;
      if batchLength.Some? {
        DeleteBatch();
      }
    }

    method Execute(env: Env) returns (ok: bool)
      modifies this
      ensures history == old(history)
      ensures Does(ok, ExecuteEscape(p, old(Abs()), env), Abs())
    {
      if escaped || escapeDeadline.None? || env.round <= escapeDeadline.value { return false; }
      Escape();
      return true;
    }

    method CouncilEscape(env: Env) returns (ok: bool)
      modifies this
      ensures history == old(history)
      ensures Does(ok, SecurityCouncilEscape(p, old(Abs()), env), Abs())
    {
      if env.sender != p.council || escaped { return false; }
      Escape();
      return true;
    }

    method Abandon(env: Env) returns (ok: bool)
      modifies this
      ensures history == old(history)
      ensures Does(ok, AbandonBatch(p, old(Abs()), env), Abs())
    {
      if env.sender != p.creator || batchLength.None? { return false; }
      DeleteBatch();
      return true;
    }

    /** Climb a proof path from a leaf, bottom up, reading each sibling out of the bytes. */
    method Climb(address: Address, leaf: Digest, siblings: seq<byte>) returns (current: Digest)
      requires |siblings| % 32 == 0 && |siblings| / 32 <= DEPTH
      ensures current == PathHash(address, 0, Words(p.wire, siblings), leaf)
    {
      current := leaf;
      ghost var words := Words(p.wire, siblings);
      var level := |siblings| / 32;
      assert words[..level] == words;
      while level > 0
        invariant level <= |words|
        invariant PathHash(address, 0, words[..level], current) == PathHash(address, 0, words, leaf)
      {
        level := level - 1;
        PeelOneLevel(address, 0, words, level, current);
        WordAt(p.wire, siblings, level);
        var sibling := p.wire.decode(siblings[level * 32..(level + 1) * 32]);
        current := if BitAt(address, level) == 1 then NodeHash(sibling, current) else NodeHash(current, sibling);
      }
    }

    /** Every check forceExit makes before it writes its record. */
    method Proves(e: ExitClaim) returns (ok: bool)
      ensures ok == Exits(p, Abs(), e)
    {
      hide PathHash, Words, ExitMessage;
      if !escaped || e.address in exits { return false; }
      if e.scheme != Ed25519.Identifier() { return false; }
      if p.crypto.addressOf(Ed25519, e.pubKey) != e.account.authAddress { return false; }
      if !p.crypto.avmEd25519(ExitMessage(p, e.address, e.recipient), e.signature, e.pubKey) { return false; }
      if |e.siblings| % 32 != 0 || |e.siblings| / 32 > DEPTH { return false; }
      var current := Climb(e.address, LeafHash(e.address, e.account), e.siblings);
      return current == stateRoot;
    }

    method Exit(e: ExitClaim, receiverBalance: nat) returns (ok: bool)
      modifies this`exits, this`balance, this`sent
      ensures Does(ok, ForceExit(p, old(Abs()), e, receiverBalance), Abs())
    {
      hide Pay, MinBalance, Exits;
      ok := Proves(e);
      if !ok { return; }
      RecordPrice(e);
      var before := AppMinBalance();
      exits := exits[e.address := e.account.amount];
      var boxCost := AppMinBalance() - before;
      if e.account.amount <= boxCost { return false; }
      ok := Submit(e.recipient, e.account.amount - boxCost, receiverBalance);
    }

    lemma RecordPrice(e: ExitClaim)
      requires Exits(p, Abs(), e)
      ensures MinBalance(p, Abs().(exits := exits[e.address := e.account.amount]))
           == MinBalance(p, Abs()) + p.exitBoxCost
    {
      assert exits[e.address := e.account.amount].Keys == exits.Keys + {e.address};
      assert p.exitBoxCost * (|exits| + 1) == p.exitBoxCost * |exits| + p.exitBoxCost;
    }

    method RestoreBatch(s: State)
      modifies this`chunkAccumulator, this`batchLength, this`postedLength, this`sealedInboxChain, this`sealedInboxCursor
      ensures Abs() == old(Abs()).(posting := s.posting)
    {
      var b := s.posting;
      chunkAccumulator, batchLength, postedLength := b.chunkAccumulator, b.batchLength, b.postedLength;
      sealedInboxChain, sealedInboxCursor := b.sealedInboxChain, b.sealedInboxCursor;
    }

    method RestoreEscape(s: State)
      modifies this`escaped, this`escapeDeadline, this`escapeInboxTarget, this`escapeProgress
      ensures Abs() == old(Abs()).(escaped := s.escaped, accusation := s.accusation)
    {
      escaped := s.escaped;
      var a := s.accusation;
      escapeDeadline, escapeInboxTarget, escapeProgress := a.deadline, a.inboxTarget, a.progress;
    }

    method RestoreInbox(s: State)
      modifies this`inboxChain, this`inboxCursor, this`requestCursor, this`inbox
      ensures Abs() == old(Abs()).(inboxChain := s.inboxChain, inboxCursor := s.inboxCursor,
                                   requestCursor := s.requestCursor, inbox := s.inbox)
    {
      inboxChain, inboxCursor := s.inboxChain, s.inboxCursor;
      requestCursor, inbox := s.requestCursor, s.inbox;
    }

    method RestoreSettled(s: State)
      modifies this`stateRoot, this`settledInboxChain, this`settledInboxCursor, this`pendingWithdrawals
      ensures Abs() == old(Abs()).(stateRoot := s.stateRoot, settledInboxChain := s.settledInboxChain,
                                   settledInboxCursor := s.settledInboxCursor,
                                   pendingWithdrawals := s.pendingWithdrawals)
    {
      stateRoot, pendingWithdrawals := s.stateRoot, s.pendingWithdrawals;
      settledInboxChain, settledInboxCursor := s.settledInboxChain, s.settledInboxCursor;
    }

    /** Put every global, box and balance back as a failed call found them. */
    method Rollback(s: State)
      modifies this
      ensures Abs() == s && history == old(history)
    {
      RestoreBatch(s);
      RestoreEscape(s);
      RestoreInbox(s);
      RestoreSettled(s);
      exits, balance, sent := s.exits, s.balance, s.sent;
    }

    /** The calls that release a box or record an exit. */
    method DispatchRelease(call: Call) returns (ok: bool)
      requires call.action.DoReclaimDeposit? || call.action.DoPruneDeposit? || call.action.DoPruneRequest?
               || call.action.DoForceExit?
      modifies this`inbox, this`exits, this`balance, this`sent
      ensures Does(ok, Act(p, old(Abs()), call), Abs())
    {
      hide Does, ReclaimDeposit, PruneDeposit, PruneRequest, ForceExit;
      match call.action {
        case DoReclaimDeposit(index, receiverBalance) => ok := Reclaim(index, receiverBalance);
        case DoPruneDeposit(index, receiverBalance) => ok := Prune(DepositKind, index, receiverBalance);
        case DoPruneRequest(index, receiverBalance) => ok := Prune(RequestKind, index, receiverBalance);
        case DoForceExit(claim, receiverBalance) => ok := Exit(claim, receiverBalance);
      }
    }

    method Dispatch(call: Call) returns (ok: bool)
      modifies this
      ensures history == old(history)
      ensures Does(ok, Act(p, old(Abs()), call), Abs())
    {
      hide Does, AcceptDeposit, RequestWithdrawal, OpenBatch, AccumulateChunk, SettleBatch, PayWithdrawal, SignalEscape,
        ExecuteEscape, SecurityCouncilEscape, AbandonBatch, ReclaimDeposit, PruneDeposit, PruneRequest, ForceExit,
          Exposed;
      var env := call.env;
      match call.action {
        case Donate(amount) =>
          balance := balance + amount;
          ok := true;
          Donated(old(Abs()), amount);
        case DoDeposit(payment, recipient) =>
          var index := Deposit(env, payment, recipient);
          ok := index.Some?;
        case DoRequest(payment, nonce, address, to, scheme, pubKey, signature) =>
          var index := Request(env, payment, nonce, address, to, scheme, pubKey, signature);
          ok := index.Some?;
        case DoOpenBatch(length, target) => ok := Open(env, length, target);
        case DoAccumulateChunk(chunk) => ok := Accumulate(env, chunk);
        case DoVerifyBatch(evidence) =>
          var exposed := Exposed(p, evidence);
          if exposed.Ok? {
            ok := VerifyBatch(env, exposed.value);
          } else {
            ok := false;
            Refused(Abs());
          }
        case DoPayWithdrawal(payee, sum, tail, receiverBalance) =>
          ok := PayNext(env, payee, sum, tail, receiverBalance);
        case DoSignalEscape => ok := Signal(env);
        case DoExecuteEscape => ok := Execute(env);
        case DoCouncilEscape => ok := CouncilEscape(env);
        case DoAbandonBatch => ok := Abandon(env);
        case _ => ok := DispatchRelease(call);
      }
    }

    lemma Donated(s: State, amount: nat)
      ensures Does(true, Some(s.(balance := s.balance + amount)), s.(balance := s.balance + amount))
    {
    }

    lemma Refused(s: State)
      ensures Does(false, None, s)
    {
    }

    /** One application call as the network runs it: all of it happens or none of it does. */
    method Apply(call: Call) returns (ok: bool)
      requires Inv(p, Now()) && call.env.round >= history.round
      modifies this
      ensures Inv(p, Now())
      ensures ok <==> Step(p, old(Now()), call).Some?
      ensures Now() == if ok then Step(p, old(Now()), call).value else old(Now())
    {
      hide Inv, Act, Note;
      ghost var before := Now();
      var snapshot := Abs();
      ok := Dispatch(call);
      if ok {
        history := Note(p, snapshot, history, call);
        Guarantees.StepKeeps(p, before, call);
      } else {
        Rollback(snapshot);
      }
    }
  }
}
