/** The whole path: a block built from the ledger, posted, proved and settled. */
module EndToEnd {
  import opened Types
  import opened MerkleTree
  import opened Transactions
  import opened Chains
  import opened Replay
  import opened Ledgers
  import opened Execution
  import opened Settlement
  import opened Runs
  import opened Invariants
  import opened SettlementStep
  import opened Guarantees
  import BatchCodec
  import Semantics

  lemma {:induction false} RunCallsConcat(p: Deployment, w: World, xs: seq<Call>, ys: seq<Call>)
    ensures RunCalls(p, w, xs + ys) == RunCalls(p, RunCalls(p, w, xs), ys)
    decreases |xs|
  {
    hide Step;
    if xs == [] {
      assert xs + ys == ys;
    } else {
      assert (xs + ys)[1..] == xs[1..] + ys;
      match Step(p, w, xs[0]) {
        case None => RunCallsConcat(p, w, xs[1..], ys);
        case Some(next) => RunCallsConcat(p, next, xs[1..], ys);
      }
    }
  }

  function PostCalls(env: Env, chunks: seq<seq<byte>>): seq<Call> {
    if chunks == [] then [] else [Call(env, DoAccumulateChunk(chunks[0]))] + PostCalls(env, chunks[1..])
  }

  /** w with more of its open batch posted. */
  ghost predicate Posted(v: World, w: World, env: Env, chunks: seq<seq<byte>>) {
    && w.s == v.s.(posting := w.s.posting)
    && w.s.posting.batchLength == v.s.posting.batchLength
    && w.s.posting.sealedInboxChain == v.s.posting.sealedInboxChain
    && w.s.posting.sealedInboxCursor == v.s.posting.sealedInboxCursor
    && w.h == v.h.(posted := v.h.posted + chunks, round := env.round)
  }

  /** Chunks of the sizes their positions allow are all taken. */
  lemma {:induction false} ChunksAreTaken(p: Deployment, w: World, env: Env, chunks: seq<seq<byte>>)
    requires Inv(p, w) && env.sender == p.creator && env.round == w.h.round
    requires w.s.posting.batchLength.Some? && w.s.posting.postedLength.Some?
    requires PostsInto(chunks, w.s.posting.postedLength.value, w.s.posting.batchLength.value)
    ensures Inv(p, RunCalls(p, w, PostCalls(env, chunks)))
    ensures Posted(w, RunCalls(p, w, PostCalls(env, chunks)), env, chunks)
    decreases |chunks|
  {
    hide Inv, ExpectedChunk;
    if chunks == [] {
      assert w.h.posted + [] == w.h.posted;
    } else {
      AccumulatorPresent(p, w);
      var call := Call(env, DoAccumulateChunk(chunks[0]));
      assert Step(p, w, call).Some?;
      var next := Step(p, w, call).value;
      StepKeeps(p, w, call);
      ChunksAreTaken(p, next, env, chunks[1..]);
      assert (w.h.posted + [chunks[0]]) + chunks[1..] == w.h.posted + chunks;
      assert PostCalls(env, chunks)[1..] == PostCalls(env, chunks[1..]);
    }
  }

  lemma AccumulatorPresent(p: Deployment, w: World)
    requires Inv(p, w) && w.s.posting.batchLength.Some?
    ensures w.s.posting.chunkAccumulator.Some?
  {
    hide InboxOk, BoxesOk, LedgerOk, PayoutOk, WatchOk, SettledOk, RefundsOk, ExitsOk, Solvent, ChainAt, FoldChunks,
      Concat,
      PostsInto;
  }

  /** A contract ready for its next batch, and a call from its sequencer no later than any deadline. */
  ghost predicate Ready(p: Deployment, w: World, env: Env, target: u64) {
    && env.sender == p.creator
    && env.round >= w.h.round
    && !w.s.escaped
    && w.s.posting.batchLength.None?
    && w.h.owed == []
    && w.s.settledInboxCursor <= target <= |w.h.items|
    && target <= w.s.inboxCursor
    && (w.s.accusation.deadline.Some? ==> env.round <= w.s.accusation.deadline.value)
    && (w.s.accusation.inboxTarget.Some? && target < w.s.accusation.inboxTarget.value ==>
          CreditEscapeProgress(p, w.s, target - w.s.settledInboxCursor).Some?)
  }

  /** The calls that post and settle a block. */
  function SettleCalls(env: Env, target: u64, e: Evidence): seq<Call>
    requires |e.batchBytes| <= MAX_U64
  {
    [Call(env, DoOpenBatch(|e.batchBytes|, target))]
    + PostCalls(env, Chunks(e.batchBytes))
    + [Call(env, DoVerifyBatch(e))]
  }

  ghost function EvidenceFor(p: Deployment, b: Block): Evidence {
    Evidence(p.domain, b.priorRoot, b.priorInboxChain, BatchBytes(b), SidecarBytes(p.wire, b))
  }

  lemma OpenStep(p: Deployment, w: World, env: Env, target: u64, length: u64)
    requires Inv(p, w) && Ready(p, w, env, target)
    ensures Step(p, w, Call(env, DoOpenBatch(length, target))).Some?
    ensures var n := Step(p, w, Call(env, DoOpenBatch(length, target))).value;
            && Inv(p, n)
            && n.s == w.s.(posting := Posting(Some(BatchSeed(p.domain, length)), Some(length), Some(0),
                                              Some(ChainAt(w.h.items, target)), Some(target)))
            && n.h == w.h.(posted := [], round := env.round)
  {
    hide Inv, ChainAt;
    AnyPrefixSeals(p, w, env, length, target);
    StepKeeps(p, w, Call(env, DoOpenBatch(length, target)));
  }

  /** What a fully posted batch has accumulated. */
  lemma FullyPosted(p: Deployment, w: World, bytes: seq<byte>)
    requires Inv(p, w) && w.s.posting.batchLength == Some(|bytes|) && w.h.posted == Chunks(bytes)
    ensures w.s.posting.chunkAccumulator == Some(BatchCommitment(p.domain, bytes))
    ensures w.s.posting.postedLength == w.s.posting.batchLength
  {
    hide InboxOk, BoxesOk, LedgerOk, PayoutOk, WatchOk, SettledOk, RefundsOk, ExitsOk, Solvent, ChainAt, FoldChunks,
      Concat,
      PostsInto;
    ChunksConcat(bytes);
  }

  /** What settling up to sealed makes of an accusation: cleared at its target, else credited. */
  function AccusationAfter(p: Deployment, s: State, sealed: u64): Accusation {
    var answered := Answered(p, s.(settledInboxCursor := sealed), s.settledInboxCursor);
    if answered.Some? then answered.value.accusation else s.accusation
  }

  lemma SettleState(p: Deployment, s: State, env: Env, v: PublicValues)
    requires Settles(p, s, env, v) && s.posting.sealedInboxChain.Some?
    requires s.accusation.inboxTarget.Some? && s.posting.sealedInboxCursor.value < s.accusation.inboxTarget.value ==>
               s.posting.sealedInboxCursor.value >= s.settledInboxCursor
               && CreditEscapeProgress(p, s, s.posting.sealedInboxCursor.value - s.settledInboxCursor).Some?
    ensures SettleBatch(p, s, env, v).Some?
    ensures var n := SettleBatch(p, s, env, v).value;
            && n.stateRoot == v.newRoot
            && n.settledInboxCursor == s.posting.sealedInboxCursor.value
            && n.settledInboxChain == v.newInboxChain
            && n.posting == NO_POSTING
            && n.escaped == s.escaped
            && n.accusation == AccusationAfter(p, s, s.posting.sealedInboxCursor.value)
  {
  }

  lemma SettleStep(p: Deployment, w: World, env: Env, e: Evidence, v: PublicValues)
    requires Inv(p, w) && env.round >= w.h.round && Exposed(p, e) == Ok(v) && Settles(p, w.s, env, v)
    requires w.s.accusation.inboxTarget.Some?
             && w.s.posting.sealedInboxCursor.value < w.s.accusation.inboxTarget.value ==>
               w.s.posting.sealedInboxCursor.value >= w.s.settledInboxCursor
               && CreditEscapeProgress(p, w.s, w.s.posting.sealedInboxCursor.value - w.s.settledInboxCursor).Some?
    ensures Step(p, w, Call(env, DoVerifyBatch(e))).Some?
    ensures var n := Step(p, w, Call(env, DoVerifyBatch(e))).value;
            && Inv(p, n)
            && n.s.stateRoot == v.newRoot
            && n.s.settledInboxCursor == w.s.posting.sealedInboxCursor.value
            && n.s.settledInboxChain == v.newInboxChain
            && n.s.posting == NO_POSTING
            && BatchCodec.DecodeBatch(e.batchBytes).Ok?
            && Semantics.Run(w.h.accounts, BatchCodec.DecodeBatch(e.batchBytes).value.txns).Some?
            && n.h.owed == Semantics.Run(w.h.accounts, BatchCodec.DecodeBatch(e.batchBytes).value.txns).value.payouts
            && n.h.paid == []
            && n.h.round == env.round
            && n.s.escaped == w.s.escaped
            && n.s.accusation == AccusationAfter(p, w.s, w.s.posting.sealedInboxCursor.value)
  {
    hide Inv, Exposed, NoteSettlement, BatchCodec.DecodeBatch, Semantics.Run, SettleBatch, AccusationAfter;
    SettleState(p, w.s, env, v);
    StepKeeps(p, w, Call(env, DoVerifyBatch(e)));
    SettlementIsExact(p, w.s, w.h, env, v, e);
    SettlementOwes(p, w.s, w.h.(round := env.round), e.batchBytes);
  }

  lemma SettlementOwes(p: Deployment, s: State, h: History, bytes: seq<byte>)
    requires BatchCodec.DecodeBatch(bytes).Ok?
    requires Semantics.Run(h.accounts, BatchCodec.DecodeBatch(bytes).value.txns).Some?
    ensures NoteSettlement(s, h, bytes).owed
         == Semantics.Run(h.accounts, BatchCodec.DecodeBatch(bytes).value.txns).value.payouts
    ensures NoteSettlement(s, h, bytes).paid == []
    ensures NoteSettlement(s, h, bytes).round == h.round
  {
    hide BatchCodec.DecodeBatch, Semantics.Run;
  }

  /**
   * The whole path works. Take any state a run can reach in which the contract is ready, and any
   * signed list of transactions valid on the settled ledger whose inbox items are the next stretch
   * of the inbox. Build the block, post its bytes in the canonical cut, and offer the proof of
   * them: every call is accepted, and the contract lands on the ledger's own new root, having
   * consumed exactly that stretch and owing exactly the block's payouts.
   */
  lemma HonestSequencerSettles(p: Deployment, w: World, env: Env, target: u64, txns: seq<Transaction>,
                               sigs: seq<Signature>)
    requires Inv(p, w) && Ready(p, w, env, target)
    requires WellFormed(txns, sigs) && Signed(p.crypto, p.domain, w.h.accounts, txns, sigs)
    requires Semantics.Run(w.h.accounts, txns).Some?
    requires ItemsOf(txns) == w.h.items[w.s.settledInboxCursor..target]
    requires forall e :: e in HonestEntries(w.h.accounts, txns, sigs) ==> Distinguishes(p.wire, DigestsOf(e))
    requires |BatchBytes(BlockOf(p.domain, w.h.accounts, w.s.settledInboxChain, txns, sigs))| <= MAX_U64
    ensures var b := BlockOf(p.domain, w.h.accounts, w.s.settledInboxChain, txns, sigs);
            var end := RunCalls(p, w, SettleCalls(env, target, EvidenceFor(p, b)));
            && Inv(p, end)
            && end.s.stateRoot == b.newRoot
            && end.s.settledInboxCursor == target
            && end.s.settledInboxChain == b.newInboxChain
            && end.s.posting == NO_POSTING
            && end.h.accounts == Semantics.Run(w.h.accounts, txns).value.accounts
            && end.h.owed == Semantics.Run(w.h.accounts, txns).value.payouts
            && end.h.paid == []
            && end.h.round == env.round
            && end.s.accusation == AccusationAfter(p, w.s, target)
            && end.s.escaped == w.s.escaped
  {
    hide BatchCodec.EncodeBatch, BatchCodec.DecodeBatch;
    hide Inv, Root, Signed, Semantics.Run, HonestEntries, Distinguishes, DigestsOf, BatchBytes, SidecarBytes, Step,
      ChainAt,
      Execute, BatchCommitment, CreditEscapeProgress, FoldInbox, WithdrawalChain, ItemsOf, Chunks, PostsInto,
      AccusationAfter;
    var b := BlockOf(p.domain, w.h.accounts, w.s.settledInboxChain, txns, sigs);
    var e := EvidenceFor(p, b);
    var open, post, settle := [Call(env, DoOpenBatch(|e.batchBytes|, target))], PostCalls(env, Chunks(e.batchBytes)),
      [Call(env, DoVerifyBatch(e))];
    BuiltBlocksExecute(p.crypto, p.wire, p.domain, w.h.accounts, w.s.settledInboxChain, txns, sigs);
    StateOf(p, w);
    ChainBetween(w.h.items, w.s.settledInboxCursor, target);

    OpenStep(p, w, env, target, |e.batchBytes|);
    var w1 := Step(p, w, open[0]).value;
    OneCall(p, w, open[0]);
    CanonicalCutPosts(e.batchBytes, 0);
    ChunksAreTaken(p, w1, env, Chunks(e.batchBytes));
    var w2 := RunCalls(p, w1, post);
    assert [] + Chunks(e.batchBytes) == Chunks(e.batchBytes);
    FullyPosted(p, w2, e.batchBytes);
    var v := Exposed(p, e).value;
    BatchCodec.BatchRoundTrip(b.batch);
    BytesOfBlock(b);
    CreditReadsClockOnly(p, w.s, w2.s, target - w.s.settledInboxCursor);
    SettleStep(p, w2, env, e, v);
    AccusationReadsClockOnly(p, w.s, w2.s, target);
    var end := Step(p, w2, settle[0]).value;
    OneCall(p, w2, settle[0]);
    StateOf(p, end);
    RootInjective(end.h.accounts, Semantics.Run(w.h.accounts, txns).value.accounts);

    RunCallsConcat(p, w, open, post);
    RunCallsConcat(p, w, open + post, settle);
  }

  lemma BytesOfBlock(b: Block)
    ensures BatchBytes(b) == BatchCodec.EncodeBatch(b.batch)
  {
    hide BatchCodec.EncodeBatch;
  }

  /**
   * One whole cycle. Settle a block as above, then let anybody, the sequencer included, offer the links
   * the block's builder kept. Every payout is then made, in order and once, nothing is owed and the
   * contract can open its next batch, if and only if the windows the payer's payouts would buy fit the
   * clock; for anybody but the sequencer, and for the sequencer while nothing accuses it, they do.
   */
  lemma HonestCycleCompletes(p: Deployment, w: World, env: Env, target: u64, txns: seq<Transaction>,
                             sigs: seq<Signature>,
                             payer: Env)
    requires Inv(p, w) && Ready(p, w, env, target)
    requires WellFormed(txns, sigs) && Signed(p.crypto, p.domain, w.h.accounts, txns, sigs)
    requires Semantics.Run(w.h.accounts, txns).Some?
    requires ItemsOf(txns) == w.h.items[w.s.settledInboxCursor..target]
    requires forall e :: e in HonestEntries(w.h.accounts, txns, sigs) ==> Distinguishes(p.wire, DigestsOf(e))
    requires |BatchBytes(BlockOf(p.domain, w.h.accounts, w.s.settledInboxChain, txns, sigs))| <= MAX_U64
    requires payer.round >= env.round
    ensures var b := BlockOf(p.domain, w.h.accounts, w.s.settledInboxChain, txns, sigs);
            var payouts := Semantics.Run(w.h.accounts, txns).value.payouts;
            var settle := SettleCalls(env, target, EvidenceFor(p, b));
            var clear := ClockAllows(p, RunCalls(p, w, settle).s.accusation, payer, |payouts|);
            var end := RunCalls(p, w, settle + PayLinks(payer, WithdrawalLinks(p.domain, payouts)));
            && Inv(p, end)
            && end.s.stateRoot == b.newRoot
            && (end.s.pendingWithdrawals.None? <==> clear)
            && (clear ==> end.h.owed == [] && end.h.paid == payouts)
            && (payer.sender != p.creator || RunCalls(p, w, settle).s.accusation.deadline.None? ==> clear)
  {
    hide Inv, Root, Signed, Semantics.Run, HonestEntries, Distinguishes, DigestsOf, BatchBytes, ItemsOf, SettleCalls,
      PayLinks, WithdrawalLinks, ClockAllows, Ready;
    var b := BlockOf(p.domain, w.h.accounts, w.s.settledInboxChain, txns, sigs);
    var payouts := Semantics.Run(w.h.accounts, txns).value.payouts;
    HonestSequencerSettles(p, w, env, target, txns, sigs);
    var mid := RunCalls(p, w, SettleCalls(env, target, EvidenceFor(p, b)));
    ClockIsClear(p, mid.s.accusation, payer, |payouts|);
    LinksDrain(p, mid, payer);
    LinksKeepRoot(p, mid, payer, WithdrawalLinks(p.domain, payouts));
    RunCallsConcat(p, w, SettleCalls(env, target, EvidenceFor(p, b)),
                   PayLinks(payer, WithdrawalLinks(p.domain, payouts)));
    assert [] + payouts == payouts;
  }

  lemma ClockIsClear(p: Deployment, a: Accusation, payer: Env, n: nat)
    ensures payer.sender != p.creator || a.deadline.None? ==> ClockAllows(p, a, payer, n)
  {
  }

  lemma {:induction false} LinksKeepRoot(p: Deployment, w: World, env: Env, links: seq<WithdrawalLink>)
    ensures RunCalls(p, w, PayLinks(env, links)).s.stateRoot == w.s.stateRoot
    decreases |links|
  {
    hide Pay, NoteSettlement;
    if links != [] {
      assert PayLinks(env, links)[1..] == PayLinks(env, links[1..]);
      var call := PayLink(env, links[0], 0);
      match Step(p, w, call) {
        case None => LinksKeepRoot(p, w, env, links[1..]);
        case Some(next) =>
          PaidRoot(p, w, call);
          LinksKeepRoot(p, next, env, links[1..]);
      }
    }
  }

  lemma PaidRoot(p: Deployment, w: World, call: Call)
    requires call.action.DoPayWithdrawal? && Step(p, w, call).Some?
    ensures Step(p, w, call).value.s.stateRoot == w.s.stateRoot
  {
  }

  lemma OneCall(p: Deployment, w: World, call: Call)
    requires Step(p, w, call).Some?
    ensures RunCalls(p, w, [call]) == Step(p, w, call).value
  {
    hide Step;
  }

  lemma CreditReadsClockOnly(p: Deployment, s: State, s1: State, n: nat)
    requires s.accusation == s1.accusation
    ensures CreditEscapeProgress(p, s, n).Some? <==> CreditEscapeProgress(p, s1, n).Some?
  {
  }

  lemma AccusationReadsClockOnly(p: Deployment, s: State, s1: State, sealed: u64)
    requires s.accusation == s1.accusation && s.settledInboxCursor == s1.settledInboxCursor
    ensures AccusationAfter(p, s, sealed) == AccusationAfter(p, s1, sealed)
  {
  }

  lemma StateOf(p: Deployment, w: World)
    requires Inv(p, w)
    ensures w.s.stateRoot == Root(w.h.accounts)
    ensures w.s.settledInboxCursor <= w.s.inboxCursor == |w.h.items|
    ensures w.s.settledInboxChain == ChainAt(w.h.items, w.s.settledInboxCursor)
  {
    hide BoxesOk, BatchOk, PayoutOk, WatchOk, SettledOk, RefundsOk, ExitsOk, Solvent, Root, Semantics.Run, ItemsOf;
  }
}
