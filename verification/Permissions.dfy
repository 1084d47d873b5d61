/** Who may do what, and when: each call's exact conditions, in terms of what has happened. */
module Permissions {
  import opened Types
  import opened MerkleTree
  import opened Chains
  import opened Replay
  import opened Execution
  import opened Settlement
  import opened Runs
  import opened Invariants
  import opened SettlementStep
  import opened Guarantees
  import BatchCodec
  import Semantics

  // ----- the sequencer's calls -----

  /** Crediting n obligations to an accusation stays within machine integers. */
  predicate CreditFits(p: Deployment, a: Accusation, n: nat) {
    a.deadline.Some? && a.progress.Some? ==>
      && a.progress.value + n <= MAX_U64
      && (a.progress.value + n >= 256 ==> a.deadline.value + p.escapeGrace <= MAX_U64)
  }

  lemma CreditSucceeds(p: Deployment, s: State, n: nat)
    requires s.accusation.deadline.Some? ==> s.accusation.progress.Some?
    ensures CreditEscapeProgress(p, s, n).Some? <==> CreditFits(p, s.accusation, n)
  {
  }

  /** A chunk is taken from the sequencer alone, and only at the size its place in the batch calls for. */
  lemma ChunksAreAccepted(p: Deployment, w: World, env: Env, chunk: seq<byte>)
    requires Inv(p, w)
    ensures AccumulateChunk(p, w.s, env, chunk).Some? <==>
            && env.sender == p.creator && w.s.posting.batchLength.Some?
            && var left := w.s.posting.batchLength.value - |Concat(w.h.posted)|;
              0 < left && |chunk| == if left < 4094 then left else 4094
  {
    hide InboxOk, BoxesOk, LedgerOk, PayoutOk, WatchOk, SettledOk, RefundsOk, ExitsOk, Solvent, SignedThroughout;
    hide ChainAt, FoldChunks, PostsInto, Concat;
    if w.s.posting.batchLength.Some? {
      PostedWithin(p, w);
    }
  }

  lemma PostedWithin(p: Deployment, w: World)
    requires Inv(p, w) && w.s.posting.batchLength.Some?
    ensures |Concat(w.h.posted)| <= w.s.posting.batchLength.value
  {
    hide InboxOk, BoxesOk, LedgerOk, PayoutOk, WatchOk, SettledOk, RefundsOk, ExitsOk, Solvent, SignedThroughout;
    hide ChainAt, FoldChunks, Concat;
    PostsWithin(w.h.posted, 0, w.s.posting.batchLength.value);
  }

  lemma {:induction false} PostsWithin(chunks: seq<seq<byte>>, posted: nat, length: nat)
    requires PostsInto(chunks, posted, length) && posted <= length
    ensures posted + |Concat(chunks)| <= length
    decreases |chunks|
  {
    if chunks != [] {
      PostsWithin(chunks[1..], posted + |chunks[0]|, length);
    }
  }

  /** The six words that settle the open batch: the ledger as settled, the bytes as posted, the sealed stretch. */
  ghost predicate WordsFit(p: Deployment, w: World, v: PublicValues)
    requires w.s.posting.sealedInboxCursor.Some? && w.s.posting.sealedInboxCursor.value <= |w.h.items|
    requires w.s.settledInboxCursor <= |w.h.items|
  {
    && v.priorRoot == Root(w.h.accounts)
    && v.batchCommitment == BatchCommitment(p.domain, Concat(w.h.posted))
    && v.priorInboxChain == ChainAt(w.h.items, w.s.settledInboxCursor)
    && v.newInboxChain == ChainAt(w.h.items, w.s.posting.sealedInboxCursor.value)
  }

  /** The sequencer's clock is still running, and has room for what settling up to sealed would credit. */
  predicate InTime(p: Deployment, s: State, round: u64, sealed: u64) {
    s.accusation.deadline.Some? ==>
      && round <= s.accusation.deadline.value
      && (s.accusation.inboxTarget.Some? && s.settledInboxCursor <= sealed < s.accusation.inboxTarget.value ==>
            CreditFits(p, s.accusation, sealed - s.settledInboxCursor))
  }

  /** What an open batch amounts to, in terms of what has been posted. */
  lemma OpenBatchMeans(p: Deployment, w: World)
    requires Inv(p, w) && w.s.posting.batchLength.Some?
    ensures !w.s.escaped && w.s.posting.sealedInboxCursor.Some?
    ensures w.s.settledInboxCursor <= w.s.posting.sealedInboxCursor.value <= |w.h.items|
    ensures w.s.posting.sealedInboxChain == Some(ChainAt(w.h.items, w.s.posting.sealedInboxCursor.value))
    ensures w.s.posting.postedLength.Some? && w.s.posting.postedLength.value == |Concat(w.h.posted)|
    ensures w.s.posting.postedLength == w.s.posting.batchLength ==>
              w.s.posting.chunkAccumulator == Some(BatchCommitment(p.domain, Concat(w.h.posted)))
  {
    hide InboxOk, BoxesOk, LedgerOk, PayoutOk, WatchOk, SettledOk, RefundsOk, ExitsOk, Solvent, SignedThroughout;
    hide ChainAt, FoldChunks, PostsInto, Concat;
    if w.s.posting.postedLength == w.s.posting.batchLength {
      PostedIsCanonicalCut(w.h.posted, 0, w.s.posting.batchLength.value);
    }
  }

  lemma SettledSide(p: Deployment, w: World)
    requires Inv(p, w)
    ensures w.s.settledInboxCursor <= |w.h.items|
    ensures w.s.stateRoot == Root(w.h.accounts)
    ensures w.s.settledInboxChain == ChainAt(w.h.items, w.s.settledInboxCursor)
    ensures w.s.accusation.deadline.Some? <==> w.s.accusation.inboxTarget.Some?
    ensures w.s.accusation.deadline.Some? ==> w.s.accusation.progress.Some?
  {
    hide BoxesOk, BatchOk, PayoutOk, SettledOk, RefundsOk, ExitsOk, Solvent, SignedThroughout, Root, Semantics.Run,
      ItemsOf, ChainAt;
  }

  /**
   * A batch settles from the sequencer alone, in time, once its declared length has been posted, and
   * only on words for the settled ledger, the posted bytes and the sealed stretch of the inbox.
   */
  lemma BatchesAreSettled(p: Deployment, w: World, env: Env, v: PublicValues)
    requires Inv(p, w)
    ensures w.s.settledInboxCursor <= |w.h.items|
    ensures w.s.posting.batchLength.Some? ==>
              && w.s.posting.sealedInboxCursor.Some? && w.s.posting.sealedInboxCursor.value <= |w.h.items|
    ensures SettleBatch(p, w.s, env, v).Some? <==>
            && env.sender == p.creator && w.s.posting.batchLength.Some?
            && |Concat(w.h.posted)| == w.s.posting.batchLength.value
            && WordsFit(p, w, v)
            && InTime(p, w.s, env.round, w.s.posting.sealedInboxCursor.value)
  {
    hide Inv, Root, ChainAt, Concat, BatchCommitment, CreditEscapeProgress, CreditFits;
    SettledSide(p, w);
    if w.s.posting.batchLength.Some? {
      OpenBatchMeans(p, w);
      if Settles(p, w.s, env, v) {
        var s1 := Advanced(p, w.s, v);
        CreditSucceeds(p, s1, s1.settledInboxCursor - w.s.settledInboxCursor);
      }
    }
  }

  /** What has been posted means a valid, signed batch that answers the sealed stretch of the inbox, item for item. */
  ghost predicate PostedIsGood(p: Deployment, w: World) {
    && BatchCodec.DecodeBatch(Concat(w.h.posted)).Ok?
    && w.s.posting.sealedInboxCursor.Some?
    && w.s.settledInboxCursor <= w.s.posting.sealedInboxCursor.value <= |w.h.items|
    && var txns := BatchCodec.DecodeBatch(Concat(w.h.posted)).value.txns;
      && ItemsOf(txns) == w.h.items[w.s.settledInboxCursor..w.s.posting.sealedInboxCursor.value]
      && Semantics.Run(w.h.accounts, txns).Some?
      && exists used :: SignedBy(p.crypto, p.domain, w.h.accounts, txns, used)
  }

  /** The wire tells apart the digests a proof of the posted batch would need. */
  ghost predicate PostedIsCarried(p: Deployment, w: World) {
    BatchCodec.DecodeBatch(Concat(w.h.posted)).Ok?
    && Semantics.Run(w.h.accounts, BatchCodec.DecodeBatch(Concat(w.h.posted)).value.txns).Some? ==>
      WireCarries(p.wire, w.h.accounts, BatchCodec.DecodeBatch(Concat(w.h.posted)).value.txns)
  }

  lemma SettledWasGood(p: Deployment, w: World, env: Env, e: Evidence)
    requires Inv(p, w) && Step(p, w, Call(env, DoVerifyBatch(e))).Some?
    ensures Exposed(p, e).Ok? && SettleBatch(p, w.s, env, Exposed(p, e).value).Some?
    ensures PostedIsGood(p, w)
  {
    hide Inv, Root, BatchCodec.DecodeBatch, Semantics.Run, Concat, ItemsOf, ValuesOf, SignedBy, Execute, Note,
      SignedThroughout, Answered, Advanced;
    var v := Exposed(p, e).value;
    SettlementIsExact(p, w.s, w.h, env, v, e);
    SettledSide(p, w);
    ExposedInputs(p, e);
    ExecutedIsSigned(p.crypto, p.wire, e.domain, w.h.accounts, e.anchor, e.batchBytes, e.sidecarBytes);
  }

  /** The values a proof of the posted batch exposes, from the private input that makes one. */
  lemma GoodIsProvable(p: Deployment, w: World) returns (e: Evidence)
    requires Inv(p, w) && PostedIsGood(p, w) && PostedIsCarried(p, w)
    ensures Exposed(p, e).Ok? && WordsFit(p, w, Exposed(p, e).value)
  {
    hide Inv, Root, BatchCodec.DecodeBatch, Semantics.Run, Concat, ItemsOf, SignedBy, Execute, SignedThroughout,
      WireCarries, ChainAt, FoldInbox, BatchCommitment, WithdrawalChain;
    var bytes, anchor := Concat(w.h.posted), w.s.settledInboxChain;
    SettledSide(p, w);
    ExecutionIsExact(p.crypto, p.wire, p.domain, w.h.accounts, anchor, bytes);
    var sidecar :| Execute(p.crypto, p.wire, p.domain, Root(w.h.accounts), anchor, bytes, sidecar).Ok?;
    e := Evidence(p.domain, Root(w.h.accounts), anchor, bytes, sidecar);
    ExecutionSoundness(p.crypto, p.wire, p.domain, w.h.accounts, anchor, bytes, sidecar);
    ChainBetween(w.h.items, w.s.settledInboxCursor, w.s.posting.sealedInboxCursor.value);
  }

  /**
   * What can be settled, with no proof in sight. There is evidence that settles the open batch exactly
   * when it is the sequencer that brings it, in time, with its whole declared length posted, and those
   * bytes mean transactions valid on the settled ledger, each spend signed for, whose inbox items are
   * the sealed stretch.
   */
  lemma GoodBatchesCanSettle(p: Deployment, w: World, env: Env)
    requires Inv(p, w) && w.h.round <= env.round && PostedIsCarried(p, w)
    ensures (exists e :: Step(p, w, Call(env, DoVerifyBatch(e))).Some?) <==>
            && env.sender == p.creator && w.s.posting.batchLength.Some?
            && |Concat(w.h.posted)| == w.s.posting.batchLength.value
            && PostedIsGood(p, w)
            && InTime(p, w.s, env.round, w.s.posting.sealedInboxCursor.value)
  {
    hide Inv, Concat, InTime, WordsFit, SettleBatch, PostedIsCarried, Exposed, Note;
    if exists e :: Step(p, w, Call(env, DoVerifyBatch(e))).Some? {
      var e :| Step(p, w, Call(env, DoVerifyBatch(e))).Some?;
      SettledWasGood(p, w, env, e);
      BatchesAreSettled(p, w, env, Exposed(p, e).value);
    }
    if PostedIsGood(p, w) {
      var e := GoodIsProvable(p, w);
      BatchesAreSettled(p, w, env, Exposed(p, e).value);
      assert SettleBatch(p, w.s, env, Exposed(p, e).value).Some? ==> Step(p, w, Call(env, DoVerifyBatch(e))).Some?;
    }
  }

  /** A payout is made exactly when it is the next one owed and, from the sequencer, its credit fits. */
  lemma PayoutsAreMade(p: Deployment, w: World, env: Env, payee: L1Address, sum: u64, tail: Digest,
                       receiverBalance: nat)
    requires Inv(p, w)
    ensures PayWithdrawal(p, w.s, env, payee, sum, tail, receiverBalance).Some? <==>
            && w.h.owed != [] && w.h.owed[0] == (payee, sum)
            && tail == WithdrawalChain(p.domain, w.h.owed[1..])
            && (env.sender == p.creator ==> CreditFits(p, w.s.accusation, 1))
  {
    hide Inv, WithdrawalChain, CreditEscapeProgress, CreditFits, PayWithdrawal;
    PayoutsNeverFallShort(p, w, env, payee, sum, tail, receiverBalance);
    PendingIsOwed(p, w);
    SettledSide(p, w);
    CreditSucceeds(p, w.s, 1);
  }

  /** Only the sequencer can drop the open batch. */
  lemma BatchesAreAbandoned(p: Deployment, s: State, env: Env)
    ensures AbandonBatch(p, s, env).Some? <==> env.sender == p.creator && s.posting.batchLength.Some?
    ensures AbandonBatch(p, s, env).Some? ==> AbandonBatch(p, s, env) == Some(s.(posting := NO_POSTING))
  {
  }

  /** What nobody but the sequencer can move: the root, the settled inbox, and the batch being posted. */
  ghost predicate SequencerOnly(s: State, s1: State) {
    && s1.stateRoot == s.stateRoot
    && s1.settledInboxCursor == s.settledInboxCursor
    && s1.settledInboxChain == s.settledInboxChain
    && (s1.posting == s.posting || s1.escaped)
    && (s.escaped ==> s1.escaped)
  }

  lemma OthersCannotSettle(p: Deployment, w: World, call: Call)
    requires Step(p, w, call).Some? && call.env.sender != p.creator
    ensures SequencerOnly(w.s, Step(p, w, call).value.s)
    ensures !call.action.DoVerifyBatch? && !call.action.DoOpenBatch?
    ensures !call.action.DoAccumulateChunk? && !call.action.DoAbandonBatch?
  {
    hide Exposed, Exits, RequestMessage, NextBoxCost, MinBalance, CanReceive, Note;
  }

  /** However long others call, without the sequencer nothing settles and its batch stays as it left it. */
  lemma {:induction false} NothingSettlesWithoutSequencer(p: Deployment, w: World, calls: seq<Call>)
    requires forall call :: call in calls ==> call.env.sender != p.creator
    ensures SequencerOnly(w.s, RunCalls(p, w, calls).s)
    decreases |calls|
  {
    hide Step;
    if calls != [] {
      match Step(p, w, calls[0]) {
        case None => NothingSettlesWithoutSequencer(p, w, calls[1..]);
        case Some(next) =>
          OthersCannotSettle(p, w, calls[0]);
          NothingSettlesWithoutSequencer(p, next, calls[1..]);
      }
    }
  }

  // ----- what freezes the rollup -----

  /** The council's own call, or anybody's once a live accusation's deadline is past. */
  predicate FreezesIt(p: Deployment, s: State, call: Call) {
    || (call.action.DoCouncilEscape? && call.env.sender == p.council)
    || (call.action.DoExecuteEscape? && s.accusation.deadline.Some?
        && call.env.round > s.accusation.deadline.value)
  }

  lemma EscapesHaveACause(p: Deployment, w: World, call: Call)
    requires Step(p, w, call).Some? && !w.s.escaped
    ensures Step(p, w, call).value.s.escaped <==> FreezesIt(p, w.s, call)
  {
    hide Exposed, Exits, RequestMessage, NextBoxCost, MinBalance, CanReceive, Note;
  }

  /** And the cause is always effective, whoever makes the second kind of call. */
  lemma CausesAreAccepted(p: Deployment, s: State, call: Call)
    requires !s.escaped && (call.action.DoCouncilEscape? || call.action.DoExecuteEscape?)
    ensures Act(p, s, call).Some? <==> FreezesIt(p, s, call)
  {
  }

  /** Some call that succeeds along a run freezes the rollup. */
  predicate IsFrozenIn(p: Deployment, w: World, calls: seq<Call>)
    decreases |calls|
  {
    calls != []
    && match Step(p, w, calls[0])
       case None => IsFrozenIn(p, w, calls[1..])
       case Some(next) => FreezesIt(p, w.s, calls[0]) || IsFrozenIn(p, next, calls[1..])
  }

  lemma StaysEscaped(p: Deployment, w: World, call: Call)
    requires Step(p, w, call).Some? && w.s.escaped
    ensures Step(p, w, call).value.s.escaped
  {
    hide Exposed, Exits, RequestMessage, NextBoxCost, MinBalance, CanReceive, Note;
  }

  lemma {:induction false} StillEscaped(p: Deployment, w: World, calls: seq<Call>)
    requires w.s.escaped
    ensures RunCalls(p, w, calls).s.escaped
    decreases |calls|
  {
    hide Step;
    if calls != [] {
      if Step(p, w, calls[0]).Some? {
        StaysEscaped(p, w, calls[0]);
        StillEscaped(p, Step(p, w, calls[0]).value, calls[1..]);
      } else {
        StillEscaped(p, w, calls[1..]);
      }
    }
  }

  /** A run ends escaped if and only if some call in it is one of the two causes. */
  lemma {:induction false} EscapedOnlyByCause(p: Deployment, w: World, calls: seq<Call>)
    requires !w.s.escaped
    ensures RunCalls(p, w, calls).s.escaped <==> IsFrozenIn(p, w, calls)
    decreases |calls|
  {
    hide Step, FreezesIt;
    if calls != [] {
      match Step(p, w, calls[0]) {
        case None => EscapedOnlyByCause(p, w, calls[1..]);
        case Some(next) =>
          EscapesHaveACause(p, w, calls[0]);
          if next.s.escaped {
            StillEscaped(p, next, calls[1..]);
          } else {
            EscapedOnlyByCause(p, next, calls[1..]);
          }
      }
    }
  }
}
