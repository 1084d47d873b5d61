/** What becomes of an escape once its deadline has passed. */
module DueEscapes {
  import opened Types
  import opened Settlement
  import opened Runs
  import opened Invariants
  import opened Guarantees

  /** Anybody may execute the escape at this round. */
  predicate Due(s: State, round: u64) {
    !s.escaped && s.accusation.deadline.Some? && round > s.accusation.deadline.value
  }

  /** The rollup has escaped, or may be made to at this round. */
  predicate Over(s: State, round: u64) {
    s.escaped || Due(s, round)
  }

  /** A payout by the sequencer that completes a tranche, and whose window reaches its own round. */
  predicate Reopens(p: Deployment, s: State, call: Call) {
    && call.action.DoPayWithdrawal? && call.env.sender == p.creator
    && s.accusation.deadline.Some? && s.accusation.progress.Some?
    && s.accusation.progress.value + 1 >= ESCAPE_PROGRESS_TRANCHE
    && s.accusation.deadline.value + p.escapeGrace >= call.env.round
  }

  lemma DueIsExecutable(p: Deployment, s: State, env: Env)
    ensures Due(s, env.round) <==> ExecuteEscape(p, s, env).Some?
  {
  }

  lemma AccountsMoveBySettling(p: Deployment, s: State, h: History, call: Call)
    requires !call.action.DoVerifyBatch?
    ensures Note(p, s, h, call).accounts == h.accounts
  {
    hide NextBoxCost;
  }

  /**
   * Of all the calls anybody could make once an escape is due, only three kinds leave it not due: the
   * two that carry it out, and a payout by the sequencer that reopens it. None of them settles.
   */
  lemma DueStep(p: Deployment, w: World, call: Call)
    requires Inv(p, w) && ExecuteEscape(p, w.s, call.env).Some? && Step(p, w, call).Some?
    ensures var next := Step(p, w, call).value;
            && (ExecuteEscape(p, next.s, call.env).None? <==>
                  call.action.DoExecuteEscape? || call.action.DoCouncilEscape? || Reopens(p, w.s, call))
            && (Reopens(p, w.s, call) <==> !Over(next.s, call.env.round))
            && !call.action.DoVerifyBatch?
            && next.s.stateRoot == w.s.stateRoot && next.s.settledInboxCursor == w.s.settledInboxCursor
            && next.h.accounts == w.h.accounts
  {
    hide Inv, Act, Note;
    WatchedProgress(p, w);
    if call.action.DoVerifyBatch? {
      DueRefusesSettlement(p, w.s, call);
    }
    AccountsMoveBySettling(p, w.s, w.h, call);
    if call.action.DoPayWithdrawal? {
      PayoutMoves(p, w.s, call);
    } else {
      RestLeaveIt(p, w.s, call);
    }
  }

  lemma DueRefusesSettlement(p: Deployment, s: State, call: Call)
    requires ExecuteEscape(p, s, call.env).Some? && call.action.DoVerifyBatch?
    ensures Act(p, s, call).None?
  {
    hide Exposed;
  }

  /** A payout moves the deadline if the sequencer makes it and it completes a tranche. */
  lemma PayoutMoves(p: Deployment, s: State, call: Call)
    requires call.action.DoPayWithdrawal? && Act(p, s, call).Some?
    requires s.accusation.deadline.Some? && s.accusation.progress.Some?
    ensures var s1 := Act(p, s, call).value;
            && s1.escaped == s.escaped && s1.stateRoot == s.stateRoot && s1.settledInboxCursor == s.settledInboxCursor
            && s1.accusation.deadline.Some?
            && s1.accusation.deadline.value == s.accusation.deadline.value
                 + if call.env.sender == p.creator && s.accusation.progress.value + 1 >= ESCAPE_PROGRESS_TRANCHE
                   then p.escapeGrace else 0
  {
    hide MinBalance, CanReceive;
  }

  /** No other call that succeeds on an accused rollup touches the deadline, except to freeze it. */
  lemma RestLeaveIt(p: Deployment, s: State, call: Call)
    requires !call.action.DoPayWithdrawal? && !call.action.DoVerifyBatch?
    requires s.accusation.deadline.Some? && !s.escaped && Act(p, s, call).Some?
    ensures var s1 := Act(p, s, call).value;
            && s1.stateRoot == s.stateRoot && s1.settledInboxCursor == s.settledInboxCursor
            && (if call.action.DoExecuteEscape? || call.action.DoCouncilEscape? then s1.escaped
                else !s1.escaped && s1.accusation == s.accusation)
  {
    hide Exits, RequestMessage, NextBoxCost, MinBalance, CanReceive;
  }

  /** Every state along a run, from the next call on, is over at the round it is reached. */
  predicate StaysOver(p: Deployment, w: World, calls: seq<Call>)
    decreases |calls|
  {
    calls == []
    || match Step(p, w, calls[0])
       case None => StaysOver(p, w, calls[1..])
       case Some(next) => Over(next.s, calls[0].env.round) && StaysOver(p, next, calls[1..])
  }

  /** Some call that succeeds along a run reopens an escape that had come due. */
  predicate IsReopened(p: Deployment, w: World, calls: seq<Call>)
    decreases |calls|
  {
    calls != []
    && match Step(p, w, calls[0])
       case None => IsReopened(p, w, calls[1..])
       case Some(next) => Reopens(p, w.s, calls[0]) || IsReopened(p, next, calls[1..])
  }

  lemma OverStep(p: Deployment, w: World, call: Call)
    requires Inv(p, w) && Over(w.s, w.h.round) && Step(p, w, call).Some?
    ensures var next := Step(p, w, call).value;
            && (Reopens(p, w.s, call) <==> !Over(next.s, call.env.round))
            && next.s.stateRoot == w.s.stateRoot && next.s.settledInboxCursor == w.s.settledInboxCursor
            && next.h.accounts == w.h.accounts
  {
    hide Inv, Act, Note;
    if w.s.escaped {
      StepStaysFrozen(p, w, call);
      EscapedHasNoBatch(p, w);
    } else {
      DueIsExecutable(p, w.s, call.env);
      DueStep(p, w, call);
    }
  }

  lemma StepRound(p: Deployment, w: World, call: Call)
    requires Step(p, w, call).Some?
    ensures Step(p, w, call).value.h.round == call.env.round
  {
    hide Act, NoteSettlement, NoteCredit, NextBoxCost;
    if call.action.DoVerifyBatch? {
      NoteSettlementRound(w.s, w.h.(round := call.env.round), call.action.evidence.batchBytes);
    }
    NoteCreditRound(w.s);
  }

  lemma NoteSettlementRound(s: State, h: History, bytes: seq<byte>)
    ensures NoteSettlement(s, h, bytes).round == h.round
  {
  }

  lemma NoteCreditRound(s: State)
    ensures forall h: History, n: nat :: NoteCredit(s, h, n).round == h.round
  {
  }

  /**
   * An escape that has come due stays due until it is carried out, throughout a run, if and only if no
   * payout by the sequencer reopens it along the way; and while it does, nothing settles.
   */
  lemma {:induction false} DueUntilReopened(p: Deployment, w: World, calls: seq<Call>)
    requires Inv(p, w) && Over(w.s, w.h.round)
    ensures StaysOver(p, w, calls) <==> !IsReopened(p, w, calls)
    ensures StaysOver(p, w, calls) ==>
              var end := RunCalls(p, w, calls);
              && Over(end.s, end.h.round)
              && end.s.stateRoot == w.s.stateRoot && end.s.settledInboxCursor == w.s.settledInboxCursor
              && end.h.accounts == w.h.accounts
    decreases |calls|
  {
    hide Inv, Step, Over, Reopens;
    if calls != [] {
      match Step(p, w, calls[0]) {
        case None => DueUntilReopened(p, w, calls[1..]);
        case Some(next) =>
          OverStep(p, w, calls[0]);
          StepKeeps(p, w, calls[0]);
          StepRound(p, w, calls[0]);
          if !Reopens(p, w.s, calls[0]) {
            DueUntilReopened(p, next, calls[1..]);
          }
      }
    }
  }
}
