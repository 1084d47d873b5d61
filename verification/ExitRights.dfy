/** Whoever holds a balance when the rollup freezes can take it out, with a proof anyone can make. */
module ExitRights {
  import opened Types
  import opened Addresses
  import opened MerkleTree
  import opened MerkleProofs
  import opened Transactions
  import opened SidecarCodec
  import opened Replay
  import opened Execution
  import opened Settlement
  import opened Runs
  import opened Invariants
  import opened Preservation
  import opened Guarantees
  import Semantics

  /** A tree proves an account it holds at the account's own leaf. */
  lemma {:induction false} HolderProvesOwn(t: Tree, d: nat, a: Address)
    requires d <= DEPTH && Canonical(t, d) && Under(t, d, a) && a in Accounts(t)
    ensures Prove(t, d, a).slot == Own
  {
    hide BitAt, CommonPrefixLen;
    if t.Branch? {
      UnderChild(t, d, a);
      assert a in Accounts(t.left) ==> BitAt(a, d) == 0;
      assert a in Accounts(t.right) ==> BitAt(a, d) == 1;
      HolderProvesOwn(if BitAt(a, d) == 0 then t.left else t.right, d + 1, a);
    }
  }

  /** The contract reads back the siblings a proof was written with. */
  lemma {:induction false} SiblingsReadBack(wire: DigestWire, siblings: seq<Digest>)
    requires Distinguishes(wire, siblings)
    ensures |PutSiblings(wire, siblings)| == 32 * |siblings|
    ensures Words(wire, PutSiblings(wire, siblings)) == siblings
  {
    if siblings != [] {
      var bytes, rest := PutSiblings(wire, siblings), PutSiblings(wire, siblings[1..]);
      assert siblings == [siblings[0]] + siblings[1..];
      DistinguishesParts(wire, [siblings[0]], siblings[1..]);
      SiblingsReadBack(wire, siblings[1..]);
      assert bytes[..32] == wire.encode(siblings[0]) && bytes[32..] == rest;
    }
  }

  /** The claim a holder makes from the settled ledger, as Guarantees.RecordRebuildsLedger gives it to anybody. */
  ghost function ClaimFor(wire: DigestWire, m: Semantics.Ledger, a: Address, pubKey: seq<byte>, signature: seq<byte>,
                          recipient: L1Address): ExitClaim
    requires a in m
  {
    ExitClaim(a, m[a], Ed25519.Identifier(), pubKey, signature, recipient,
              PutSiblings(wire, Prove(TreeOf(m), 0, a).siblings))
  }

  lemma ClaimPathHolds(wire: DigestWire, m: Semantics.Ledger, a: Address)
    requires a in m && Distinguishes(wire, Prove(TreeOf(m), 0, a).siblings)
    ensures var bytes := PutSiblings(wire, Prove(TreeOf(m), 0, a).siblings);
            && |bytes| % 32 == 0 && |bytes| / 32 <= DEPTH
            && PathHash(a, 0, Words(wire, bytes), LeafHash(a, m[a])) == Root(m)
  {
    var t := TreeOf(m);
    HonestProofVerifies(m, a);
    HolderProvesOwn(t, 0, a);
    ProveReproduces(t, 0, a);
    SiblingsReadBack(wire, Prove(t, 0, a).siblings);
  }

  /**
   * After an escape every account still in the ledger, worth more than its record costs, gets out on
   * the strength of its key alone: the claim above is accepted for exactly that account, and it pays
   * the whole balance less the price of the record to any recipient that can receive it.
   */
  lemma EveryHolderCanExit(p: Deployment, w: World, a: Address, pubKey: seq<byte>, signature: seq<byte>,
                           recipient: L1Address, receiverBalance: nat)
    requires Inv(p, w) && w.s.escaped
    requires a in w.h.accounts && a !in w.s.exits && w.h.accounts[a].amount > p.exitBoxCost
    requires p.crypto.addressOf(Ed25519, pubKey) == a
    requires p.crypto.avmEd25519(ExitMessage(p, a, recipient), signature, pubKey)
    requires CanReceive(p, recipient, w.h.accounts[a].amount - p.exitBoxCost, receiverBalance)
    requires Distinguishes(p.wire, Prove(TreeOf(w.h.accounts), 0, a).siblings)
    ensures var e := ClaimFor(p.wire, w.h.accounts, a, pubKey, signature, recipient);
            && ForceExit(p, w.s, e, receiverBalance).Some?
            && ForceExit(p, w.s, e, receiverBalance).value.exits == w.s.exits[a := w.h.accounts[a].amount]
            && (recipient != p.app ==>
                  ForceExit(p, w.s, e, receiverBalance).value.balance
                  == w.s.balance - (w.h.accounts[a].amount - p.exitBoxCost))
  {
    hide Inv, Root, PathHash, Words, PutSiblings, Distinguishes, Prove, TreeOf, ExitMessage, MinBalance;
    OwnAuthority(p, w, a);
    ClaimPathHolds(p.wire, w.h.accounts, a);
    ExitsNeverFallShort(p, w, ClaimFor(p.wire, w.h.accounts, a, pubKey, signature, recipient), receiverBalance);
  }

  /** Every settled account's authority is its own address, and the root commits to it. */
  lemma OwnAuthority(p: Deployment, w: World, a: Address)
    requires Inv(p, w) && a in w.h.accounts
    ensures w.h.accounts[a].authAddress == a
    ensures w.s.stateRoot == Root(w.h.accounts)
  {
    hide InboxOk, BoxesOk, BatchOk, PayoutOk, WatchOk, SettledOk, RefundsOk, ExitsOk, Solvent, Root, Semantics.Run;
    Semantics.RunAccounts(map[], w.h.txns, a);
  }

  /**
   * The two ways out take the same keys. Whoever has a request accepted for a settled account holds the
   * key its leaf names, and whoever has an exit accepted holds the key a request would ask for.
   */
  lemma RequestAndExitKeysAgree(p: Deployment, w: World, env: Env, payment: GroupPayment, nonce: u64, a: Address,
                                to: L1Address, scheme: seq<byte>, pubKey: seq<byte>, signature: seq<byte>, e: ExitClaim)
    requires Inv(p, w)
    ensures RequestWithdrawal(p, w.s, env, payment, nonce, a, to, scheme, pubKey, signature).Some?
            && a in w.h.accounts ==>
              scheme == Ed25519.Identifier() && p.crypto.addressOf(Ed25519, pubKey) == w.h.accounts[a].authAddress
    ensures Exits(p, w.s, e) ==>
              && e.address in w.h.accounts && w.h.accounts[e.address] == e.account
              && e.scheme == Ed25519.Identifier() && p.crypto.addressOf(Ed25519, e.pubKey) == e.address
  {
    hide Inv, Root, PathHash, Words, RequestMessage, ExitMessage, Append, NextBoxCost;
    if a in w.h.accounts {
      OwnAuthority(p, w, a);
    }
    if Exits(p, w.s, e) {
      SettledRoot(p, w);
      ExitClaimIsTrue(p, w.s, w.h.accounts, e);
      OwnAuthority(p, w, e.address);
    }
  }

  lemma SettledRoot(p: Deployment, w: World)
    requires Inv(p, w)
    ensures w.s.stateRoot == Root(w.h.accounts)
  {
    hide InboxOk, BoxesOk, BatchOk, PayoutOk, WatchOk, SettledOk, RefundsOk, ExitsOk, Solvent, Root, Semantics.Run;
  }

  // ----- who gets out -----

  /** The key an account's address derives from has signed this recipient into an exit. */
  predicate SignedExit(p: Deployment, e: ExitClaim) {
    && e.scheme == Ed25519.Identifier()
    && p.crypto.addressOf(Ed25519, e.pubKey) == e.address
    && p.crypto.avmEd25519(ExitMessage(p, e.address, e.recipient), e.signature, e.pubKey)
  }

  /** The siblings are whole words, no more than one for each bit of an address, leading to the settled root. */
  ghost predicate PathLeadsTo(p: Deployment, m: Semantics.Ledger, e: ExitClaim) {
    && |e.siblings| % 32 == 0
    && |e.siblings| <= 32 * DEPTH
    && PathHash(e.address, 0, Words(p.wire, e.siblings), LeafHash(e.address, e.account)) == Root(m)
  }

  /**
   * After an escape, and only then, an exit is paid exactly when the account claimed is the settled one,
   * shown by its path, has not left already and is worth more than its record; its own key signed the
   * recipient; and that recipient can receive. It then leaves its balance on record, once.
   */
  lemma ExitsAreAccepted(p: Deployment, w: World, e: ExitClaim, receiverBalance: nat)
    requires Inv(p, w)
    ensures ForceExit(p, w.s, e, receiverBalance).Some? <==>
            && w.s.escaped && e.address !in w.s.exits
            && e.address in w.h.accounts && w.h.accounts[e.address] == e.account
            && SignedExit(p, e) && PathLeadsTo(p, w.h.accounts, e)
            && e.account.amount > p.exitBoxCost
            && CanReceive(p, e.recipient, e.account.amount - p.exitBoxCost, receiverBalance)
    ensures ForceExit(p, w.s, e, receiverBalance).Some? ==>
              ForceExit(p, w.s, e, receiverBalance).value
              == w.s.(exits := w.s.exits[e.address := e.account.amount],
                      sent := w.s.sent + [Transfer(e.recipient, e.account.amount - p.exitBoxCost)],
                      balance := if e.recipient == p.app then w.s.balance
                                 else w.s.balance - (e.account.amount - p.exitBoxCost))
  {
    hide Inv, Root, PathHash, Words, ExitMessage, MinBalance, CanReceive;
    ExitsNeverFallShort(p, w, e, receiverBalance);
    SettledRoot(p, w);
    if Exits(p, w.s, e) {
      ExitClaimIsTrue(p, w.s, w.h.accounts, e);
    }
    if e.address in w.h.accounts {
      OwnAuthority(p, w, e.address);
    }
  }

  /** Each exit on record was claimed, by the account's own key, for the balance it was given. */
  ghost predicate ClaimsOk(p: Deployment, s: State, h: History) {
    && |h.claims| == |h.exited|
    && s.exits.Keys == (set k | 0 <= k < |h.claims| :: h.claims[k].address)
    && forall k :: 0 <= k < |h.claims| ==>
         SignedExit(p, h.claims[k]) && h.exited[k] == (h.claims[k].address, h.claims[k].account.amount)
  }

  lemma StepClaims(p: Deployment, w: World, call: Call)
    requires Inv(p, w) && ClaimsOk(p, w.s, w.h) && Step(p, w, call).Some?
    ensures ClaimsOk(p, Step(p, w, call).value.s, Step(p, w, call).value.h)
  {
    hide Act, Note, Inv, SignedExit;
    if call.action.DoForceExit? {
      ExitIsClaimed(p, w, call);
      var e := call.action.claim;
      var keys := set k | 0 <= k < |w.h.claims| :: w.h.claims[k].address;
      var claims := w.h.claims + [e];
      assert claims[|w.h.claims|] == e;
      forall a | a in keys + {e.address}
        ensures exists k :: 0 <= k < |claims| && claims[k].address == a
      {
        if a != e.address {
          var k :| 0 <= k < |w.h.claims| && w.h.claims[k].address == a;
          assert claims[k].address == a;
        }
      }
      assert (set k | 0 <= k < |claims| :: claims[k].address) == keys + {e.address};
    } else {
      OthersClaimNothing(p, w.s, w.h, call);
    }
  }

  lemma ExitIsClaimed(p: Deployment, w: World, call: Call)
    requires Inv(p, w) && Step(p, w, call).Some? && call.action.DoForceExit?
    ensures var e, next := call.action.claim, Step(p, w, call).value;
            && SignedExit(p, e)
            && next.s.exits.Keys == w.s.exits.Keys + {e.address}
            && next.h.claims == w.h.claims + [e]
            && next.h.exited == w.h.exited + [(e.address, e.account.amount)]
  {
    hide Inv, Exits, ForceExit, SignedExit;
    ExitsAreAccepted(p, w, call.action.claim, call.action.receiverBalance);
  }

  lemma OthersClaimNothing(p: Deployment, s: State, h: History, call: Call)
    requires !call.action.DoForceExit? && Act(p, s, call).Some?
    ensures Act(p, s, call).value.exits == s.exits
    ensures Note(p, s, h, call).claims == h.claims && Note(p, s, h, call).exited == h.exited
  {
    hide Exposed, RequestMessage, MinBalance, CanReceive, NextBoxCost, NoteSettlement, CreditEscapeProgress, NoteCredit;
    CreditReadsNoExits(p);
    CreditNotesNoClaims(s);
    if call.action.DoVerifyBatch? {
      SettlingNotesNoClaims(s, h.(round := call.env.round), call.action.evidence.batchBytes);
    }
  }

  lemma CreditReadsNoExits(p: Deployment)
    ensures forall s: State, n: nat :: CreditEscapeProgress(p, s, n).Some? ==>
              CreditEscapeProgress(p, s, n).value.exits == s.exits
  {
  }

  lemma CreditNotesNoClaims(s: State)
    ensures forall h: History, n: nat ::
              NoteCredit(s, h, n).claims == h.claims && NoteCredit(s, h, n).exited == h.exited
  {
  }

  lemma SettlingNotesNoClaims(s: State, h: History, bytes: seq<byte>)
    ensures NoteSettlement(s, h, bytes).claims == h.claims && NoteSettlement(s, h, bytes).exited == h.exited
  {
  }

  lemma {:induction false} RunClaims(p: Deployment, w: World, calls: seq<Call>)
    requires Inv(p, w) && ClaimsOk(p, w.s, w.h)
    ensures ClaimsOk(p, RunCalls(p, w, calls).s, RunCalls(p, w, calls).h)
    decreases |calls|
  {
    hide Step, Inv, ClaimsOk;
    if calls != [] {
      match Step(p, w, calls[0]) {
        case None => RunClaims(p, w, calls[1..]);
        case Some(next) =>
          StepKeeps(p, w, calls[0]);
          StepClaims(p, w, calls[0]);
          RunClaims(p, next, calls[1..]);
      }
    }
  }

  /** In every run whoever has left signed for it: nobody's balance goes anywhere its key did not send it. */
  lemma ExitsWereSigned(p: Deployment, balance: nat, calls: seq<Call>)
    requires balance >= p.baseMinBalance
    ensures var w := Reached(p, balance, calls);
            && |w.h.claims| == |w.h.exited|
            && (forall k :: 0 <= k < |w.h.exited| ==>
                  SignedExit(p, w.h.claims[k])
                  && w.h.exited[k] == (w.h.claims[k].address, w.h.claims[k].account.amount))
            && (forall a :: a in w.s.exits ==>
                  exists k :: 0 <= k < |w.h.claims| && w.h.claims[k].address == a && SignedExit(p, w.h.claims[k]))
  {
    hide Inv, RunCalls, SignedExit;
    StartHolds(p, balance);
    StartClaims(p, balance);
    RunClaims(p, Start(balance), calls);
    var w := Reached(p, balance, calls);
    forall a | a in w.s.exits
      ensures exists k :: 0 <= k < |w.h.claims| && w.h.claims[k].address == a && SignedExit(p, w.h.claims[k])
    {
      assert a in (set k | 0 <= k < |w.h.claims| :: w.h.claims[k].address);
    }
  }

  lemma StartClaims(p: Deployment, balance: nat)
    ensures ClaimsOk(p, Start(balance).s, Start(balance).h)
  {
  }

  // ----- getting as far as an escape -----

  /** The calls by which anybody leaves: accuse, carry the escape out, and exit. */
  function Leaving(signal: Env, escape: Env, exit: Env, e: ExitClaim, receiverBalance: nat): seq<Call> {
    [Call(signal, DoSignalEscape), Call(escape, DoExecuteEscape), Call(exit, DoForceExit(e, receiverBalance))]
  }

  /** The sequencer has left an entry stale, and the three rounds come after the timeouts they wait for. */
  ghost predicate Abandoned(p: Deployment, w: World, signal: u64, escape: u64, exit: u64) {
    && !w.s.escaped && w.s.accusation.deadline.None? && w.s.settledInboxCursor < w.s.inboxCursor
    && w.s.settledInboxCursor in w.s.inbox
    && w.h.round <= signal
    && w.s.inbox[w.s.settledInboxCursor].round + p.inboxTimeout < signal
    && signal + p.escapeGrace < escape <= exit
  }

  lemma SignalWorks(p: Deployment, w: World, signal: Env, escape: u64, exit: u64)
    requires Inv(p, w) && Abandoned(p, w, signal.round, escape, exit)
    ensures Step(p, w, Call(signal, DoSignalEscape)).Some?
    ensures var n := Step(p, w, Call(signal, DoSignalEscape)).value;
            && Inv(p, n)
            && n.s == w.s.(accusation := n.s.accusation)
            && n.s.accusation.deadline.Some? && n.s.accusation.deadline.value == signal.round + p.escapeGrace
            && n.h.accounts == w.h.accounts && n.h.round == signal.round
  {
    hide Inv;
    assert Step(p, w, Call(signal, DoSignalEscape)).Some?;
    StepKeeps(p, w, Call(signal, DoSignalEscape));
  }

  lemma EscapeWorks(p: Deployment, w: World, escape: Env)
    requires Inv(p, w) && !w.s.escaped && w.s.accusation.deadline.Some? && w.h.round <= escape.round
    requires w.s.accusation.deadline.value < escape.round
    ensures Step(p, w, Call(escape, DoExecuteEscape)).Some?
    ensures var n := Step(p, w, Call(escape, DoExecuteEscape)).value;
            && Inv(p, n)
            && n.s.escaped && n.s.exits == w.s.exits && n.s.balance == w.s.balance
            && n.h.accounts == w.h.accounts && n.h.round == escape.round
  {
    hide Inv;
    assert Step(p, w, Call(escape, DoExecuteEscape)).Some?;
    StepKeeps(p, w, Call(escape, DoExecuteEscape));
  }

  lemma NobodyHasLeft(p: Deployment, w: World)
    requires Inv(p, w) && !w.s.escaped
    ensures w.s.exits == map[]
    ensures w.s.settledInboxCursor < w.s.inboxCursor ==> w.s.settledInboxCursor in w.s.inbox
  {
    hide InboxOk, BatchOk, LedgerOk, PayoutOk, WatchOk, SettledOk, RefundsOk, Solvent, SignedThroughout, ChainAt,
      RecordsItem;
  }

  /**
   * Nobody needs the sequencer to get out. From any state of a run in which it has left an entry stale,
   * three calls by anybody, at rounds past the two timeouts, all succeed: an accusation, the escape,
   * and an exit for a holder on the strength of its key, at the balance the settled ledger gives it.
   */
  lemma AnybodyCanLeave(p: Deployment, w: World, signal: Env, escape: Env, exit: Env, a: Address, pubKey: seq<byte>,
                        signature: seq<byte>, recipient: L1Address, receiverBalance: nat)
    requires Inv(p, w) && Abandoned(p, w, signal.round, escape.round, exit.round)
    requires a in w.h.accounts && w.h.accounts[a].amount > p.exitBoxCost
    requires p.crypto.addressOf(Ed25519, pubKey) == a
    requires p.crypto.avmEd25519(ExitMessage(p, a, recipient), signature, pubKey)
    requires CanReceive(p, recipient, w.h.accounts[a].amount - p.exitBoxCost, receiverBalance)
    requires Distinguishes(p.wire, Prove(TreeOf(w.h.accounts), 0, a).siblings)
    ensures var e := ClaimFor(p.wire, w.h.accounts, a, pubKey, signature, recipient);
            var calls := Leaving(signal, escape, exit, e, receiverBalance);
            var w1 := Step(p, w, calls[0]);
            && w1.Some?
            && Step(p, w1.value, calls[1]).Some?
            && var w2 := Step(p, w1.value, calls[1]).value;
            && Step(p, w2, calls[2]).Some?
            && Step(p, w2, calls[2]).value.s.exits == map[a := w.h.accounts[a].amount]
            && (recipient != p.app ==>
                  Step(p, w2, calls[2]).value.s.balance == w.s.balance - (w.h.accounts[a].amount - p.exitBoxCost))
  {
    hide Inv, Root, Distinguishes, Prove, TreeOf, ExitMessage, ForceExit, SignalEscape, ExecuteEscape, CanReceive;
    hide ClaimFor;
    NobodyHasLeft(p, w);
    SignalWorks(p, w, signal, escape.round, exit.round);
    var w1 := Step(p, w, Call(signal, DoSignalEscape)).value;
    EscapeWorks(p, w1, escape);
    var w2 := Step(p, w1, Call(escape, DoExecuteEscape)).value;
    EveryHolderCanExit(p, w2, a, pubKey, signature, recipient, receiverBalance);
  }
}
