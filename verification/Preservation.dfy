/** No call breaks the invariant. */
module Preservation {
  import opened Types
  import opened MerkleTree
  import opened MerkleProofs
  import opened Transactions
  import opened Chains
  import opened Settlement
  import opened Runs
  import opened Invariants
  import BatchCodec
  import Semantics

  lemma LaterRound(p: Deployment, s: State, h: History, round: u64)
    requires Inv(p, World(s, h)) && h.round <= round
    ensures Inv(p, World(s, h.(round := round)))
  {
    hide InboxOk, BatchOk, LedgerOk, PayoutOk, WatchOk, SettledOk, RefundsOk, ExitsOk, Liabilities, MinBalance;
    hide ChainAt, RecordsItem;
  }

  /** Openings and claims are kept for statements about whole runs; the invariant does not read them. */
  lemma UnreadKeeps(p: Deployment, s: State, h: History, openings: seq<Opening>, claims: seq<ExitClaim>)
    requires Inv(p, World(s, h))
    ensures Inv(p, World(s, h.(openings := openings, claims := claims)))
  {
    hide InboxOk, BoxesOk, BatchOk, LedgerOk, PayoutOk, WatchOk, SettledOk, RefundsOk, ExitsOk, Solvent, Liabilities;
  }

  lemma DonateKeeps(p: Deployment, s: State, h: History, amount: nat)
    requires Inv(p, World(s, h))
    ensures Inv(p, World(s.(balance := s.balance + amount), h))
  {
    hide InboxOk, BoxesOk, BatchOk, LedgerOk, PayoutOk, WatchOk, SettledOk, RefundsOk, ExitsOk, Liabilities;
  }

  lemma SignalKeeps(p: Deployment, s: State, h: History, env: Env)
    requires Inv(p, World(s, h)) && SignalEscape(p, s, env).Some?
    ensures Inv(p, World(SignalEscape(p, s, env).value,
                         h.(signalRound := env.round, signalTarget := s.inboxCursor, extensions := 0, discharged := 0,
                            windowWork := 0)))
  {
    hide InboxOk, BoxesOk, BatchOk, LedgerOk, PayoutOk, SettledOk, RefundsOk, ExitsOk, Liabilities, Solvent;
  }

  lemma DropBatchKeeps(p: Deployment, s: State, h: History)
    requires Inv(p, World(s, h))
    ensures Inv(p, World(DropBatch(s), h))
  {
    hide InboxOk, BoxesOk, LedgerOk, PayoutOk, WatchOk, SettledOk, RefundsOk, ExitsOk, Liabilities, Solvent;
    hide ChainAt, FoldChunks, PostsInto, Concat;
  }

  lemma FreezeKeeps(p: Deployment, s: State, h: History)
    requires Inv(p, World(s, h)) && !s.escaped
    ensures Inv(p, World(Freeze(s), h))
  {
    hide InboxOk, LedgerOk, PayoutOk, SettledOk, Liabilities, Solvent, ExitsOk;
    hide ChainAt, FoldChunks, PostsInto, Concat, RecordsItem;
    FreezeKeepsExits(h.accounts, s.exits, h.exited);
  }

  lemma FreezeKeepsExits(accounts: Semantics.Ledger, exits: map<Address, u64>, exited: seq<(Address, u64)>)
    requires ExitsOk(accounts, exits, false, exited)
    ensures ExitsOk(accounts, exits, true, exited)
  {
  }

  lemma OpenKeeps(p: Deployment, s: State, h: History, env: Env, length: u64, target: u64)
    requires Inv(p, World(s, h)) && OpenBatch(p, s, env, length, target).Some?
    ensures Inv(p, World(OpenBatch(p, s, env, length, target).value, h.(posted := [])))
  {
    hide LedgerOk, PayoutOk, WatchOk, SettledOk, RefundsOk, ExitsOk, Liabilities, Solvent;
    hide ChainAt, RecordsItem;
  }

  lemma {:induction false} PostsIntoSnoc(chunks: seq<seq<byte>>, posted: nat, length: nat, chunk: seq<byte>)
    requires PostsInto(chunks, posted, length) && posted + |Concat(chunks)| < length
    requires |chunk| == ExpectedChunk(length, posted + |Concat(chunks)|)
    ensures PostsInto(chunks + [chunk], posted, length)
    ensures Concat(chunks + [chunk]) == Concat(chunks) + chunk
    decreases |chunks|
  {
    ConcatAppend(chunks, [chunk]);
    assert Concat([chunk]) == chunk + Concat([]) == chunk;
    if chunks == [] {
      assert chunks + [chunk] == [chunk] && [chunk][1..] == [];
    } else {
      PostsIntoSnoc(chunks[1..], posted + |chunks[0]|, length, chunk);
      assert (chunks + [chunk])[1..] == chunks[1..] + [chunk];
    }
  }

  lemma FoldChunksSnoc(accumulator: Digest, chunks: seq<seq<byte>>, chunk: seq<byte>)
    ensures FoldChunks(accumulator, chunks + [chunk]) == ChunkFold(FoldChunks(accumulator, chunks), ChunkDigest(chunk))
  {
    assert (chunks + [chunk])[..|chunks|] == chunks;
  }

  lemma ChunkKeeps(p: Deployment, s: State, h: History, env: Env, chunk: seq<byte>)
    requires Inv(p, World(s, h)) && AccumulateChunk(p, s, env, chunk).Some?
    ensures Inv(p, World(AccumulateChunk(p, s, env, chunk).value, h.(posted := h.posted + [chunk])))
  {
    hide InboxOk, BoxesOk, LedgerOk, PayoutOk, WatchOk, SettledOk, RefundsOk, ExitsOk, Liabilities, Solvent;
    hide ChainAt, PostsInto, Concat, FoldChunks, ExpectedChunk;
    PostsIntoSnoc(h.posted, 0, s.posting.batchLength.value, chunk);
    FoldChunksSnoc(BatchSeed(p.domain, s.posting.batchLength.value), h.posted, chunk);
  }

  // ----- paying -----

  /** Paying out of what is owed, once the debt has been taken off the books. */
  lemma PayKeeps(p: Deployment, s: State, liabilities: nat, receiver: L1Address, amount: nat, receiverBalance: nat)
    requires Pay(p, s, receiver, amount, receiverBalance).Some?
    requires Solvent(MinBalance(p, s), liabilities + amount, s.balance)
    ensures var s1 := Pay(p, s, receiver, amount, receiverBalance).value;
            s1 == s.(balance := s1.balance, sent := s1.sent) && Solvent(MinBalance(p, s1), liabilities, s1.balance)
  {
  }

  /** Whoever calls, a debt taken off the books is paid exactly when its receiver is able to exist. */
  lemma PaySucceeds(p: Deployment, s: State, liabilities: nat, receiver: L1Address, amount: nat, receiverBalance: nat)
    requires Solvent(MinBalance(p, s), liabilities + amount, s.balance)
    ensures Pay(p, s, receiver, amount, receiverBalance).Some? <==> CanReceive(p, receiver, amount, receiverBalance)
  {
  }

  /** Credit for work keeps the accusation's deadline paid for, and touches nothing else. */
  lemma CreditKeepsWatch(p: Deployment, s: State, h: History, n: nat)
    requires WatchOk(p.escapeGrace, s.accusation, s.inboxCursor, s.settledInboxCursor, s.escaped,
                     h.signalRound, h.signalTarget, h.extensions, h.discharged, h.windowWork)
    requires CreditEscapeProgress(p, s, n).Some?
    ensures var s1, h1 := CreditEscapeProgress(p, s, n).value, NoteCredit(s, h, n);
            && s1 == s.(accusation := s1.accusation)
            && h1 == h.(extensions := h1.extensions, discharged := h1.discharged, windowWork := h1.windowWork)
            && WatchOk(p.escapeGrace, s1.accusation, s1.inboxCursor, s1.settledInboxCursor, s1.escaped,
                       h1.signalRound, h1.signalTarget, h1.extensions, h1.discharged, h1.windowWork)
  {
    assert p.escapeGrace * (1 + (h.extensions + 1)) == p.escapeGrace * (1 + h.extensions) + p.escapeGrace;
  }

  /** The only payout that reproduces the pending head is the first one owed. */
  lemma NextPayout(p: Deployment, s: State, h: History, payee: L1Address, sum: u64, tail: Digest)
    requires PayoutOk(p.domain, s.pendingWithdrawals, h.settled, h.paid, h.owed)
    requires s.pendingWithdrawals == Some(Payout(tail, payee, sum))
    ensures h.owed != [] && h.owed[0] == (payee, sum) && tail == WithdrawalChain(p.domain, h.owed[1..])
    ensures tail == PayoutEnd(p.domain) <==> h.owed[1..] == []
    ensures PayoutOk(p.domain, if tail == PayoutEnd(p.domain) then None else Some(tail),
                     h.settled, h.paid + [(payee, sum)], h.owed[1..])
  {
    var owed := h.owed;
    assert owed == [owed[0]] + owed[1..];
    assert (h.paid + [owed[0]]) + owed[1..] == h.paid + ([owed[0]] + owed[1..]);
  }

  lemma PayWithdrawalKeeps(p: Deployment, s: State, h: History, env: Env, payee: L1Address, sum: u64, tail: Digest,
                           receiverBalance: nat)
    requires Inv(p, World(s, h)) && PayWithdrawal(p, s, env, payee, sum, tail, receiverBalance).Some?
    ensures var h1 := h.(paid := h.paid + [(payee, sum)], owed := if h.owed == [] then [] else h.owed[1..]);
            Inv(p, World(PayWithdrawal(p, s, env, payee, sum, tail, receiverBalance).value,
                         if env.sender == p.creator then NoteCredit(s, h1, 1) else h1))
  {
    hide InboxOk, BoxesOk, LedgerOk, PayoutOk, WatchOk, SettledOk, RefundsOk, ExitsOk, Solvent;
    hide ChainAt, FoldChunks, PostsInto, Concat, Semantics.Total, Pending;
    hide CreditEscapeProgress, NoteCredit, Pay;
    NextPayout(p, s, h, payee, sum, tail);
    var s1 := s.(pendingWithdrawals := if tail == PayoutEnd(p.domain) then None else Some(tail));
    var h1 := h.(paid := h.paid + [(payee, sum)], owed := h.owed[1..]);
    var s2, h2 := s1, h1;
    if env.sender == p.creator {
      CreditKeepsWatch(p, s1, h1, 1);
      NoteCreditFrame(s, s1, h1, 1);
      s2, h2 := CreditEscapeProgress(p, s1, 1).value, NoteCredit(s1, h1, 1);
    }
    PayKeeps(p, s2, LiabilitiesOf(s1, h1), payee, sum, receiverBalance);
  }

  lemma NoteCreditFrame(s: State, s1: State, h: History, n: nat)
    requires s.accusation == s1.accusation
    ensures NoteCredit(s, h, n) == NoteCredit(s1, h, n)
  {
  }

  // ----- boxes that go -----

  lemma BoxGone(p: Deployment, s: State, index: u64)
    requires index in s.inbox
    ensures MinBalance(p, s.(inbox := s.inbox - {index})) + p.inboxBoxCost == MinBalance(p, s)
  {
    assert (s.inbox - {index}).Keys == s.inbox.Keys - {index};
    assert |s.inbox - {index}| == |s.inbox| - 1;
    assert p.inboxBoxCost * |s.inbox| == p.inboxBoxCost * (|s.inbox| - 1) + p.inboxBoxCost;
  }

  /** What deleting a box takes off the books. */
  lemma RefundBooks(p: Deployment, s: State, h: History, index: u64, extra: u64)
    requires index in s.inbox
    requires extra == if s.settledInboxCursor <= index < s.inboxCursor then PendingAt(s.inbox, index) else 0
    ensures var s1 := s.(inbox := s.inbox - {index});
            && Owing(p, s1, h) + (extra + p.inboxBoxCost) == Owing(p, s, h)
            && (Solvent(MinBalance(p, s), LiabilitiesOf(s, h), s.balance) ==>
                  Solvent(MinBalance(p, s1), LiabilitiesOf(s1, h) + (extra + p.inboxBoxCost), s1.balance))
  {
    hide Semantics.Total, Pending, Semantics.SumPayouts, PendingAt, MinBalance;
    PendingRemove(s.inbox, s.settledInboxCursor, s.inboxCursor, index);
    BoxGone(p, s, index);
  }

  lemma BoxesWithout(items: seq<InboxItem>, inbox: map<u64, InboxRecord>, cursor: u64, settled: u64,
                     escaped: bool, round: u64, boxCost: nat, index: u64)
    requires BoxesOk(items, inbox, cursor, settled, escaped, round, boxCost)
    requires escaped || index < settled
    ensures BoxesOk(items, inbox - {index}, cursor, settled, escaped, round, boxCost)
  {
    hide ChainAt, RecordsItem;
  }

  lemma RefundsWithout(items: seq<InboxItem>, inbox: map<u64, InboxRecord>, cursor: u64, settled: u64,
                       escaped: bool, refunded: seq<u64>, index: u64)
    requires RefundsOk(items, inbox, cursor, settled, escaped, refunded)
    requires index < settled || (index < cursor && !items[index].DepositItem?)
    ensures RefundsOk(items, inbox - {index}, cursor, settled, escaped, refunded)
  {
  }

  lemma PruneKeeps(p: Deployment, s: State, h: History, index: u64, receiverBalance: nat)
    requires Inv(p, World(s, h)) && index in s.inbox && Refund(p, s, index, 0, receiverBalance).Some?
    requires index < s.settledInboxCursor || (s.escaped && s.inbox[index].kind == RequestKind)
    ensures Inv(p, World(Refund(p, s, index, 0, receiverBalance).value, h))
  {
    hide InboxOk, BoxesOk, BatchOk, LedgerOk, PayoutOk, WatchOk, SettledOk, RefundsOk, ExitsOk, Solvent, Liabilities;
    hide Pay;
    PruneRequestItem(h.items, s, h, p.inboxBoxCost, index);
    var s1 := s.(inbox := s.inbox - {index});
    BoxesWithout(h.items, s.inbox, s.inboxCursor, s.settledInboxCursor, s.escaped, h.round, p.inboxBoxCost, index);
    RefundsWithout(h.items, s.inbox, s.inboxCursor, s.settledInboxCursor, s.escaped, h.refunded, index);
    RefundBooks(p, s, h, index, 0);
    PayKeeps(p, s1, LiabilitiesOf(s1, h), s.inbox[index].payer, p.inboxBoxCost, receiverBalance);
  }

  lemma PruneRequestItem(items: seq<InboxItem>, s: State, h: History, boxCost: nat, index: u64)
    requires BoxesOk(items, s.inbox, s.inboxCursor, s.settledInboxCursor, s.escaped, h.round, boxCost)
    requires index in s.inbox
    ensures index < s.inboxCursor == |items|
    ensures s.inbox[index].kind == RequestKind <==> !items[index].DepositItem?
    ensures items[index].DepositItem? ==> s.inbox[index].amount == items[index].amount
  {
  }

  lemma RefundsWith(items: seq<InboxItem>, inbox: map<u64, InboxRecord>, cursor: u64, settled: u64,
                    refunded: seq<u64>, index: u64)
    requires RefundsOk(items, inbox, cursor, settled, true, refunded)
    requires settled <= index < cursor && items[index].DepositItem? && index in inbox
    ensures RefundsOk(items, inbox - {index}, cursor, settled, true, refunded + [index])
  {
  }

  lemma ReclaimKeeps(p: Deployment, s: State, h: History, index: u64, receiverBalance: nat)
    requires Inv(p, World(s, h)) && ReclaimDeposit(p, s, index, receiverBalance).Some?
    ensures Inv(p, World(ReclaimDeposit(p, s, index, receiverBalance).value, h.(refunded := h.refunded + [index])))
  {
    hide InboxOk, BoxesOk, BatchOk, LedgerOk, PayoutOk, WatchOk, SettledOk, RefundsOk, ExitsOk, Solvent, Liabilities;
    hide Pay;
    PruneRequestItem(h.items, s, h, p.inboxBoxCost, index);
    var s1, amount := s.(inbox := s.inbox - {index}), s.inbox[index].amount;
    BoxesWithout(h.items, s.inbox, s.inboxCursor, s.settledInboxCursor, s.escaped, h.round, p.inboxBoxCost, index);
    RefundsWith(h.items, s.inbox, s.inboxCursor, s.settledInboxCursor, h.refunded, index);
    RefundBooks(p, s, h, index, amount);
    PayKeeps(p, s1, LiabilitiesOf(s1, h), s.inbox[index].payer, amount + p.inboxBoxCost, receiverBalance);
  }

  // ----- boxes that come -----

  lemma ChainAtSnoc(items: seq<InboxItem>, item: InboxItem)
    ensures ChainAt(items + [item], |items| + 1) == AccumulateItem(ChainAt(items, |items|), item)
    ensures forall i: nat :: i <= |items| ==> ChainAt(items + [item], i) == ChainAt(items, i)
  {
    assert (items + [item])[..|items| + 1] == items + [item];
    assert items[..|items|] == items && (items + [item])[..|items|] == items;
    forall i: nat | i <= |items|
      ensures ChainAt(items + [item], i) == ChainAt(items, i)
    {
      assert (items + [item])[..i] == items[..i];
    }
  }

  lemma BoxesWith(items: seq<InboxItem>, inbox: map<u64, InboxRecord>, cursor: u64, settled: u64, round: u64,
                  boxCost: nat,
                  item: InboxItem, record: InboxRecord)
    requires BoxesOk(items, inbox, cursor, settled, false, round, boxCost) && cursor < MAX_U64
    requires record.round == round && RecordsItem(record, item) && record.amount + boxCost <= MAX_U64
    requires record.chainAfter == ChainAt(items + [item], cursor + 1)
    ensures BoxesOk(items + [item], inbox[cursor := record], cursor + 1, settled, false, round, boxCost)
  {
    hide ChainAt, RecordsItem;
    ChainAtSnoc(items, item);
  }

  lemma InboxWith(items: seq<InboxItem>, chain: Digest, cursor: u64, settledChain: Digest, settled: u64,
                  item: InboxItem)
    requires InboxOk(items, chain, cursor, settledChain, settled) && cursor < MAX_U64
    ensures InboxOk(items + [item], AccumulateItem(chain, item), cursor + 1, settledChain, settled)
    ensures AccumulateItem(chain, item) == ChainAt(items + [item], cursor + 1)
  {
    hide ChainAt, AccumulateItem;
    ChainAtSnoc(items, item);
  }

  lemma WatchWith(grace: u64, a: Accusation, cursor: u64, settled: u64, escaped: bool,
                  signalRound: u64, signalTarget: u64, extensions: nat, discharged: nat, work: nat)
    requires WatchOk(grace, a, cursor, settled, escaped, signalRound, signalTarget, extensions, discharged, work)
    requires cursor < MAX_U64
    ensures WatchOk(grace, a, cursor + 1, settled, escaped, signalRound, signalTarget, extensions, discharged, work)
  {
  }

  lemma LedgerWith(items: seq<InboxItem>, root: Digest, settled: u64, accounts: Semantics.Ledger,
                   txns: seq<Transaction>,
                   item: InboxItem)
    requires LedgerOk(items, root, settled, accounts, txns)
    ensures LedgerOk(items + [item], root, settled, accounts, txns)
  {
    hide Root, Semantics.Run, ItemsOf;
    assert (items + [item])[..settled] == items[..settled];
  }

  lemma SettledWith(items: seq<InboxItem>, settled: u64, batches: seq<Settled>, item: InboxItem)
    requires SettledOk(items, settled, batches)
    ensures SettledOk(items + [item], settled, batches)
  {
    hide ItemsOf, BatchCodec.DecodeBatch;
    forall b | b in batches
      ensures Consumes(items + [item], b)
    {
      assert (items + [item])[b.first..b.end] == items[b.first..b.end];
    }
  }

  lemma BatchWith(domain: DeploymentDomain, items: seq<InboxItem>, b: Posting, chunks: seq<seq<byte>>,
                  cursor: u64, settled: u64, pending: Option<Digest>, item: InboxItem)
    requires BatchOk(domain, items, b, chunks, cursor, settled, false, pending) && cursor < MAX_U64
    ensures BatchOk(domain, items + [item], b, chunks, cursor + 1, settled, false, pending)
  {
    hide ChainAt, FoldChunks, PostsInto, Concat;
    ChainAtSnoc(items, item);
  }

  lemma RefundsNone(items: seq<InboxItem>, inbox: map<u64, InboxRecord>, cursor: u64, settled: u64, round: u64,
                    boxCost: nat)
    requires BoxesOk(items, inbox, cursor, settled, false, round, boxCost)
    ensures RefundsOk(items, inbox, cursor, settled, false, [])
  {
    hide ChainAt, RecordsItem;
  }

  lemma BoxAdded(p: Deployment, s: State, record: InboxRecord, cursor: u64)
    requires s.inboxCursor !in s.inbox
    ensures MinBalance(p, s.(inbox := s.inbox[s.inboxCursor := record])) == MinBalance(p, s) + p.inboxBoxCost
  {
    assert s.inbox[s.inboxCursor := record].Keys == s.inbox.Keys + {s.inboxCursor};
    assert p.inboxBoxCost * (|s.inbox| + 1) == p.inboxBoxCost * |s.inbox| + p.inboxBoxCost;
  }

  lemma MinBalanceReadsBoxes(p: Deployment, s: State, s1: State)
    requires s1.inbox == s.inbox && s1.exits == s.exits
    ensures MinBalance(p, s1) == MinBalance(p, s)
  {
  }

  lemma AppendBooks(p: Deployment, s: State, h: History, record: InboxRecord, payment: u64)
    requires s.inboxCursor !in s.inbox && s.inboxCursor < MAX_U64 && s.settledInboxCursor <= s.inboxCursor
    requires payment == p.inboxBoxCost + if record.kind == DepositKind then record.amount else 0
    ensures var s1 := s.(inbox := s.inbox[s.inboxCursor := record], inboxCursor := s.inboxCursor + 1,
                         balance := s.balance + payment);
            && Owing(p, s1, h) == Owing(p, s, h) + payment
            && (Solvent(MinBalance(p, s), LiabilitiesOf(s, h), s.balance) ==>
                  Solvent(MinBalance(p, s1), LiabilitiesOf(s1, h), s1.balance))
  {
    hide Semantics.Total, Semantics.SumPayouts, MinBalance;
    var inbox := s.inbox[s.inboxCursor := record];
    BoxAdded(p, s, record, s.inboxCursor);
    MinBalanceReadsBoxes(p, s.(inbox := inbox), s.(inbox := inbox, inboxCursor := s.inboxCursor + 1,
                                                    balance := s.balance + payment));
    PendingFrame(s.inbox, inbox, s.settledInboxCursor, s.inboxCursor);
    assert Pending(inbox, s.settledInboxCursor, s.inboxCursor + 1)
        == Pending(inbox, s.settledInboxCursor, s.inboxCursor) + PendingAt(inbox, s.inboxCursor);
  }

  lemma AppendKeeps(p: Deployment, s: State, h: History, item: InboxItem, record: InboxRecord, payment: u64)
    requires Inv(p, World(s, h)) && !s.escaped && Append(p, s, record, payment).Some?
    requires record.round == h.round && RecordsItem(record, item)
    requires record.kind == RequestKind ==> record.amount == 0
    requires record.chainAfter == AccumulateItem(s.inboxChain, item)
    requires payment == p.inboxBoxCost + if record.kind == DepositKind then record.amount else 0
    ensures Inv(p, World(Append(p, s, record, payment).value, h.(items := h.items + [item])))
  {
    hide InboxOk, BoxesOk, BatchOk, LedgerOk, PayoutOk, WatchOk, SettledOk, RefundsOk, ExitsOk, Solvent, Liabilities;
    hide MinBalance, ChainAt, RecordsItem, AccumulateItem;
    CursorFree(h.items, s, h, p.inboxBoxCost);
    SettledBelow(h.items, s);
    InboxWith(h.items, s.inboxChain, s.inboxCursor, s.settledInboxChain, s.settledInboxCursor, item);
    WatchWith(p.escapeGrace, s.accusation, s.inboxCursor, s.settledInboxCursor, s.escaped,
              h.signalRound, h.signalTarget, h.extensions, h.discharged, h.windowWork);
    BoxesWith(h.items, s.inbox, s.inboxCursor, s.settledInboxCursor, h.round, p.inboxBoxCost, item, record);
    BatchWith(p.domain, h.items, s.posting, h.posted, s.inboxCursor, s.settledInboxCursor, s.pendingWithdrawals, item);
    LedgerWith(h.items, s.stateRoot, s.settledInboxCursor, h.accounts, h.txns, item);
    SettledWith(h.items, s.settledInboxCursor, h.settled, item);
    RefundsNone(h.items + [item], s.inbox[s.inboxCursor := record], s.inboxCursor + 1, s.settledInboxCursor, h.round,
                p.inboxBoxCost);
    AppendBooks(p, s, h, record, payment);
    MinBalanceFrame(p, s, record, payment);
  }

  lemma SettledBelow(items: seq<InboxItem>, s: State)
    requires InboxOk(items, s.inboxChain, s.inboxCursor, s.settledInboxChain, s.settledInboxCursor)
    ensures s.settledInboxCursor <= s.inboxCursor
  {
  }

  lemma MinBalanceFrame(p: Deployment, s: State, record: InboxRecord, payment: u64)
    requires Append(p, s, record, payment).Some?
    ensures var s1 := s.(inbox := s.inbox[s.inboxCursor := record], inboxCursor := s.inboxCursor + 1,
                         balance := s.balance + payment);
            MinBalance(p, s1) == MinBalance(p, Append(p, s, record, payment).value)
  {
  }

  lemma CursorFree(items: seq<InboxItem>, s: State, h: History, boxCost: nat)
    requires BoxesOk(items, s.inbox, s.inboxCursor, s.settledInboxCursor, s.escaped, h.round, boxCost)
    requires RefundsOk(items, s.inbox, s.inboxCursor, s.settledInboxCursor, s.escaped, h.refunded)
    ensures s.inboxCursor !in s.inbox
    ensures !s.escaped ==> h.refunded == []
  {
  }

  lemma DepositKeeps(p: Deployment, s: State, h: History, env: Env, payment: GroupPayment, recipient: Address)
    requires Inv(p, World(s, h)) && env.round == h.round && AcceptDeposit(p, s, env, payment, recipient).Some?
    ensures payment.amount >= NextBoxCost(p, s)
    ensures Inv(p, World(AcceptDeposit(p, s, env, payment, recipient).value,
                         h.(items := h.items + [DepositItem(recipient, payment.amount - NextBoxCost(p, s))])))
  {
    hide InboxOk, BoxesOk, BatchOk, LedgerOk, PayoutOk, WatchOk, SettledOk, RefundsOk, ExitsOk, Solvent, Liabilities;
    CursorFree(h.items, s, h, p.inboxBoxCost);
    var amount := payment.amount - NextBoxCost(p, s);
    var item := DepositItem(recipient, amount);
    AppendKeeps(p, s, h, item,
                InboxRecord(DepositKind, recipient, ZERO_ADDRESS, amount, payment.sender, env.round,
                            AccumulateItem(s.inboxChain, item)),
                payment.amount);
  }

  lemma RequestKeeps(p: Deployment, s: State, h: History, env: Env, payment: GroupPayment, nonce: u64, address: Address,
                     to: L1Address, scheme: seq<byte>, pubKey: seq<byte>, signature: seq<byte>)
    requires Inv(p, World(s, h)) && env.round == h.round
    requires RequestWithdrawal(p, s, env, payment, nonce, address, to, scheme, pubKey, signature).Some?
    ensures Inv(p, World(RequestWithdrawal(p, s, env, payment, nonce, address, to, scheme, pubKey, signature).value,
                         h.(items := h.items + [RequestItem(address, to)])))
  {
    hide InboxOk, BoxesOk, BatchOk, LedgerOk, PayoutOk, WatchOk, SettledOk, RefundsOk, ExitsOk, Solvent, Liabilities;
    CursorFree(h.items, s, h, p.inboxBoxCost);
    var item := RequestItem(address, to);
    AppendKeeps(p, s, h, item,
                InboxRecord(RequestKind, address, to, 0, payment.sender, env.round, AccumulateItem(s.inboxChain, item)),
                payment.amount);
  }

  // ----- exits -----

  /** What an accepted exit claim proves: the frozen ledger holds exactly that account there. */
  lemma ExitClaimIsTrue(p: Deployment, s: State, accounts: Semantics.Ledger, e: ExitClaim)
    requires s.stateRoot == Root(accounts) && Exits(p, s, e)
    ensures e.address in accounts && accounts[e.address] == e.account
  {
    hide Root;
    WitnessBinding(accounts, e.address, Some(e.account), MerkleProof(Words(p.wire, e.siblings), Own), e.account);
  }

  lemma ExitsWith(accounts: Semantics.Ledger, exits: map<Address, u64>, exited: seq<(Address, u64)>, a: Address)
    requires ExitsOk(accounts, exits, true, exited)
    requires a !in exits && a in accounts
    ensures ExitsOk(accounts, exits[a := accounts[a].amount], true, exited + [(a, accounts[a].amount)])
  {
    var added := exited + [(a, accounts[a].amount)];
    assert added[|exited|] == (a, accounts[a].amount);
    forall b | b in exits
      ensures (b, exits[b]) in added
    {
      assert (b, exits[b]) in exited;
    }
  }

  lemma TotalExit(m: Semantics.Ledger, gone: set<Address>, a: Address)
    requires a in m && a !in gone
    ensures Semantics.Total(m - gone) == m[a].amount + Semantics.Total(m - (gone + {a}))
  {
    hide Semantics.Total;
    Semantics.TotalWithout(m - gone, a);
    assert m - gone - {a} == m - (gone + {a});
  }

  lemma ExitBoxAdded(p: Deployment, s: State, a: Address, amount: u64)
    requires a !in s.exits
    ensures MinBalance(p, s.(exits := s.exits[a := amount])) == MinBalance(p, s) + p.exitBoxCost
    ensures s.exits[a := amount].Keys == s.exits.Keys + {a}
  {
    assert s.exits[a := amount].Keys == s.exits.Keys + {a};
    assert p.exitBoxCost * (|s.exits| + 1) == p.exitBoxCost * |s.exits| + p.exitBoxCost;
  }

  lemma ExitBooks(p: Deployment, s: State, h: History, a: Address)
    requires a !in s.exits && a in h.accounts && h.accounts[a].amount >= p.exitBoxCost
    ensures var s1 := s.(exits := s.exits[a := h.accounts[a].amount]);
            && Owing(p, s1, h) + (h.accounts[a].amount - p.exitBoxCost) == Owing(p, s, h)
            && (Solvent(MinBalance(p, s), LiabilitiesOf(s, h), s.balance) ==>
                  Solvent(MinBalance(p, s1), LiabilitiesOf(s1, h) + (h.accounts[a].amount - p.exitBoxCost), s1.balance))
  {
    hide Semantics.Total, Pending, Semantics.SumPayouts, MinBalance;
    ExitBoxAdded(p, s, a, h.accounts[a].amount);
    TotalExit(h.accounts, s.exits.Keys, a);
  }

  lemma ForceExitKeeps(p: Deployment, s: State, h: History, e: ExitClaim, receiverBalance: nat)
    requires Inv(p, World(s, h)) && ForceExit(p, s, e, receiverBalance).Some?
    ensures Inv(p, World(ForceExit(p, s, e, receiverBalance).value,
                         h.(exited := h.exited + [(e.address, e.account.amount)])))
  {
    hide InboxOk, BoxesOk, BatchOk, LedgerOk, PayoutOk, WatchOk, SettledOk, RefundsOk, ExitsOk, Solvent, Liabilities;
    hide Pay, Root, PathHash, MinBalance;
    RootKept(s, h);
    ExitClaimIsTrue(p, s, h.accounts, e);
    var s1 := s.(exits := s.exits[e.address := e.account.amount]);
    ExitsWith(h.accounts, s.exits, h.exited, e.address);
    ExitBooks(p, s, h, e.address);
    PayKeeps(p, s1, LiabilitiesOf(s1, h), e.recipient, e.account.amount - p.exitBoxCost, receiverBalance);
  }

  lemma RootKept(s: State, h: History)
    requires LedgerOk(h.items, s.stateRoot, s.settledInboxCursor, h.accounts, h.txns)
    ensures s.stateRoot == Root(h.accounts)
  {
  }
}
