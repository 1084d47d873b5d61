/** The hash chains the two sides share: the inbox, the payouts, and the posted batch bytes. */
module Chains {
  import opened Types
  import opened Transactions
  import opened Semantics

  // ----- the inbox chain -----

  /** One thing the settlement chain tells the rollup to do. */
  datatype InboxItem = DepositItem(receiver: Address, amount: u64) | RequestItem(owner: Address, recipient: L1Address)

  function AccumulateItem(chain: Digest, item: InboxItem): Digest {
    match item
    case DepositItem(receiver, amount) => InboxDeposit(chain, receiver, amount)
    case RequestItem(owner, recipient) => InboxRequest(chain, owner, recipient)
  }

  /** Fold items onto a chain, oldest first. */
  function FoldInbox(chain: Digest, items: seq<InboxItem>): Digest {
    if items == [] then chain
    else AccumulateItem(FoldInbox(chain, items[..|items| - 1]), items[|items| - 1])
  }

  lemma FoldOne(chain: Digest, item: InboxItem)
    ensures FoldInbox(chain, [item]) == AccumulateItem(chain, item)
  {
    assert FoldInbox(chain, [item][..0]) == chain;
  }

  /** The inbox items a batch consumes, in order. */
  function ItemsOf(txns: seq<Transaction>): seq<InboxItem> {
    if txns == [] then []
    else ItemOf(txns[0]) + ItemsOf(txns[1..])
  }

  function ItemOf(txn: Transaction): seq<InboxItem> {
    match txn
    case Deposit(_, receiver, amount) => [DepositItem(receiver, amount)]
    case ForcedWithdrawal(header, recipient) => [RequestItem(header.sender, recipient)]
    case _ => []
  }

  lemma {:induction false} FoldInboxConcat(chain: Digest, xs: seq<InboxItem>, ys: seq<InboxItem>)
    ensures FoldInbox(chain, xs + ys) == FoldInbox(FoldInbox(chain, xs), ys)
    decreases |ys|
  {
    if ys == [] {
      assert xs + ys == xs;
    } else {
      var n := |ys| - 1;
      assert (xs + ys)[..|xs + ys| - 1] == xs + ys[..n];
      FoldInboxConcat(chain, xs, ys[..n]);
    }
  }

  /** How many inbox folds sit on top of a digest. */
  function InboxDepth(d: Digest): nat {
    match d
    case InboxDeposit(chain, _, _) => 1 + InboxDepth(chain)
    case InboxRequest(chain, _, _) => 1 + InboxDepth(chain)
    case _ => 0
  }

  lemma {:induction false} FoldInboxDepth(chain: Digest, items: seq<InboxItem>)
    ensures InboxDepth(FoldInbox(chain, items)) == InboxDepth(chain) + |items|
    decreases |items|
  {
    if items != [] {
      FoldInboxDepth(chain, items[..|items| - 1]);
    }
  }

  /** The last link of a fold names the last item and the fold before it. */
  lemma LastLinkBinds(c: Digest, d: Digest, x: InboxItem, y: InboxItem)
    requires AccumulateItem(c, x) == AccumulateItem(d, y)
    ensures c == d && x == y
  {
  }

  lemma {:induction false} SameLengthFolds(c: Digest, d: Digest, xs: seq<InboxItem>, ys: seq<InboxItem>)
    requires |xs| == |ys| && FoldInbox(c, xs) == FoldInbox(d, ys)
    ensures c == d && xs == ys
    decreases |xs|
  {
    hide AccumulateItem;
    if xs != [] {
      var n := |xs| - 1;
      LastLinkBinds(FoldInbox(c, xs[..n]), FoldInbox(d, ys[..n]), xs[n], ys[n]);
      SameLengthFolds(c, d, xs[..n], ys[..n]);
      assert xs == xs[..n] + [xs[n]] && ys == ys[..n] + [ys[n]];
    }
  }

  /** With both ends of an inbox chain pinned, what lies between them is determined. */
  lemma InboxChainBinds(chain: Digest, xs: seq<InboxItem>, ys: seq<InboxItem>)
    requires FoldInbox(chain, xs) == FoldInbox(chain, ys)
    ensures xs == ys
  {
    FoldInboxDepth(chain, xs);
    FoldInboxDepth(chain, ys);
    SameLengthFolds(chain, chain, xs, ys);
  }

  lemma {:induction false} ItemsOfConcat(xs: seq<Transaction>, ys: seq<Transaction>)
    ensures ItemsOf(xs + ys) == ItemsOf(xs) + ItemsOf(ys)
  {
    if xs == [] {
      assert xs + ys == ys;
    } else {
      assert (xs + ys)[1..] == xs[1..] + ys;
      ItemsOfConcat(xs[1..], ys);
    }
  }

  function SumItems(items: seq<InboxItem>): nat {
    if items == [] then 0
    else (if items[0].DepositItem? then items[0].amount else 0) + SumItems(items[1..])
  }

  lemma {:induction false} SumItemsConcat(xs: seq<InboxItem>, ys: seq<InboxItem>)
    ensures SumItems(xs + ys) == SumItems(xs) + SumItems(ys)
  {
    if xs == [] {
      assert xs + ys == ys;
    } else {
      assert (xs + ys)[1..] == xs[1..] + ys;
      SumItemsConcat(xs[1..], ys);
    }
  }

  lemma {:induction false} DepositsAreItems(txns: seq<Transaction>)
    ensures SumDeposits(txns) == SumItems(ItemsOf(txns))
  {
    if txns != [] {
      DepositsAreItems(txns[1..]);
      SumItemsConcat(ItemOf(txns[0]), ItemsOf(txns[1..]));
      assert SumItems(ItemOf(txns[0])) == if txns[0].Deposit? then txns[0].amount else 0;
    }
  }

  // ----- the payout chain -----

  /** PayoutEnd wrapped in one Payout for each payout, the first of them outermost. */
  function WithdrawalChain(domain: DeploymentDomain, payouts: Payouts): Digest {
    if payouts == [] then PayoutEnd(domain)
    else Payout(WithdrawalChain(domain, payouts[1..]), payouts[0].0, payouts[0].1)
  }

  /** The three arguments that Payout wraps, in the order PayWithdrawal takes them. */
  datatype WithdrawalLink = WithdrawalLink(recipient: L1Address, amount: u64, tail: Digest)

  function WithdrawalLinks(domain: DeploymentDomain, payouts: Payouts): seq<WithdrawalLink> {
    if payouts == [] then []
    else
      [WithdrawalLink(payouts[0].0, payouts[0].1, WithdrawalChain(domain, payouts[1..]))]
      + WithdrawalLinks(domain, payouts[1..])
  }

  /** The chain names one list of payouts in one domain. */
  lemma {:induction false} WithdrawalChainBinds(d: DeploymentDomain, d': DeploymentDomain, ps: Payouts, qs: Payouts)
    requires WithdrawalChain(d, ps) == WithdrawalChain(d', qs)
    ensures d == d' && ps == qs
  {
    if ps != [] && qs != [] {
      WithdrawalChainBinds(d, d', ps[1..], qs[1..]);
      assert ps == [ps[0]] + ps[1..] && qs == [qs[0]] + qs[1..];
    }
  }

  function Reverse<T>(s: seq<T>): seq<T> {
    if s == [] then [] else Reverse(s[1..]) + [s[0]]
  }

  lemma {:induction false} ReverseAppend<T>(s: seq<T>, x: T)
    ensures Reverse(s + [x]) == [x] + Reverse(s)
  {
    if s != [] {
      ReverseAppend(s[1..], x);
      assert (s + [x])[1..] == s[1..] + [x];
    }
  }

  lemma {:induction false} ReverseTwice<T>(s: seq<T>)
    ensures Reverse(Reverse(s)) == s
  {
    if s != [] {
      ReverseTwice(s[1..]);
      ReverseAppend(Reverse(s[1..]), s[0]);
    }
  }

  /** WithdrawalLinks and WithdrawalChain in one pass from the last payout back; Reverse puts the links right. */
  method ComputeWithdrawalLinks(domain: DeploymentDomain, payouts: Payouts)
    returns (links: seq<WithdrawalLink>, head: Digest)
    ensures links == WithdrawalLinks(domain, payouts)
    ensures head == WithdrawalChain(domain, payouts)
  {
    links := [];
    head := PayoutEnd(domain);
    var i: nat := |payouts|;
    while i > 0
      invariant i <= |payouts|
      invariant head == WithdrawalChain(domain, payouts[i..])
      invariant links == Reverse(WithdrawalLinks(domain, payouts[i..]))
    {
      i := i - 1;
      assert payouts[i..][1..] == payouts[i + 1..];
      links := links + [WithdrawalLink(payouts[i].0, payouts[i].1, head)];
      head := Payout(head, payouts[i].0, payouts[i].1);
    }
    assert payouts[0..] == payouts;
    ReverseTwice(WithdrawalLinks(domain, payouts));
    links := Reverse(links);
  }

  // ----- the batch commitment -----

  /** The size of every chunk but the last: 4096 less two. */
  const CHUNK_SIZE: nat := 4096 - 2

  /** The canonical cut of a batch: full chunks, then whatever is left. */
  function Chunks(bytes: seq<byte>): seq<seq<byte>> {
    if |bytes| == 0 then []
    else if |bytes| <= CHUNK_SIZE then [bytes]
    else [bytes[..CHUNK_SIZE]] + Chunks(bytes[CHUNK_SIZE..])
  }

  function FoldChunks(accumulator: Digest, chunks: seq<seq<byte>>): Digest {
    if chunks == [] then accumulator
    else ChunkFold(FoldChunks(accumulator, chunks[..|chunks| - 1]), ChunkDigest(chunks[|chunks| - 1]))
  }

  function BatchCommitment(domain: DeploymentDomain, bytes: seq<byte>): Digest {
    FoldChunks(BatchSeed(domain, |bytes|), Chunks(bytes))
  }

  function Concat(chunks: seq<seq<byte>>): seq<byte> {
    if chunks == [] then [] else chunks[0] + Concat(chunks[1..])
  }

  lemma {:induction false} ChunksConcat(bytes: seq<byte>)
    ensures Concat(Chunks(bytes)) == bytes
  {
    if |bytes| > CHUNK_SIZE {
      ChunksConcat(bytes[CHUNK_SIZE..]);
      assert bytes == bytes[..CHUNK_SIZE] + bytes[CHUNK_SIZE..];
    } else if |bytes| > 0 {
      assert Concat([bytes]) == bytes + Concat([]);
    }
  }

  lemma {:induction false} ConcatAppend(xs: seq<seq<byte>>, ys: seq<seq<byte>>)
    ensures Concat(xs + ys) == Concat(xs) + Concat(ys)
  {
    if xs == [] {
      assert xs + ys == ys;
    } else {
      assert (xs + ys)[1..] == xs[1..] + ys;
      ConcatAppend(xs[1..], ys);
    }
  }

  lemma {:induction false} FoldChunksBinds(d: DeploymentDomain, n: nat, xs: seq<seq<byte>>,
                                           d': DeploymentDomain, n': nat, ys: seq<seq<byte>>)
    requires FoldChunks(BatchSeed(d, n), xs) == FoldChunks(BatchSeed(d', n'), ys)
    ensures d == d' && n == n' && xs == ys
    decreases |xs|
  {
    if xs != [] && ys != [] {
      FoldChunksBinds(d, n, xs[..|xs| - 1], d', n', ys[..|ys| - 1]);
      assert xs == xs[..|xs| - 1] + [xs[|xs| - 1]] && ys == ys[..|ys| - 1] + [ys[|ys| - 1]];
    }
  }

  /** The size the contract allows the next chunk of a batch of this length. */
  function ExpectedChunk(length: nat, posted: nat): nat
    requires posted <= length
  {
    if length - posted < CHUNK_SIZE then length - posted else CHUNK_SIZE
  }

  /** A list of chunks the contract would take one by one, posting into a declared length. */
  predicate PostsInto(chunks: seq<seq<byte>>, posted: nat, length: nat)
    decreases |chunks|
  {
    if chunks == [] then posted <= length
    else
      && posted < length
      && |chunks[0]| == ExpectedChunk(length, posted)
      && PostsInto(chunks[1..], posted + |chunks[0]|, length)
  }

  /**
   * What the contract accumulates chunk by chunk is the guest's commitment to a batch exactly when
   * the domain and declared length are the batch's and the chunks, put together, are its bytes.
   */
  lemma CommitmentIsPostedBytes(d: DeploymentDomain, length: nat, chunks: seq<seq<byte>>,
                                d': DeploymentDomain, bytes: seq<byte>)
    requires PostsInto(chunks, 0, length) && |Concat(chunks)| == length
    ensures FoldChunks(BatchSeed(d, length), chunks) == BatchCommitment(d', bytes)
       <==> d == d' && Concat(chunks) == bytes
  {
    if FoldChunks(BatchSeed(d, length), chunks) == BatchCommitment(d', bytes) {
      FoldChunksBinds(d, length, chunks, d', |bytes|, Chunks(bytes));
      ChunksConcat(bytes);
    }
    if Concat(chunks) == bytes {
      PostedIsCanonicalCut(chunks, 0, length);
    }
  }

  /** Chunks of the sizes their positions allow are the canonical cut of what they add up to. */
  lemma {:induction false} PostedIsCanonicalCut(chunks: seq<seq<byte>>, posted: nat, length: nat)
    requires PostsInto(chunks, posted, length) && posted + |Concat(chunks)| == length
    ensures chunks == Chunks(Concat(chunks))
    decreases |chunks|
  {
    if chunks != [] {
      var first, rest := chunks[0], Concat(chunks[1..]);
      PostedIsCanonicalCut(chunks[1..], posted + |first|, length);
      assert (first + rest)[..|first|] == first && (first + rest)[|first|..] == rest;
      if |first| < CHUNK_SIZE || rest == [] {
        assert rest == [];
        assert chunks[1..] == [];
        assert chunks == [first] && first + rest == first;
      } else {
        assert chunks == [first] + chunks[1..];
      }
    }
  }

  /** The canonical cut of any batch is one the contract takes, to the last byte. */
  lemma {:induction false} CanonicalCutPosts(bytes: seq<byte>, posted: nat)
    ensures PostsInto(Chunks(bytes), posted, posted + |bytes|)
    decreases |bytes|
  {
    if |bytes| > CHUNK_SIZE {
      var rest := bytes[CHUNK_SIZE..];
      CanonicalCutPosts(rest, posted + CHUNK_SIZE);
      assert Chunks(bytes)[1..] == Chunks(rest);
    } else if |bytes| > 0 {
      assert Chunks(bytes)[1..] == [];
    }
  }

  lemma {:induction false} FoldChunksConcat(accumulator: Digest, xs: seq<seq<byte>>, ys: seq<seq<byte>>)
    ensures FoldChunks(accumulator, xs + ys) == FoldChunks(FoldChunks(accumulator, xs), ys)
    decreases |ys|
  {
    if ys == [] {
      assert xs + ys == xs;
    } else {
      var n := |ys| - 1;
      assert (xs + ys)[..|xs + ys| - 1] == xs + ys[..n];
      FoldChunksConcat(accumulator, xs, ys[..n]);
    }
  }

  /** The guest's loop over the whole buffer. */
  method ComputeBatchCommitment(domain: DeploymentDomain, bytes: seq<byte>) returns (accumulator: Digest)
    ensures accumulator == BatchCommitment(domain, bytes)
  {
    accumulator := BatchSeed(domain, |bytes|);
    var rest := bytes;
    while |rest| > 0
      invariant FoldChunks(accumulator, Chunks(rest)) == BatchCommitment(domain, bytes)
      decreases |rest|
    {
      var size := if |rest| < CHUNK_SIZE then |rest| else CHUNK_SIZE;
      var chunk := rest[..size];
      assert Chunks(rest) == [chunk] + Chunks(rest[size..]) by {
        if |rest| <= CHUNK_SIZE {
          assert chunk == rest && rest[size..] == [];
        }
      }
      FoldChunksConcat(accumulator, [chunk], Chunks(rest[size..]));
      assert FoldChunks(accumulator, [chunk]) == ChunkFold(accumulator, ChunkDigest(chunk));
      accumulator := ChunkFold(accumulator, ChunkDigest(chunk));
      rest := rest[size..];
    }
  }
}
