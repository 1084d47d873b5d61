/** Proofs of what a tree holds, and the root arithmetic a verifier without the tree does on them. */
module MerkleProofs {
  import opened Types
  import opened Addresses
  import opened MerkleTree

  /** Own claims nothing but the address itself at the end of a path, Neighbor a leaf of another address. */
  datatype Slot = Own | Neighbor(address: Address, account: Account)

  /** A path from the root down, one digest for each branch passed, and the slot it ends in. */
  datatype MerkleProof = MerkleProof(siblings: seq<Digest>, slot: Slot)

  predicate CheckNeighbor(a: Address, neighbor: Address, depth: nat) {
    neighbor != a && CommonPrefixLen(a, neighbor) >= depth
  }

  /** The hash at depth d of a path for a, given what sits at its end. */
  function PathHash(a: Address, d: nat, siblings: seq<Digest>, bottom: Digest): Digest
    requires d + |siblings| <= DEPTH
    decreases |siblings|
  {
    if siblings == [] then bottom
    else
      var rest := PathHash(a, d + 1, siblings[1..], bottom);
      if BitAt(a, d) == 0 then NodeHash(rest, siblings[0]) else NodeHash(siblings[0], rest)
  }

  function EmptySiblings(n: nat): (s: seq<Digest>)
    ensures |s| == n
  {
    seq(n, _ => Zero)
  }

  /** PathHash, from depth d to where a and b part, over the pair of their leaves. */
  function SubtreeWithBoth(d: nat, a: Address, x: Account, b: Address, y: Account): Digest
    requires a != b && d <= CommonPrefixLen(a, b)
  {
    CommonPrefixIsFirstDivergence(a, b);
    var split := CommonPrefixLen(a, b);
    var pair :=
      if BitAt(a, split) == 0 then NodeHash(LeafHash(a, x), LeafHash(b, y))
      else NodeHash(LeafHash(b, y), LeafHash(a, x));
    PathHash(a, d, EmptySiblings(split - d), pair)
  }

  /** The hash at the end of a path of the given depth, for each of the four slot and account pairs. */
  function Bottom(a: Address, account: Option<Account>, depth: nat, slot: Slot): Option<Digest> {
    match (slot, account)
    case (Own, None) => Some(Zero)
    case (Own, Some(x)) => Some(LeafHash(a, x))
    case (Neighbor(b, y), None) =>
      if CheckNeighbor(a, b, depth) then Some(LeafHash(b, y)) else None
    case (Neighbor(b, y), Some(x)) =>
      if CheckNeighbor(a, b, depth) then Some(SubtreeWithBoth(depth, a, x, b, y)) else None
  }

  /** PathHash over the proof's siblings from the bottom its slot and the account make, if they make one. */
  function RootFromProof(a: Address, account: Option<Account>, proof: MerkleProof): Option<Digest> {
    if |proof.siblings| > DEPTH then None
    else
      match Bottom(a, account, |proof.siblings|, proof.slot)
      case None => None
      case Some(bottom) => Some(PathHash(a, 0, proof.siblings, bottom))
  }

  predicate VerifyProof(root: Digest, a: Address, account: Option<Account>, proof: MerkleProof) {
    RootFromProof(a, account, proof) == Some(root)
  }

  /** The proof a canonical tree gives for a: the other child's hash at each branch on the way. */
  function Prove(t: Tree, d: nat, a: Address): MerkleProof
    requires Canonical(t, d)
  {
    match t
    case Empty => MerkleProof([], Own)
    case Leaf(held, y) => MerkleProof([], if held == a then Own else Neighbor(held, y))
    case Branch(_, left, right) =>
      if BitAt(a, d) == 0 then
        var p := Prove(left, d + 1, a);
        MerkleProof([Hash(right)] + p.siblings, p.slot)
      else
        var p := Prove(right, d + 1, a);
        MerkleProof([Hash(left)] + p.siblings, p.slot)
  }

  // ----- prover and verifier agree on splitting -----

  lemma {:induction false} SplitIsPath(d: nat, a: Address, x: Account, b: Address, y: Account)
    requires a != b && d <= CommonPrefixLen(a, b)
    ensures Hash(Split(d, a, x, b, y)) == SubtreeWithBoth(d, a, x, b, y)
    decreases DEPTH - d
  {
    CommonPrefixIsFirstDivergence(a, b);
    if BitAt(a, d) == BitAt(b, d) {
      assert SharePrefix(a, b, d + 1);
      SplitIsPath(d + 1, a, x, b, y);
      var n := CommonPrefixLen(a, b) - d;
      assert EmptySiblings(n)[1..] == EmptySiblings(n - 1);
    } else {
      assert !SharePrefix(a, b, d + 1);
    }
  }

  lemma {:induction false} SplitCommutes(d: nat, a: Address, x: Account, b: Address, y: Account)
    requires a != b && d <= CommonPrefixLen(a, b)
    ensures d <= CommonPrefixLen(b, a)
    ensures Split(d, a, x, b, y) == Split(d, b, y, a, x)
    decreases DEPTH - d
  {
    CommonPrefixSymmetric(a, b);
    CommonPrefixIsFirstDivergence(a, b);
    if BitAt(a, d) == BitAt(b, d) {
      assert SharePrefix(a, b, d + 1);
      SplitCommutes(d + 1, a, x, b, y);
    }
  }

  /**
   * For every depth down to where two addresses part, the prover's split is a canonical subtree over
   * exactly the two accounts, and its hash is what the verifier computes, in either order.
   */
  lemma SplitAgreement(d: nat, a: Address, x: Account, b: Address, y: Account)
    requires a != b && d <= CommonPrefixLen(a, b)
    ensures d <= CommonPrefixLen(b, a)
    ensures Canonical(Split(d, a, x, b, y), d)
    ensures Accounts(Split(d, a, x, b, y)) == map[a := x, b := y]
    ensures Hash(Split(d, a, x, b, y)) == SubtreeWithBoth(d, a, x, b, y)
    ensures Hash(Split(d, a, x, b, y)) == SubtreeWithBoth(d, b, y, a, x)
  {
    CommonPrefixSymmetric(a, b);
    SplitHoldsBoth(d, a, x, b, y);
    SplitIsPath(d, a, x, b, y);
    SplitCommutes(d, a, x, b, y);
    SplitIsPath(d, b, y, a, x);
  }

  // ----- a tree's own proofs verify -----

  /** The proof a tree makes for any address reproduces its hash, never running past the last bit. */
  lemma {:induction false} ProveReproduces(t: Tree, d: nat, a: Address)
    requires d <= DEPTH && Canonical(t, d) && Under(t, d, a)
    ensures var p := Prove(t, d, a);
            && d + |p.siblings| <= DEPTH
            && var bottom := Bottom(a, Find(Accounts(t), a), d + |p.siblings|, p.slot);
            && bottom.Some?
            && PathHash(a, d, p.siblings, bottom.value) == Hash(t)
  {
    hide BitAt, CommonPrefixLen;
    if t.Branch? {
      UnderChild(t, d, a);
      assert a in Accounts(t.left) ==> BitAt(a, d) == 0;
      assert a in Accounts(t.right) ==> BitAt(a, d) == 1;
      var side := if BitAt(a, d) == 0 then t.left else t.right;
      var other := if BitAt(a, d) == 0 then t.right else t.left;
      ProveReproduces(side, d + 1, a);
      var p := Prove(side, d + 1, a);
      assert ([Hash(other)] + p.siblings)[1..] == p.siblings;
    } else if t.Leaf? && t.address != a {
      assert t.address in Accounts(t);
      CommonPrefixIsFirstDivergence(t.address, a);
      CommonPrefixSymmetric(t.address, a);
    }
  }

  // ----- a fabricated witness proves nothing false, and one witness serves both roots -----

  lemma InsertIsOnly(t: Tree, d: nat, a: Address, x: Account, s: Tree)
    requires d <= DEPTH && Canonical(t, d) && Under(t, d, a)
    requires Canonical(s, d) && Accounts(s) == Accounts(t)[a := x]
    ensures s == Insert(t, d, a, x)
  {
    InsertUpdates(t, d, a, x);
    ContentsDetermineTree(Insert(t, d, a, x), s, d);
  }

  /** The case a tree never proves itself: the neighbour slot with the address already beside it. */
  lemma BesideNeighborBinds(t: Tree, d: nat, a: Address, z: Account, b: Address, y: Account, x: Account)
    requires d <= DEPTH && Canonical(t, d) && Under(t, d, a)
    requires CheckNeighbor(a, b, d) && SubtreeWithBoth(d, a, z, b, y) == Hash(t)
    ensures Find(Accounts(t), a) == Some(z)
    ensures SubtreeWithBoth(d, a, x, b, y) == Hash(Insert(t, d, a, x))
  {
    hide BitAt, CommonPrefixLen, Canonical, Under, Split, SubtreeWithBoth, Insert, Accounts, Hash;
    SplitAgreement(d, a, z, b, y);
    SplitAgreement(d, a, x, b, y);
    var before, after := Split(d, a, z, b, y), Split(d, a, x, b, y);
    HashDeterminesTree(t, before, d);
    assert Accounts(after) == Accounts(before)[a := x];
    InsertIsOnly(t, d, a, x, after);
  }

  /** The end of a path says what the subtree there holds, and what writing to it makes of it. */
  lemma BottomBinds(t: Tree, d: nat, a: Address, prior: Option<Account>, slot: Slot, x: Account)
    requires d <= DEPTH && Canonical(t, d) && Under(t, d, a)
    requires Bottom(a, prior, d, slot) == Some(Hash(t))
    ensures Find(Accounts(t), a) == prior
    ensures Bottom(a, Some(x), d, slot) == Some(Hash(Insert(t, d, a, x)))
  {
    hide BitAt, CommonPrefixLen, Under;
    match (slot, prior)
    case (Own, _) =>
    case (Neighbor(b, y), None) =>
      SplitAgreement(d, a, x, b, y);
      InsertIsOnly(t, d, a, x, Split(d, a, x, b, y));
    case (Neighbor(b, y), Some(z)) =>
      BesideNeighborBinds(t, d, a, z, b, y, x);
  }

  lemma {:induction false} PathBinds(
    t: Tree, d: nat, a: Address, prior: Option<Account>, siblings: seq<Digest>, slot: Slot, x: Account)
    requires d + |siblings| <= DEPTH && Canonical(t, d) && Under(t, d, a)
    requires Bottom(a, prior, d + |siblings|, slot).Some?
    requires PathHash(a, d, siblings, Bottom(a, prior, d + |siblings|, slot).value) == Hash(t)
    ensures Find(Accounts(t), a) == prior
    ensures Bottom(a, Some(x), d + |siblings|, slot).Some?
    ensures PathHash(a, d, siblings, Bottom(a, Some(x), d + |siblings|, slot).value)
         == Hash(Insert(t, d, a, x))
    decreases |siblings|
  {
    hide BitAt, CommonPrefixLen, Under, Bottom;
    if siblings == [] {
      BottomBinds(t, d, a, prior, slot, x);
    } else {
      UnderChild(t, d, a);
      assert a in Accounts(t.left) ==> BitAt(a, d) == 0;
      assert a in Accounts(t.right) ==> BitAt(a, d) == 1;
      var side := if BitAt(a, d) == 0 then t.left else t.right;
      PathBinds(side, d + 1, a, prior, siblings[1..], slot, x);
    }
  }

  /**
   * Whatever siblings and slot a witness carries, if it reproduces the root of an account map then
   * the map holds exactly what the witness says at that address, and the same witness yields the
   * root after any write there.
   */
  lemma WitnessBinding(m: map<Address, Account>, a: Address, prior: Option<Account>, proof: MerkleProof, x: Account)
    requires RootFromProof(a, prior, proof) == Some(Root(m))
    ensures Find(m, a) == prior
    ensures RootFromProof(a, Some(x), proof) == Some(Root(m[a := x]))
  {
    PathBinds(TreeOf(m), 0, a, prior, proof.siblings, proof.slot, x);
    InsertIntoRoot(m, a, x);
  }

  /** What a tree proves for an address verifies, for presence and absence alike. */
  lemma HonestProofVerifies(m: map<Address, Account>, a: Address)
    ensures VerifyProof(Root(m), a, Find(m, a), Prove(TreeOf(m), 0, a))
    ensures |Prove(TreeOf(m), 0, a).siblings| <= DEPTH
  {
    ProveReproduces(TreeOf(m), 0, a);
  }

  /** Some proof verifies for a claim about an address exactly when the claim is true. */
  lemma ProofsAreExact(m: map<Address, Account>, a: Address, claim: Option<Account>)
    ensures (exists proof :: VerifyProof(Root(m), a, claim, proof)) <==> Find(m, a) == claim
  {
    HonestProofVerifies(m, a);
    forall proof | VerifyProof(Root(m), a, claim, proof)
      ensures Find(m, a) == claim
    {
      WitnessBinding(m, a, claim, proof, Account(0, 0, a));
    }
  }

  // ----- the verifier's loops -----

  /** Hashing one more level at the bottom of a path is the path with one sibling fewer. */
  lemma {:induction false} PathPeel(a: Address, d: nat, siblings: seq<Digest>, current: Digest)
    requires siblings != [] && d + |siblings| <= DEPTH
    ensures PathHash(a, d, siblings, current)
         == PathHash(a, d, siblings[..|siblings| - 1],
                     if BitAt(a, d + |siblings| - 1) == 0 then NodeHash(current, siblings[|siblings| - 1])
                     else NodeHash(siblings[|siblings| - 1], current))
    decreases |siblings|
  {
    var n := |siblings| - 1;
    if n > 0 {
      PathPeel(a, d + 1, siblings[1..], current);
      assert siblings[1..][..n - 1] == siblings[..n][1..];
    }
  }

  lemma PeelOneLevel(a: Address, d: nat, siblings: seq<Digest>, level: nat, current: Digest)
    requires level < |siblings| && d + |siblings| <= DEPTH
    ensures PathHash(a, d, siblings[..level + 1], current)
         == PathHash(a, d, siblings[..level],
                     if BitAt(a, d + level) == 0 then NodeHash(current, siblings[level])
                     else NodeHash(siblings[level], current))
  {
    PathPeel(a, d, siblings[..level + 1], current);
    assert siblings[..level + 1][..level] == siblings[..level];
  }

  method ComputeSubtreeWithBoth(d: nat, a: Address, x: Account, b: Address, y: Account)
    returns (current: Digest)
    requires a != b && d <= CommonPrefixLen(a, b)
    ensures current == SubtreeWithBoth(d, a, x, b, y)
  {
    CommonPrefixIsFirstDivergence(a, b);
    var split := CommonPrefixLength(a, b);
    var own, other := LeafHash(a, x), LeafHash(b, y);
    current := if BitAt(a, split) == 0 then NodeHash(own, other) else NodeHash(other, own);

    ghost var padding := EmptySiblings(split - d);
    assert padding[..split - d] == padding;
    var level := split;
    while level > d
      invariant d <= level <= split
      invariant PathHash(a, d, padding[..level - d], current) == SubtreeWithBoth(d, a, x, b, y)
    {
      level := level - 1;
      PeelOneLevel(a, d, padding, level - d, current);
      current := if BitAt(a, level) == 0 then NodeHash(current, Zero) else NodeHash(Zero, current);
    }
  }

  method ComputeRoot(a: Address, account: Option<Account>, proof: MerkleProof) returns (root: Option<Digest>)
    ensures root == RootFromProof(a, account, proof)
  {
    var depth := |proof.siblings|;
    if depth > DEPTH {
      return None;
    }

    var current;
    match proof.slot {
      case Own =>
        current := if account.None? then Zero else LeafHash(a, account.value);
      case Neighbor(neighbor, held) =>
        if !CheckNeighbor(a, neighbor, depth) {
          return None;
        }
        if account.None? {
          current := LeafHash(neighbor, held);
        } else {
          current := ComputeSubtreeWithBoth(depth, a, account.value, neighbor, held);
        }
    }

    assert proof.siblings[..depth] == proof.siblings;
    var level := depth;
    while level > 0
      invariant level <= depth
      invariant RootFromProof(a, account, proof) == Some(PathHash(a, 0, proof.siblings[..level], current))
    {
      level := level - 1;
      PeelOneLevel(a, 0, proof.siblings, level, current);
      current := if BitAt(a, level) == 0 then NodeHash(current, proof.siblings[level])
                 else NodeHash(proof.siblings[level], current);
    }
    return Some(current);
  }
}
