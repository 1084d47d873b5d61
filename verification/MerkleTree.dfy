/** The compressed sparse Merkle tree as a value, its canonical shape, and what writes do to it. */
module MerkleTree {
  import opened Types
  import opened Addresses

  /** A branch carries the cached hash of its two children. */
  datatype Tree =
    | Empty
    | Leaf(address: Address, account: Account)
    | Branch(cached: Digest, left: Tree, right: Tree)

  function Hash(t: Tree): Digest {
    match t
    case Empty => Zero
    case Leaf(address, account) => LeafHash(address, account)
    case Branch(cached, _, _) => cached
  }

  function MakeBranch(left: Tree, right: Tree): Tree {
    Branch(NodeHash(Hash(left), Hash(right)), left, right)
  }

  /** Everything the tree holds, with no regard to where. */
  function Accounts(t: Tree): map<Address, Account> {
    match t
    case Empty => map[]
    case Leaf(address, account) => map[address := account]
    case Branch(_, left, right) => Accounts(left) + Accounts(right)
  }

  /** Every account of t goes way b at depth d. */
  ghost predicate OnSide(t: Tree, d: nat, b: nat)
    requires d < DEPTH
  {
    forall x :: x in Accounts(t) ==> BitAt(x, d) == b
  }

  /** Every account of t agrees with a on the d bits that lead to t. */
  ghost predicate Under(t: Tree, d: nat, a: Address)
    requires d <= DEPTH
  {
    forall x :: x in Accounts(t) ==> SharePrefix(x, a, d)
  }

  /**
   * The shape contents alone determine: cached hashes are right, each leaf is on its address path,
   * and no branch stands over fewer than two accounts.
   */
  ghost predicate Canonical(t: Tree, d: nat) {
    match t
    case Empty => true
    case Leaf(_, _) => true
    case Branch(cached, left, right) =>
      && d < DEPTH
      && cached == NodeHash(Hash(left), Hash(right))
      && Canonical(left, d + 1)
      && Canonical(right, d + 1)
      && OnSide(left, d, 0)
      && OnSide(right, d, 1)
      && (left.Empty? ==> right.Branch?)
      && (right.Empty? ==> left.Branch?)
  }

  /**
   * The least subtree at depth d holding two accounts: a chain of one-child branches as far as the
   * addresses agree, then one branch with a leaf on each side.
   */
  function Split(d: nat, a: Address, x: Account, b: Address, y: Account): Tree
    requires a != b && d <= CommonPrefixLen(a, b)
    decreases DEPTH - d
  {
    CommonPrefixIsFirstDivergence(a, b);
    if BitAt(a, d) != BitAt(b, d) then
      if BitAt(a, d) == 0 then MakeBranch(Leaf(a, x), Leaf(b, y))
      else MakeBranch(Leaf(b, y), Leaf(a, x))
    else
      assert SharePrefix(a, b, d + 1);
      if BitAt(a, d) == 0 then MakeBranch(Split(d + 1, a, x, b, y), Empty)
      else MakeBranch(Empty, Split(d + 1, a, x, b, y))
  }

  /** One level of a split: the two leaves where the addresses part, a one-child branch above. */
  lemma SplitLevel(d: nat, a: Address, x: Account, b: Address, y: Account)
    requires a != b && d <= CommonPrefixLen(a, b)
    ensures d < DEPTH
    ensures BitAt(a, d) == BitAt(b, d) <==> d < CommonPrefixLen(a, b)
    ensures d < CommonPrefixLen(a, b) ==>
              Split(d, a, x, b, y) ==
              if BitAt(a, d) == 0 then MakeBranch(Split(d + 1, a, x, b, y), Empty)
              else MakeBranch(Empty, Split(d + 1, a, x, b, y))
    ensures d == CommonPrefixLen(a, b) ==>
              Split(d, a, x, b, y) ==
              if BitAt(a, d) == 0 then MakeBranch(Leaf(a, x), Leaf(b, y))
              else MakeBranch(Leaf(b, y), Leaf(a, x))
  {
    CommonPrefixIsFirstDivergence(a, b);
  }

  lemma UnderChild(t: Tree, d: nat, a: Address)
    requires d <= DEPTH && Canonical(t, d) && t.Branch? && Under(t, d, a)
    ensures BitAt(a, d) == 0 ==> Under(t.left, d + 1, a)
    ensures BitAt(a, d) == 1 ==> Under(t.right, d + 1, a)
  {
    forall x | x in Accounts(t) && BitAt(x, d) == BitAt(a, d)
      ensures SharePrefix(x, a, d + 1)
    {
      assert SharePrefix(x, a, d);
    }
  }

  /** Map update on Accounts(t), keeping Canonical(t, d). */
  function Insert(t: Tree, d: nat, a: Address, x: Account): Tree
    requires d <= DEPTH && Canonical(t, d) && Under(t, d, a)
  {
    match t
    case Empty => Leaf(a, x)
    case Leaf(held, y) =>
      if held == a then Leaf(held, x)
      else
        CommonPrefixIsFirstDivergence(held, a);
        assert held in Accounts(t);
        Split(d, held, y, a, x)
    case Branch(_, left, right) =>
      UnderChild(t, d, a);
      if BitAt(a, d) == 0 then
        MakeBranch(Insert(left, d + 1, a, x), right)
      else
        MakeBranch(left, Insert(right, d + 1, a, x))
  }

  /** The canonical tree over two children, when one of them may have lost an account. */
  function Collapse(t: Tree): Tree {
    match t
    case Branch(_, Empty, Empty) => Empty
    case Branch(_, Leaf(a, x), Empty) => Leaf(a, x)
    case Branch(_, Empty, Leaf(a, x)) => Leaf(a, x)
    case _ => t
  }

  /** Clear the slot of an address, collapsing on the way back up. */
  function Remove(t: Tree, d: nat, a: Address): Tree
    requires Canonical(t, d)
  {
    match t
    case Empty => Empty
    case Leaf(held, _) => if held == a then Empty else t
    case Branch(_, left, right) =>
      if BitAt(a, d) == 0 then
        Collapse(MakeBranch(Remove(left, d + 1, a), right))
      else
        Collapse(MakeBranch(left, Remove(right, d + 1, a)))
  }

  function Find(m: map<Address, Account>, a: Address): Option<Account> {
    if a in m then Some(m[a]) else None
  }

  // ----- what writes do -----

  lemma PairIsCanonical(d: nat, a: Address, x: Account, b: Address, y: Account)
    requires d < DEPTH && BitAt(a, d) == 0 && BitAt(b, d) == 1
    ensures Canonical(MakeBranch(Leaf(a, x), Leaf(b, y)), d)
    ensures Accounts(MakeBranch(Leaf(a, x), Leaf(b, y))) == map[a := x, b := y]
  {
  }

  lemma OneChildIsCanonical(t: Tree, d: nat, bit: nat)
    requires d < DEPTH && Canonical(t, d + 1) && t.Branch? && OnSide(t, d, bit)
    ensures bit == 0 ==> Canonical(MakeBranch(t, Empty), d)
    ensures bit == 1 ==> Canonical(MakeBranch(Empty, t), d)
    ensures Accounts(MakeBranch(t, Empty)) == Accounts(MakeBranch(Empty, t)) == Accounts(t)
  {
  }

  /** A split holds exactly the two accounts, in canonical shape, whichever comes first. */
  lemma {:induction false} SplitHoldsBoth(d: nat, a: Address, x: Account, b: Address, y: Account)
    requires a != b && d <= CommonPrefixLen(a, b)
    ensures Canonical(Split(d, a, x, b, y), d)
    ensures Split(d, a, x, b, y).Branch?
    ensures Accounts(Split(d, a, x, b, y)) == map[a := x, b := y]
    decreases DEPTH - d
  {
    hide BitAt, CommonPrefixLen, Split, Canonical;
    SplitLevel(d, a, x, b, y);
    if d < CommonPrefixLen(a, b) {
      SplitHoldsBoth(d + 1, a, x, b, y);
      OneChildIsCanonical(Split(d + 1, a, x, b, y), d, BitAt(a, d));
    } else if BitAt(a, d) == 0 {
      PairIsCanonical(d, a, x, b, y);
    } else {
      PairIsCanonical(d, b, y, a, x);
    }
  }

  lemma UpdateUnion(l: map<Address, Account>, r: map<Address, Account>, a: Address, x: Account)
    ensures a !in r ==> l[a := x] + r == (l + r)[a := x]
    ensures l + r[a := x] == (l + r)[a := x]
  {
  }

  /** A side that took one more account of its own keeps the branch canonical. */
  lemma BranchWithSide(t: Tree, d: nat, a: Address, x: Account, side: Tree)
    requires Canonical(t, d) && t.Branch?
    requires Canonical(side, d + 1) && !side.Empty?
    requires BitAt(a, d) == 0 ==>
               Accounts(side) == Accounts(t.left)[a := x] && (t.left.Branch? ==> side.Branch?)
    requires BitAt(a, d) == 1 ==>
               Accounts(side) == Accounts(t.right)[a := x] && (t.right.Branch? ==> side.Branch?)
    ensures var r := if BitAt(a, d) == 0 then MakeBranch(side, t.right) else MakeBranch(t.left, side);
            Canonical(r, d) && Accounts(r) == Accounts(t)[a := x]
  {
    UpdateUnion(Accounts(t.left), Accounts(t.right), a, x);
    if BitAt(a, d) == 0 {
      assert OnSide(side, d, 0);
      assert a !in Accounts(t.right);
    } else {
      assert OnSide(side, d, 1);
    }
  }

  /** Insertion is map update, and the result is canonical again. */
  lemma {:induction false} InsertUpdates(t: Tree, d: nat, a: Address, x: Account)
    requires d <= DEPTH && Canonical(t, d) && Under(t, d, a)
    ensures Canonical(Insert(t, d, a, x), d)
    ensures Accounts(Insert(t, d, a, x)) == Accounts(t)[a := x]
    ensures t.Branch? ==> Insert(t, d, a, x).Branch?
    ensures !Insert(t, d, a, x).Empty?
  {
    hide BitAt, CommonPrefixLen, OnSide;
    if t.Branch? {
      UnderChild(t, d, a);
      var side := if BitAt(a, d) == 0 then t.left else t.right;
      InsertUpdates(side, d + 1, a, x);
      BranchWithSide(t, d, a, x, Insert(side, d + 1, a, x));
    } else if t.Leaf? && t.address != a {
      CommonPrefixIsFirstDivergence(t.address, a);
      assert t.address in Accounts(t);
      SplitHoldsBoth(d, t.address, t.account, a, x);
    }
  }

  /** Collapsing a branch over canonical sides makes it canonical and loses nothing. */
  lemma CollapseKeeps(left: Tree, right: Tree, d: nat)
    requires d < DEPTH && Canonical(left, d + 1) && Canonical(right, d + 1)
    requires OnSide(left, d, 0) && OnSide(right, d, 1)
    ensures Canonical(Collapse(MakeBranch(left, right)), d)
    ensures Accounts(Collapse(MakeBranch(left, right))) == Accounts(left) + Accounts(right)
  {
  }

  lemma DeleteFromUnion(l: map<Address, Account>, r: map<Address, Account>, a: Address)
    ensures a !in r ==> (l - {a}) + r == (l + r) - {a}
    ensures a !in l ==> l + (r - {a}) == (l + r) - {a}
  {
  }

  /** Removal is map deletion, and the result is canonical again. */
  lemma {:induction false} RemoveDeletes(t: Tree, d: nat, a: Address)
    requires Canonical(t, d)
    ensures Canonical(Remove(t, d, a), d)
    ensures Accounts(Remove(t, d, a)) == Accounts(t) - {a}
  {
    hide BitAt;
    match t
    case Empty =>
    case Leaf(held, y) =>
    case Branch(_, left, right) =>
      DeleteFromUnion(Accounts(left), Accounts(right), a);
      if BitAt(a, d) == 0 {
        RemoveDeletes(left, d + 1, a);
        CollapseKeeps(Remove(left, d + 1, a), right, d);
      } else {
        RemoveDeletes(right, d + 1, a);
        CollapseKeeps(left, Remove(right, d + 1, a), d);
      }
  }

  // ----- contents determine the shape -----

  /** A branch of a canonical tree stands over at least two accounts. */
  lemma {:induction false} BranchHoldsTwo(t: Tree, d: nat) returns (a: Address, b: Address)
    requires Canonical(t, d) && t.Branch?
    ensures a != b && a in Accounts(t) && b in Accounts(t)
  {
    if t.left.Branch? {
      a, b := BranchHoldsTwo(t.left, d + 1);
    } else if t.right.Branch? {
      a, b := BranchHoldsTwo(t.right, d + 1);
    } else {
      a, b := t.left.address, t.right.address;
      assert a in Accounts(t.left) && b in Accounts(t.right);
    }
  }

  lemma LeafHolds(t: Tree)
    requires t.Leaf?
    ensures t.address in Accounts(t)
  {
  }

  lemma {:induction false} SideContents(t: Tree, d: nat)
    requires Canonical(t, d) && t.Branch?
    ensures Accounts(t.left) == map x | x in Accounts(t) && BitAt(x, d) == 0 :: Accounts(t)[x]
    ensures Accounts(t.right) == map x | x in Accounts(t) && BitAt(x, d) == 1 :: Accounts(t)[x]
  {
  }

  /** Two canonical trees with the same accounts are the same tree. */
  lemma {:induction false} ContentsDetermineTree(s: Tree, t: Tree, d: nat)
    requires Canonical(s, d) && Canonical(t, d)
    requires Accounts(s) == Accounts(t)
    ensures s == t
    decreases s
  {
    if s.Branch? && t.Branch? {
      SideContents(s, d);
      SideContents(t, d);
      ContentsDetermineTree(s.left, t.left, d + 1);
      ContentsDetermineTree(s.right, t.right, d + 1);
    } else if s.Branch? {
      var a, b := BranchHoldsTwo(s, d);
      assert false;
    } else if t.Branch? {
      var a, b := BranchHoldsTwo(t, d);
      assert false;
    } else if s.Leaf? {
      assert s.address in Accounts(t);
      assert Accounts(s)[s.address] == Accounts(t)[s.address];
    } else if t.Leaf? {
      LeafHolds(t);
    }
  }

  /** A root commits to the whole tree. */
  lemma {:induction false} HashDeterminesTree(s: Tree, t: Tree, d: nat)
    requires Canonical(s, d) && Canonical(t, d)
    requires Hash(s) == Hash(t)
    ensures s == t
    decreases s
  {
    if s.Branch? {
      HashDeterminesTree(s.left, t.left, d + 1);
      HashDeterminesTree(s.right, t.right, d + 1);
    }
  }

  // ----- the tree of a map -----

  /** The one canonical tree holding exactly m. */
  ghost function TreeOf(m: map<Address, Account>): (t: Tree)
    ensures Canonical(t, 0)
    ensures Accounts(t) == m
    decreases |m|
  {
    if m == map[] then Empty
    else
      var a :| a in m;
      var rest := TreeOf(m - {a});
      InsertUpdates(rest, 0, a, m[a]);
      RestoreKey(m, a);
      Insert(rest, 0, a, m[a])
  }

  lemma RestoreKey(m: map<Address, Account>, a: Address)
    requires a in m
    ensures (m - {a})[a := m[a]] == m
    ensures |m - {a}| < |m|
  {
    assert (m - {a}).Keys == m.Keys - {a};
  }

  /** The state root that commits to m. */
  ghost function Root(m: map<Address, Account>): Digest {
    Hash(TreeOf(m))
  }

  lemma TreeOfIsOnly(t: Tree)
    requires Canonical(t, 0)
    ensures t == TreeOf(Accounts(t))
  {
    ContentsDetermineTree(t, TreeOf(Accounts(t)), 0);
  }

  /** No two account maps share a state root. */
  lemma RootInjective(m: map<Address, Account>, n: map<Address, Account>)
    requires Root(m) == Root(n)
    ensures m == n
  {
    HashDeterminesTree(TreeOf(m), TreeOf(n), 0);
  }

  lemma InsertIntoRoot(m: map<Address, Account>, a: Address, x: Account)
    ensures Insert(TreeOf(m), 0, a, x) == TreeOf(m[a := x])
  {
    InsertUpdates(TreeOf(m), 0, a, x);
    TreeOfIsOnly(Insert(TreeOf(m), 0, a, x));
  }

  lemma RemoveFromRoot(m: map<Address, Account>, a: Address)
    ensures Remove(TreeOf(m), 0, a) == TreeOf(m - {a})
  {
    RemoveDeletes(TreeOf(m), 0, a);
    TreeOfIsOnly(Remove(TreeOf(m), 0, a));
  }

  /** Map update at an address, or map delete when there is no account. */
  datatype Write = Write(address: Address, account: Option<Account>)

  function ApplyToMap(m: map<Address, Account>, w: Write): map<Address, Account> {
    match w.account
    case Some(x) => m[w.address := x]
    case None => m - {w.address}
  }

  function WriteMap(m: map<Address, Account>, ws: seq<Write>): map<Address, Account>
    decreases |ws|
  {
    if ws == [] then m else WriteMap(ApplyToMap(m, ws[0]), ws[1..])
  }

  ghost function ApplyToTree(t: Tree, w: Write): (r: Tree)
    requires Canonical(t, 0)
    ensures Canonical(r, 0)
  {
    match w.account
    case Some(x) =>
      InsertUpdates(t, 0, w.address, x);
      Insert(t, 0, w.address, x)
    case None =>
      RemoveDeletes(t, 0, w.address);
      Remove(t, 0, w.address)
  }

  ghost function WriteTree(t: Tree, ws: seq<Write>): (r: Tree)
    requires Canonical(t, 0)
    ensures Canonical(r, 0)
    decreases |ws|
  {
    if ws == [] then t else WriteTree(ApplyToTree(t, ws[0]), ws[1..])
  }

  lemma {:induction false} WritesTrackMap(t: Tree, ws: seq<Write>)
    requires Canonical(t, 0)
    ensures WriteTree(t, ws) == TreeOf(WriteMap(Accounts(t), ws))
    decreases |ws|
  {
    TreeOfIsOnly(t);
    if ws != [] {
      var w := ws[0];
      match w.account {
        case Some(x) => InsertUpdates(t, 0, w.address, x);
        case None => RemoveDeletes(t, 0, w.address);
      }
      WritesTrackMap(ApplyToTree(t, w), ws[1..]);
    }
  }

  /** The root depends on what was written, never on the order or detours of writing it. */
  lemma RootIgnoresWriteOrder(ws: seq<Write>, vs: seq<Write>)
    ensures Hash(WriteTree(Empty, ws)) == Hash(WriteTree(Empty, vs))
       <==> WriteMap(map[], ws) == WriteMap(map[], vs)
  {
    WritesTrackMap(Empty, ws);
    WritesTrackMap(Empty, vs);
    if Hash(WriteTree(Empty, ws)) == Hash(WriteTree(Empty, vs)) {
      RootInjective(WriteMap(map[], ws), WriteMap(map[], vs));
    }
  }
}
