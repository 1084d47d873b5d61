/** The tree as the ledger holds it: branches on the heap, rewritten in place. */
module SparseMerkleTrees {
  import opened Types
  import opened Addresses
  import MT = MerkleTree
  import MP = MerkleProofs

  datatype Node = EmptyNode | LeafNode(address: Address, account: Account) | BranchNode(branch: Branch)

  ghost function ReprOf(n: Node): set<object>
    reads if n.BranchNode? then {n.branch} else {}
  {
    if n.BranchNode? then n.branch.Repr else {}
  }

  /** The tree value a node stands for. */
  ghost function ViewOf(n: Node): MT.Tree
    reads if n.BranchNode? then {n.branch} else {}
  {
    match n
    case EmptyNode => MT.Empty
    case LeafNode(a, x) => MT.Leaf(a, x)
    case BranchNode(b) => b.View
  }

  ghost predicate ValidNode(n: Node)
    reads if n.BranchNode? then {n.branch} + n.branch.Repr else {}
  {
    n.BranchNode? ==> n.branch.Valid()
  }

  function HashOf(n: Node): Digest
    reads if n.BranchNode? then {n.branch} else {}
  {
    match n
    case EmptyNode => Zero
    case LeafNode(a, x) => LeafHash(a, x)
    case BranchNode(b) => b.hash
  }

  lemma HashOfView(n: Node)
    requires ValidNode(n)
    ensures HashOf(n) == MT.Hash(ViewOf(n))
    ensures n.BranchNode? <==> ViewOf(n).Branch?
  {
  }

  class Branch {
    /** Valid() holds this to NodeHash of the children's hashes, through View. */
    var hash: Digest
    var left: Node
    var right: Node
    ghost var Repr: set<object>
    ghost var View: MT.Tree

    ghost predicate Valid()
      reads this, Repr
      ensures Valid() ==> this in Repr
      decreases Repr
    {
      && this in Repr
      && (left.BranchNode? ==>
            && left.branch in Repr && left.branch.Repr < Repr && this !in left.branch.Repr
            && left.branch.Valid())
      && (right.BranchNode? ==>
            && right.branch in Repr && right.branch.Repr < Repr && this !in right.branch.Repr
            && right.branch.Valid())
      && (left.BranchNode? && right.BranchNode? ==> left.branch.Repr !! right.branch.Repr)
      && View == MT.Branch(hash, ViewOf(left), ViewOf(right))
    }

    /** What validity says one level down. */
    lemma Children()
      requires Valid()
      ensures ValidNode(left) && ReprOf(left) < Repr
      ensures ValidNode(right) && ReprOf(right) < Repr
      ensures View == MT.Branch(hash, ViewOf(left), ViewOf(right))
    {
    }

    constructor (l: Node, r: Node)
      requires ValidNode(l) && ValidNode(r) && ReprOf(l) !! ReprOf(r)
      ensures Valid() && Repr == {this} + ReprOf(l) + ReprOf(r)
      ensures View == MT.MakeBranch(ViewOf(l), ViewOf(r))
    {
      left, right := l, r;
      Repr := {this} + ReprOf(l) + ReprOf(r);
      hash := NodeHash(HashOf(l), HashOf(r));
      View := MT.MakeBranch(ViewOf(l), ViewOf(r));
    }

    /** Bring the cached hash, and with it the view, up to date with the children. */
    method Rehash()
      requires ValidNode(left) && ValidNode(right)
      requires this !in ReprOf(left) && this !in ReprOf(right) && ReprOf(left) !! ReprOf(right)
      modifies this`hash, this`Repr, this`View
      ensures Valid() && Repr == {this} + ReprOf(left) + ReprOf(right)
      ensures View == MT.MakeBranch(ViewOf(left), ViewOf(right))
    {
      hash := NodeHash(HashOf(left), HashOf(right));
      Repr := {this} + ReprOf(left) + ReprOf(right);
      View := MT.MakeBranch(ViewOf(left), ViewOf(right));
    }

    /** Put a rewritten child on side b and rehash. */
    method SetChild(b: nat, child: Node)
      requires ValidNode(child) && this !in ReprOf(child)
      requires var other := if b == 0 then right else left;
        ValidNode(other) && this !in ReprOf(other) && ReprOf(other) !! ReprOf(child)
      modifies this
      ensures Valid()
      ensures b == 0 ==> View == MT.MakeBranch(ViewOf(child), old(ViewOf(right)))
      ensures b == 0 ==> Repr == {this} + ReprOf(child) + old(ReprOf(right))
      ensures b != 0 ==> View == MT.MakeBranch(old(ViewOf(left)), ViewOf(child))
      ensures b != 0 ==> Repr == {this} + old(ReprOf(left)) + ReprOf(child)
    {
      if b == 0 {
        left := child;
      } else {
        right := child;
      }
      Rehash();
    }
  }

  /** Write an account into the slot for a, returning what the node becomes. */
  method InsertNode(n: Node, d: nat, a: Address, x: Account) returns (r: Node)
    requires ValidNode(n)
    requires d <= DEPTH && MT.Canonical(ViewOf(n), d) && MT.Under(ViewOf(n), d, a)
    modifies ReprOf(n)
    ensures ValidNode(r) && fresh(ReprOf(r) - old(ReprOf(n)))
    ensures ViewOf(r) == MT.Insert(old(ViewOf(n)), d, a, x)
    decreases ReprOf(n)
  {
    hide BitAt, CommonPrefixLen, MT.OnSide;
    match n {
      case EmptyNode =>
        return LeafNode(a, x);
      case LeafNode(held, y) =>
        if held == a {
          return LeafNode(held, x);
        }
        CommonPrefixIsFirstDivergence(held, a);
        assert held in MT.Accounts(ViewOf(n));
        r := SplitNodes(d, held, y, a, x);
      case BranchNode(b) =>
        MT.UnderChild(b.View, d, a);
        var bit := BitAt(a, d);
        var child := InsertNode(if bit == 0 then b.left else b.right, d + 1, a, x);
        b.SetChild(bit, child);
        return n;
    }
  }

  /** MT.Collapse on a node: a branch over two empties, or over a leaf and an empty, gives way to its content. */
  method CollapseNode(n: Node) returns (r: Node)
    requires ValidNode(n)
    ensures ValidNode(r) && ReprOf(r) <= ReprOf(n)
    ensures ViewOf(r) == MT.Collapse(ViewOf(n))
  {
    r := n;
    if n.BranchNode? {
      HashOfView(n.branch.left);
      HashOfView(n.branch.right);
      match (n.branch.left, n.branch.right) {
        case (EmptyNode, EmptyNode) => r := EmptyNode;
        case (LeafNode(a, x), EmptyNode) => r := LeafNode(a, x);
        case (EmptyNode, LeafNode(a, x)) => r := LeafNode(a, x);
        case (LeafNode(_, _), LeafNode(_, _)) =>
        case (BranchNode(_), _) =>
        case (_, BranchNode(_)) =>
      }
    }
  }

  /** MT.Remove on a node, rewriting the branches of ReprOf(n) in place. */
  method RemoveNode(n: Node, d: nat, a: Address) returns (r: Node)
    requires ValidNode(n) && MT.Canonical(ViewOf(n), d)
    modifies ReprOf(n)
    ensures ValidNode(r) && fresh(ReprOf(r) - old(ReprOf(n)))
    ensures ViewOf(r) == MT.Remove(old(ViewOf(n)), d, a)
    decreases ReprOf(n)
  {
    hide BitAt, MT.OnSide;
    match n {
      case EmptyNode =>
        return n;
      case LeafNode(held, _) =>
        return if held == a then EmptyNode else n;
      case BranchNode(b) =>
        var bit := BitAt(a, d);
        var child := RemoveNode(if bit == 0 then b.left else b.right, d + 1, a);
        b.SetChild(bit, child);
        r := CollapseNode(n);
    }
  }

  method NewBranch(l: Node, r: Node) returns (node: Node)
    requires ValidNode(l) && ValidNode(r) && ReprOf(l) !! ReprOf(r)
    ensures ValidNode(node) && ViewOf(node) == MT.MakeBranch(ViewOf(l), ViewOf(r))
    ensures node.BranchNode? && fresh(node.branch)
    ensures ReprOf(node) == {node.branch as object} + ReprOf(l) + ReprOf(r)
  {
    var branch := new Branch(l, r);
    node := BranchNode(branch);
  }

  /** A subtree at depth d holding exactly two accounts, built from the bottom up. */
  method SplitNodes(d: nat, a: Address, x: Account, b: Address, y: Account) returns (node: Node)
    requires a != b && d <= CommonPrefixLen(a, b)
    ensures ValidNode(node) && fresh(ReprOf(node))
    ensures ViewOf(node) == MT.Split(d, a, x, b, y)
  {
    hide BitAt, CommonPrefixLen, MT.Split, MT.MakeBranch;
    var split := CommonPrefixLength(a, b);
    MT.SplitLevel(split, a, x, b, y);
    node := if BitAt(a, split) == 0 then LeafNode(a, x) else LeafNode(b, y);
    var lower := if BitAt(a, split) == 0 then LeafNode(b, y) else LeafNode(a, x);
    node := NewBranch(node, lower);
    var level := split;
    while level > d
      invariant d <= level <= split
      invariant ValidNode(node) && fresh(ReprOf(node))
      invariant ViewOf(node) == MT.Split(level, a, x, b, y)
    {
      level := level - 1;
      MT.SplitLevel(level, a, x, b, y);
      var left := BitAt(a, level) == 0;
      ghost var below := ViewOf(node);
      node := NewBranch(if left then node else EmptyNode, if left then EmptyNode else node);
      assert ViewOf(node) == if left then MT.MakeBranch(below, MT.Empty) else MT.MakeBranch(MT.Empty, below);
    }
  }

  lemma Associate<T>(x: seq<T>, y: seq<T>, z: seq<T>)
    ensures (x + y) + z == x + (y + z)
  {
  }

  /** A proof from a branch is the other child's hash in front of a proof from the child on a's side. */
  lemma ProveAtBranch(t: MT.Tree, d: nat, a: Address)
    requires t.Branch? && MT.Canonical(t, d)
    ensures d < DEPTH && MT.Canonical(t.left, d + 1) && MT.Canonical(t.right, d + 1)
    ensures var left := BitAt(a, d) == 0;
            var side, other := if left then t.left else t.right, if left then t.right else t.left;
            MP.Prove(t, d, a) == MP.MerkleProof([MT.Hash(other)] + MP.Prove(side, d + 1, a).siblings,
                                                MP.Prove(side, d + 1, a).slot)
  {
    hide BitAt, MT.OnSide, MT.Under;
  }

  /** MP.Prove on a node, its siblings appended to those already pushed. */
  method ProveNode(n: Node, d: nat, a: Address, siblings: seq<Digest>) returns (pushed: seq<Digest>, slot: MP.Slot)
    requires ValidNode(n) && MT.Canonical(ViewOf(n), d)
    ensures pushed == siblings + MP.Prove(ViewOf(n), d, a).siblings
    ensures slot == MP.Prove(ViewOf(n), d, a).slot
    decreases ReprOf(n)
  {
    hide BitAt, MT.OnSide, MT.Under, Branch.Valid;
    match n {
      case EmptyNode =>
        return siblings, MP.Own;
      case LeafNode(held, y) =>
        return siblings, if held == a then MP.Own else MP.Neighbor(held, y);
      case BranchNode(b) =>
        hide MP.Prove, MT.Canonical;
        b.Children();
        ProveAtBranch(b.View, d, a);
        var left := BitAt(a, d) == 0;
        var side, other := if left then b.left else b.right, if left then b.right else b.left;
        HashOfView(other);
        pushed, slot := ProveNode(side, d + 1, a, siblings + [HashOf(other)]);
        Associate(siblings, [HashOf(other)], MP.Prove(ViewOf(side), d + 1, a).siblings);
    }
  }

  class SparseMerkleTree {
    var root: Node
    ghost var Repr: set<object>

    ghost predicate Valid()
      reads this, Repr
    {
      && this in Repr
      && (root.BranchNode? ==> root.branch in Repr && root.branch.Repr <= Repr)
      && this !in ReprOf(root)
      && ValidNode(root)
      && MT.Canonical(ViewOf(root), 0)
    }

    /** The accounts the tree commits to. */
    ghost function Contents(): map<Address, Account>
      reads this, Repr
      requires Valid()
    {
      MT.Accounts(ViewOf(root))
    }

    lemma RootNodeIsTreeOf()
      requires Valid()
      ensures ViewOf(root) == MT.TreeOf(Contents())
    {
      MT.TreeOfIsOnly(ViewOf(root));
    }

    constructor ()
      ensures Valid() && fresh(Repr) && Contents() == map[]
    {
      root := EmptyNode;
      Repr := {this};
    }

    method Root() returns (digest: Digest)
      requires Valid()
      ensures digest == MT.Root(Contents())
    {
      RootNodeIsTreeOf();
      digest := HashOf(root);
    }

    /** One write of MT.Write on Contents(), as insert or remove. */
    method Update(a: Address, account: Option<Account>)
      requires Valid()
      modifies Repr
      ensures Valid() && fresh(Repr - old(Repr))
      ensures Contents() == MT.ApplyToMap(old(Contents()), MT.Write(a, account))
    {
      var node;
      match account {
        case Some(x) =>
          MT.InsertUpdates(ViewOf(root), 0, a, x);
          node := InsertNode(root, 0, a, x);
        case None =>
          MT.RemoveDeletes(ViewOf(root), 0, a);
          node := RemoveNode(root, 0, a);
      }
      root := node;
      Repr := Repr + ReprOf(root);
    }

    /** MP.Prove of the only canonical tree with these Contents(). */
    method Proof(a: Address) returns (proof: MP.MerkleProof)
      requires Valid()
      ensures proof == MP.Prove(MT.TreeOf(Contents()), 0, a)
      ensures MP.VerifyProof(MT.Root(Contents()), a, MT.Find(Contents(), a), proof)
    {
      RootNodeIsTreeOf();
      MP.HonestProofVerifies(Contents(), a);
      var siblings, slot := ProveNode(root, 0, a, []);
      proof := MP.MerkleProof(siblings, slot);
    }
  }
}
