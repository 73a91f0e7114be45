/** The depth-32 incremental Merkle tree, over any hash.

    The hash is a parameter. Where soundness needs it not to collide, the statement
    names the two inputs that would. */
module Merkle {
  import opened Arithmetic

  /** A hash of a list of field elements. */
  type Hash = seq<nat> -> nat

  const DEPTH: nat := 32

  function Capacity(): (c: nat)
    ensures c == 4294967296
  {
    Pow2Add(8, 8);
    Pow2Add(16, 16);
    Pow2(DEPTH)
  }

  // ---------------------------------------------------------------- the specification

  function LeafAt(leaves: seq<nat>, i: nat): nat {
    if i < |leaves| then leaves[i] else 0
  }

  /** The root of the subtree of the given height, the index-th from the left. */
  function Subtree(h: Hash, leaves: seq<nat>, level: nat, index: nat): nat {
    if level == 0 then LeafAt(leaves, index) else
    h([Subtree(h, leaves, level - 1, 2 * index), Subtree(h, leaves, level - 1, 2 * index + 1)])
  }

  /** The root of an empty subtree. */
  function Zero(h: Hash, level: nat): nat {
    if level == 0 then 0 else h([Zero(h, level - 1), Zero(h, level - 1)])
  }

  function Root(h: Hash, leaves: seq<nat>): nat {
    Subtree(h, leaves, DEPTH, 0)
  }

  /** An index shifted right k times: that of the ancestor k levels up. */
  function Ancestor(i: nat, k: nat): nat {
    if k == 0 then i else Ancestor(i, k - 1) / 2
  }

  function Sibling(i: nat): nat {
    if i % 2 == 0 then i + 1 else i - 1
  }

  /** The pair hashed at one level: the running node on its own side of its sibling. */
  function Pair(i: nat, cur: nat, sib: nat): seq<nat> {
    if i % 2 == 0 then [cur, sib] else [sib, cur]
  }

  /** The node reached after the first k levels of a path. */
  function ClimbTo(h: Hash, leaf: nat, index: nat, path: seq<nat>, k: nat): nat
    requires k <= |path|
    decreases k, 0
  {
    if k == 0 then leaf else h(ClimbPair(h, leaf, index, path, k - 1))
  }

  /** The pair hashed at level k of a path. */
  function ClimbPair(h: Hash, leaf: nat, index: nat, path: seq<nat>, k: nat): seq<nat>
    requires k < |path|
    decreases k, 1
  {
    Pair(Ancestor(index, k), ClimbTo(h, leaf, index, path, k), path[k])
  }

  function RootFromPath(h: Hash, leaf: nat, index: nat, path: seq<nat>): nat {
    ClimbTo(h, leaf, index, path, |path|)
  }

  /** The siblings on the way from leaf i to the root. */
  function Path(h: Hash, leaves: seq<nat>, i: nat): (p: seq<nat>)
    ensures |p| == DEPTH
  {
    seq(DEPTH, k requires 0 <= k < DEPTH => Subtree(h, leaves, k, Sibling(Ancestor(i, k))))
  }

  // ---------------------------------------------------------------- subtrees

  lemma {:induction false} EmptyTree(h: Hash, level: nat, index: nat)
    ensures Subtree(h, [], level, index) == Zero(h, level)
  {
    if level > 0 {
      EmptyTree(h, level - 1, 2 * index);
      EmptyTree(h, level - 1, 2 * index + 1);
    }
  }

  /** Two leaf lists that agree but at i agree on every subtree that does not hold i. */
  lemma {:induction false} Untouched(h: Hash, a: seq<nat>, b: seq<nat>, i: nat, level: nat, index: nat)
    requires forall j | j != i :: LeafAt(a, j) == LeafAt(b, j)
    requires Ancestor(i, level) != index
    ensures Subtree(h, a, level, index) == Subtree(h, b, level, index)
  {
    if level > 0 {
      Untouched(h, a, b, i, level - 1, 2 * index);
      Untouched(h, a, b, i, level - 1, 2 * index + 1);
    }
  }

  /** A node is the hash of the pair on either side of it. */
  lemma NodePair(h: Hash, leaves: seq<nat>, level: nat, i: nat)
    ensures Subtree(h, leaves, level + 1, i / 2) ==
            h(Pair(i, Subtree(h, leaves, level, i), Subtree(h, leaves, level, Sibling(i))))
  {
    if i % 2 == 0 {
      assert 2 * (i / 2) == i;
    } else {
      assert 2 * (i / 2) + 1 == i;
    }
  }

  lemma {:induction false} TopAncestor(i: nat, k: nat, n: nat)
    requires i < Pow2(n) && k <= n
    ensures Ancestor(i, k) < Pow2(n - k)
  {
    if k > 0 {
      TopAncestor(i, k - 1, n);
    }
  }

  // ---------------------------------------------------------------- paths

  ghost predicate Siblings(h: Hash, leaves: seq<nat>, i: nat, path: seq<nat>) {
    forall k | 0 <= k < |path| :: path[k] == Subtree(h, leaves, k, Sibling(Ancestor(i, k)))
  }

  /** A tree's own path leads from the leaf to every node above it. */
  lemma {:induction false} PathClimbs(h: Hash, leaves: seq<nat>, i: nat, path: seq<nat>, k: nat)
    requires k <= |path| && Siblings(h, leaves, i, path)
    ensures ClimbTo(h, LeafAt(leaves, i), i, path, k) == Subtree(h, leaves, k, Ancestor(i, k))
  {
    hide Subtree, Pair, LeafAt;
    if k == 0 {
      LeafLevel(h, leaves, i);
    } else {
      PathClimbs(h, leaves, i, path, k - 1);
      NodePair(h, leaves, k - 1, Ancestor(i, k - 1));
    }
  }

  lemma LeafLevel(h: Hash, leaves: seq<nat>, i: nat)
    ensures Subtree(h, leaves, 0, i) == LeafAt(leaves, i)
  {
  }

  /** Every leaf's path leads to the root. */
  lemma PathReachesRoot(h: Hash, leaves: seq<nat>, i: nat)
    requires i < Capacity()
    ensures RootFromPath(h, LeafAt(leaves, i), i, Path(h, leaves, i)) == Root(h, leaves)
  {
    hide Subtree, ClimbTo, Ancestor;
    PathClimbs(h, leaves, i, Path(h, leaves, i), DEPTH);
    TopAncestor(i, DEPTH, DEPTH);
  }

  /** Beside a lone first leaf every sibling is an empty subtree. */
  lemma LonePath(h: Hash, x: nat)
    ensures Path(h, [x], 0) == seq(DEPTH, k requires 0 <= k < DEPTH => Zero(h, k))
  {
    hide Subtree, Zero;
    forall k | 0 <= k < DEPTH ensures Subtree(h, [x], k, Sibling(Ancestor(0, k))) == Zero(h, k) {
      ZeroAncestor(k);
      Untouched(h, [x], [], 0, k, 1);
      EmptyTree(h, k, 1);
    }
  }

  lemma {:induction false} ZeroAncestor(k: nat)
    ensures Ancestor(0, k) == 0
  {
    if k > 0 {
      ZeroAncestor(k - 1);
    }
  }

  /** The pair the tree itself hashes above leaf i at level k. */
  function TreePair(h: Hash, leaves: seq<nat>, i: nat, k: nat): seq<nat> {
    Pair(Ancestor(i, k), Subtree(h, leaves, k, Ancestor(i, k)), Subtree(h, leaves, k, Sibling(Ancestor(i, k))))
  }

  /** Two different pairs with one hash: one hashed on the path, one in the tree. */
  ghost predicate PathCollision(h: Hash, leaves: seq<nat>, leaf: nat, i: nat, path: seq<nat>) {
    exists k | 0 <= k < |path| ::
      && ClimbPair(h, leaf, i, path, k) != TreePair(h, leaves, i, k)
      && h(ClimbPair(h, leaf, i, path, k)) == h(TreePair(h, leaves, i, k))
  }

  lemma {:induction false} PathFixesLeaf(h: Hash, leaves: seq<nat>, leaf: nat, i: nat, path: seq<nat>, k: nat)
    requires k <= |path| && ClimbTo(h, leaf, i, path, k) == Subtree(h, leaves, k, Ancestor(i, k))
    ensures leaf == LeafAt(leaves, i) || PathCollision(h, leaves, leaf, i, path)
  {
    if k > 0 {
      var a := Ancestor(i, k - 1);
      NodePair(h, leaves, k - 1, a);
      assert h(ClimbPair(h, leaf, i, path, k - 1)) == h(TreePair(h, leaves, i, k - 1));
      if ClimbPair(h, leaf, i, path, k - 1) == TreePair(h, leaves, i, k - 1) {
        SamePair(a, ClimbTo(h, leaf, i, path, k - 1), path[k - 1],
                 Subtree(h, leaves, k - 1, a), Subtree(h, leaves, k - 1, Sibling(a)));
        PathFixesLeaf(h, leaves, leaf, i, path, k - 1);
      }
    }
  }

  lemma SamePair(i: nat, a: nat, s: nat, b: nat, t: nat)
    requires Pair(i, a, s) == Pair(i, b, t)
    ensures a == b && s == t
  {
    assert Pair(i, a, s)[0] == Pair(i, b, t)[0] && Pair(i, a, s)[1] == Pair(i, b, t)[1];
  }

  /** The low n bits of an index. */
  function LowBits(x: nat, n: nat): (r: nat)
    ensures r < Pow2(n)
  {
    if n == 0 then 0 else 2 * LowBits(x / 2, n - 1) + x % 2
  }

  lemma {:induction false} LowAncestor(x: nat, n: nat, k: nat)
    requires k <= n
    ensures Ancestor(LowBits(x, n), k) == LowBits(Ancestor(x, k), n - k)
  {
    if k > 0 {
      LowAncestor(x, n, k - 1);
    }
  }

  /** Only the low bits of an index, one per level, are read. */
  lemma {:induction false} ClimbLowBits(h: Hash, leaf: nat, index: nat, path: seq<nat>, n: nat, k: nat)
    requires k <= |path| <= n
    ensures ClimbTo(h, leaf, index, path, k) == ClimbTo(h, leaf, LowBits(index, n), path, k)
  {
    if k > 0 {
      ClimbLowBits(h, leaf, index, path, n, k - 1);
      LowAncestor(index, n, k - 1);
    }
  }

  lemma {:induction false} LowIdentity(x: nat, n: nat)
    requires x < Pow2(n)
    ensures LowBits(x, n) == x
  {
    if n > 0 {
      LowIdentity(x / 2, n - 1);
    }
  }

  /** A path that reaches the root from any index fixes the leaf at that index's low 32
      bits, or exhibits a collision. */
  lemma RootFixesLeaf(h: Hash, leaves: seq<nat>, leaf: nat, index: nat, path: seq<nat>)
    requires |path| == DEPTH && RootFromPath(h, leaf, index, path) == Root(h, leaves)
    ensures var i := LowBits(index, DEPTH);
      leaf == LeafAt(leaves, i) || PathCollision(h, leaves, leaf, i, path)
  {
    hide Subtree, ClimbTo, PathCollision, LowBits, Ancestor;
    var i := LowBits(index, DEPTH);
    ClimbLowBits(h, leaf, index, path, DEPTH, DEPTH);
    TopAncestor(i, DEPTH, DEPTH);
    PathFixesLeaf(h, leaves, leaf, i, path, DEPTH);
  }

  // ---------------------------------------------------------------- the tree

  datatype Answer<T> = Fine(value: T) | Full | OutOfRange

  /** An incremental sparse Merkle tree: the nodes written so far, and the append cursor. */
  class Tree {
    const h: Hash
    var store: map<(nat, nat), nat>
    var next: nat
    ghost var leaves: seq<nat>

    function Node(level: nat, index: nat): nat
      reads this
    {
      if (level, index) in store then store[(level, index)] else Zero(h, level)
    }

    /** Nodes at the levels from lo to hi are those of the given leaves. */
    ghost predicate Levels(ls: seq<nat>, lo: nat, hi: nat)
      reads this
    {
      forall level, index: nat | lo <= level <= hi :: Node(level, index) == Subtree(h, ls, level, index)
    }

    /** Every node is the recursive hash of its leaf range. */
    ghost predicate Valid()
      reads this
    {
      && |leaves| == next <= Capacity()
      && Levels(leaves, 0, DEPTH)
    }

    constructor (hash: Hash)
      ensures Valid() && leaves == [] && h == hash
    {
      h := hash;
      store, next := map[], 0;
      leaves := [];
      new;
      forall level, index: nat ensures Node(level, index) == Subtree(h, leaves, level, index) {
        EmptyTree(h, level, index);
      }
    }

    method RootNode() returns (r: nat)
      requires Valid()
      ensures r == Root(h, leaves)
    {
      r := Node(DEPTH, 0);
    }

    method Leaf(i: nat) returns (r: nat)
      requires Valid()
      ensures r == LeafAt(leaves, i)
    {
      r := Node(0, i);
    }

    /** Writes a leaf and the nodes above it. */
    method Set(index: nat, leaf: nat, ghost after: seq<nat>)
      requires Valid() && index < Capacity()
      requires LeafAt(after, index) == leaf
      requires forall j | j != index :: LeafAt(after, j) == LeafAt(leaves, j)
      modifies this`store
      ensures Levels(after, 0, DEPTH)
    {
      hide Subtree, Zero, Pow2;
      store := store[(0, index) := leaf];
      var cur, i := leaf, index;
      LeafLevel(h, after, index);
      WroteLevel(after, index, 0);
      for lvl := 0 to DEPTH
        invariant i == Ancestor(index, lvl) && cur == Subtree(h, after, lvl, i)
        invariant Levels(after, 0, lvl)
        invariant Levels(leaves, lvl + 1, DEPTH)
      {
        var sib := Node(lvl, Sibling(i));
        NodePair(h, after, lvl, i);
        cur := if i % 2 == 0 then h([cur, sib]) else h([sib, cur]);
        i := i / 2;
        store := store[(lvl + 1, i) := cur];
        WroteLevel(after, index, lvl + 1);
      }
    }

    /** Once its own ancestor there is rewritten, a level is that of the new leaves. */
    lemma WroteLevel(after: seq<nat>, index: nat, level: nat)
      requires forall j | j != index :: LeafAt(after, j) == LeafAt(leaves, j)
      requires Node(level, Ancestor(index, level)) == Subtree(h, after, level, Ancestor(index, level))
      requires forall i: nat | i != Ancestor(index, level) :: Node(level, i) == Subtree(h, leaves, level, i)
      ensures Levels(after, level, level)
    {
      hide Subtree, LeafAt, Node, Ancestor;
      forall l, i: nat | level <= l <= level ensures Node(l, i) == Subtree(h, after, l, i) {
        if i != Ancestor(index, level) {
          Untouched(h, after, leaves, index, level, i);
        }
      }
    }

    method Append(leaf: nat) returns (r: Answer<nat>)
      requires Valid()
      modifies this
      ensures Valid()
      ensures r == if old(next) >= Capacity() then Full else Fine(old(next))
      ensures leaves == if r.Fine? then old(leaves) + [leaf] else old(leaves)
    {
      if next >= Capacity() {
        return Full;
      }
      var i := next;
      Set(i, leaf, leaves + [leaf]);
      next := next + 1;
      leaves := leaves + [leaf];
      return Fine(i);
    }

    method Update(index: nat, leaf: nat) returns (r: Answer<()>)
      requires Valid()
      modifies this
      ensures Valid()
      ensures r == if index >= old(next) then OutOfRange else Fine(())
      ensures leaves == if r.Fine? then old(leaves)[index := leaf] else old(leaves)
    {
      if index >= next {
        return OutOfRange;
      }
      Set(index, leaf, leaves[index := leaf]);
      leaves := leaves[index := leaf];
      return Fine(());
    }

    /** The siblings from the leaf up, which lead from the leaf to the root. */
    method PathOf(index: nat) returns (r: Answer<seq<nat>>)
      requires Valid()
      ensures r == if index >= next then OutOfRange else Fine(Path(h, leaves, index))
      ensures r.Fine? ==> RootFromPath(h, LeafAt(leaves, index), index, r.value) == Root(h, leaves)
    {
      hide Subtree, Zero, RootFromPath, Sibling, Pow2;
      if index >= next {
        return OutOfRange;
      }
      var sib: seq<nat> := [];
      var i := index;
      for lvl := 0 to DEPTH
        invariant i == Ancestor(index, lvl) && sib == Path(h, leaves, index)[..lvl]
      {
        ghost var path := Path(h, leaves, index);
        assert path[..lvl + 1] == path[..lvl] + [path[lvl]];
        sib := sib + [Node(lvl, Sibling(i))];
        i := i / 2;
      }
      PathReachesRoot(h, leaves, index);
      assert sib == Path(h, leaves, index);
      return Fine(sib);
    }
  }

  /** Recomputes a root from a leaf, its index and its path. */
  method ComputeRoot(h: Hash, leaf: nat, index: nat, path: seq<nat>) returns (cur: nat)
    ensures cur == RootFromPath(h, leaf, index, path)
  {
    cur := leaf;
    var i := index;
    for lvl := 0 to |path|
      invariant i == Ancestor(index, lvl) && cur == ClimbTo(h, leaf, index, path, lvl)
    {
      cur := if i % 2 == 0 then h([cur, path[lvl]]) else h([path[lvl], cur]);
      i := i / 2;
    }
  }
}
