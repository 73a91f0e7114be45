/** The stake nullifier tree: a sorted linked list in the leaves of a Merkle tree, whose
    low leaves prove values absent. */
module IndexedTree {
  import opened Merkle
  import opened SortedLinks

  /** "earth.snfl" read as a big-endian integer. */
  const TAG: nat := 0x65617274682e736e666c

  function LeafInput(l: Link): seq<nat> {
    [TAG, l.value, l.next, l.nextIndex]
  }

  function LeafHash(h: Hash, l: Link): nat {
    h(LeafInput(l))
  }

  function Leaves(h: Hash, ls: seq<Link>): (r: seq<nat>)
    ensures |r| == |ls|
  {
    seq(|ls|, i requires 0 <= i < |ls| => LeafHash(h, ls[i]))
  }

  function RootOf(h: Hash, ls: seq<Link>): nat {
    Root(h, Leaves(h, Listed(ls)))
  }

  datatype Witness = Witness(low: Link, index: nat, path: seq<nat>)

  /** w proves v absent under a root: the low leaf is in the tree and v is in its gap. */
  predicate Verify(h: Hash, w: Witness, v: nat, root: nat) {
    && RootFromPath(h, LeafHash(h, w.low), w.index, w.path) == root
    && Gap(w.low, v)
  }

  // ---------------------------------------------------------------- soundness

  /** Hash inputs that break a witness: two different inputs with one hash, on the path or
      at the leaf, or a leaf that hashes to the empty value. */
  ghost predicate Broken(h: Hash, ls: seq<Link>, w: Witness) {
    var i := LowBits(w.index, DEPTH);
    || PathCollision(h, Leaves(h, ls), LeafHash(h, w.low), i, w.path)
    || (i < |ls| && LeafInput(w.low) != LeafInput(ls[i]) && h(LeafInput(w.low)) == h(LeafInput(ls[i])))
    || (i >= |ls| && LeafHash(h, w.low) == 0)
  }

  lemma AcceptedLeaf(h: Hash, ls: seq<Link>, w: Witness, root: nat)
    requires |w.path| == DEPTH && root == Root(h, Leaves(h, ls))
    requires RootFromPath(h, LeafHash(h, w.low), w.index, w.path) == root
    requires !Broken(h, ls, w)
    ensures w.low in ls
  {
    hide RootFromPath, Root, PathCollision, LowBits;
    RootFixesLeaf(h, Leaves(h, ls), LeafHash(h, w.low), w.index, w.path);
    var i := LowBits(w.index, DEPTH);
    assert i < |ls| && LeafInput(w.low) == LeafInput(ls[i]);
    SameInput(w.low, ls[i]);
  }

  lemma SameInput(a: Link, b: Link)
    requires LeafInput(a) == LeafInput(b)
    ensures a == b
  {
    assert LeafInput(a)[1] == LeafInput(b)[1] && LeafInput(a)[2] == LeafInput(b)[2]
      && LeafInput(a)[3] == LeafInput(b)[3];
  }

  /** Any witness that verifies means the value is absent, or hash inputs that break the
      hash are exhibited. */
  lemma WitnessSound(h: Hash, ls: seq<Link>, w: Witness, v: nat)
    requires (ls == [] || Sorted(ls)) && |w.path| == DEPTH
    requires Verify(h, w, v, RootOf(h, ls))
    ensures v != 0 && (!Has(ls, v) || Broken(h, Listed(ls), w))
  {
    hide Root, RootFromPath, Broken, Sorted, Leaves;
    SentinelSorted();
    var all := Listed(ls);
    if !Broken(h, all, w) {
      AcceptedLeaf(h, all, w, RootOf(h, ls));
      AbsentIffLowLeaf(all, v);
    }
  }

  // ---------------------------------------------------------------- completeness

  /** The witness a tree gives for a low leaf. */
  function WitnessAt(h: Hash, ls: seq<Link>, i: nat): Witness
    requires i < |ls|
  {
    Witness(ls[i], i, Path(h, Leaves(h, ls), i))
  }

  lemma WitnessVerifies(h: Hash, ls: seq<Link>, i: nat, v: nat)
    requires |ls| <= Capacity() && i < |ls| && Gap(ls[i], v)
    ensures Verify(h, WitnessAt(h, ls, i), v, Root(h, Leaves(h, ls)))
  {
    hide Root, RootFromPath, Path;
    PathReachesRoot(h, Leaves(h, ls), i);
  }

  // ---------------------------------------------------------------- the tree

  lemma LeavesInsert(h: Hash, ls: seq<Link>, i: nat, v: nat)
    requires i < |ls|
    ensures Leaves(h, SortedLinks.Insert(ls, i, v)) ==
            Leaves(h, ls)[i := LeafHash(h, Link(ls[i].value, v, |ls|))]
              + [LeafHash(h, Link(v, ls[i].next, ls[i].nextIndex))]
  {
  }

  /** The root of a tree that holds only the sentinel. */
  method EmptyRoot(h: Hash) returns (r: nat)
    ensures r == RootOf(h, [])
  {
    var t := new Merkle.Tree(h);
    var _ := t.Append(LeafHash(h, SENTINEL));
    assert t.leaves == Leaves(h, [SENTINEL]);
    r := t.RootNode();
  }

  datatype Outcome<T> = Done(value: T) | IsZero | Exists | IsFull

  class Tree {
    const nodes: Merkle.Tree
    const index: MemIndex
    ghost var links: seq<Link>

    ghost predicate Valid()
      reads this, nodes, index
    {
      && nodes.Valid() && index.Valid()
      && nodes.leaves == Leaves(nodes.h, links)
      && (links == [] || Sorted(links))
      && Indexed(links, index.contents)
    }

    constructor (h: Hash)
      ensures Valid() && links == [] && nodes.h == h && fresh(nodes) && fresh(index)
    {
      nodes := new Merkle.Tree(h);
      index := new MemIndex();
      links := [];
    }

    method RootNode() returns (r: nat)
      requires Valid()
      ensures r == RootOf(nodes.h, links)
    {
      if nodes.next == 0 {
        r := EmptyRoot(nodes.h);
      } else {
        r := nodes.RootNode();
      }
    }

    /** v's low leaf as the index gives it. */
    method Neighbours(v: nat) returns (low: Link, lowIndex: nat)
      requires Valid() && v != 0 && !Has(links, v)
      ensures lowIndex < |Listed(links)| && low == Listed(links)[lowIndex] && Gap(low, v)
    {
      hide Sorted, IsBelow, IsAbove, Leaves, Merkle.Tree.Valid, MemIndex.Valid;
      var below := index.Below(v);
      var above := index.Above(v);
      lowIndex := PlaceOf(below);
      low := LinkTo(ValueOf(below), above);
      Agrees(links, index.contents, v);
      LowFromIndex(Listed(links), index.contents, v, below, above);
    }

    lemma Sized()
      requires Valid()
      ensures |links| == nodes.next == |nodes.leaves| <= Capacity()
    {
    }

    method WriteSentinel()
      requires Valid() && links == []
      modifies this, nodes
      ensures Valid() && links == [SENTINEL]
    {
      SentinelSorted();
      var _ := nodes.Append(LeafHash(nodes.h, SENTINEL));
      links := [SENTINEL];
    }

    /** Adds v in order, refusing 0, a value already there, and a full tree. */
    method Insert(v: nat) returns (r: Outcome<nat>)
      requires Valid()
      modifies this, nodes, index
      ensures Valid()
      ensures r == if v == 0 then IsZero else if Has(old(links), v) then Exists
                   else if |old(links)| >= Capacity() then IsFull else Done(|Listed(old(links))|)
      ensures r.Done? ==> Values(links) == Values(old(links)) + [v]
      ensures !r.Done? ==> links == old(links)
    {
      hide Sorted, Leaves, Values, Indexed, Has, Merkle.Tree.Valid, MemIndex.Valid;
      if v == 0 {
        return IsZero;
      }
      var f := index.Get(v);
      Agrees(links, index.contents, v);
      if f.Found? {
        return Exists;
      }
      ghost var all := Listed(links);
      Sized();
      if nodes.next == 0 {
        WriteSentinel();
      }
      assert links == all;
      Sized();
      if nodes.next >= Capacity() {
        return IsFull;
      }
      assert !Has(links, v);
      var low, lowIndex := Neighbours(v);
      var idx := nodes.next;
      var leaf := Link(v, low.next, low.nextIndex);
      low := Link(low.value, v, idx);
      LeavesInsert(nodes.h, links, lowIndex, v);
      InsertSorted(links, lowIndex, v);
      InsertIndexed(links, index.contents, lowIndex, v);
      var _ := nodes.Update(lowIndex, LeafHash(nodes.h, low));
      var _ := nodes.Append(LeafHash(nodes.h, leaf));
      index.Put(v, idx);
      links := SortedLinks.Insert(links, lowIndex, v);
      return Done(idx);
    }

    /** v's witness, which verifies under the current root; refused for 0 and for a value
        in the tree. */
    method NonMembership(v: nat) returns (r: Outcome<Witness>)
      requires Valid()
      ensures v == 0 ==> r == IsZero
      ensures v != 0 && Has(links, v) ==> r == Exists
      ensures v != 0 && !Has(links, v) ==>
        r.Done? && |r.value.path| == DEPTH && Verify(nodes.h, r.value, v, RootOf(nodes.h, links))
    {
      hide Sorted, Leaves, Indexed, Has, Verify, Root, Path, Merkle.Tree.Valid, MemIndex.Valid;
      if v == 0 {
        return IsZero;
      }
      var f := index.Get(v);
      Agrees(links, index.contents, v);
      if f.Found? {
        return Exists;
      }
      var low, lowIndex := Neighbours(v);
      Sized();
      WitnessVerifies(nodes.h, Listed(links), lowIndex, v);
      if nodes.next == 0 {
        var path := seq(DEPTH, k requires 0 <= k < DEPTH => Zero(nodes.h, k));
        LoneLeaf(nodes.h);
        return Done(Witness(low, lowIndex, path));
      }
      var p := nodes.PathOf(lowIndex);
      return Done(Witness(low, lowIndex, p.value));
    }
  }

  lemma LoneLeaf(h: Hash)
    ensures Path(h, Leaves(h, [SENTINEL]), 0) == seq(DEPTH, k requires 0 <= k < DEPTH => Zero(h, k))
  {
    assert Leaves(h, [SENTINEL]) == [LeafHash(h, SENTINEL)];
    LonePath(h, LeafHash(h, SENTINEL));
  }

  /** Values inserted in order, until one is refused. */
  method Rebuild(h: Hash, values: seq<nat>) returns (t: Tree, r: Outcome<()>)
    ensures t.Valid() && t.nodes.h == h
    ensures r.Done? ==> Values(t.links) == values
    ensures r.Done? <==> |values| < Capacity() && 0 !in values && NoRepeats(values)
  {
    hide Sorted, Values, Has, Tree.Valid;
    t := new Tree(h);
    NoValues(t.links);
    for i := 0 to |values|
      invariant t.Valid() && t.nodes.h == h && fresh(t) && fresh(t.nodes) && fresh(t.index)
      invariant Values(t.links) == values[..i] && |Listed(t.links)| == i + 1
      invariant 0 !in values[..i] && NoRepeats(values[..i])
    {
      ListOrEmpty(t);
      if values[i] != 0 {
        HasValue(t.links, values[i]);
      }
      var o := t.Insert(values[i]);
      assert values[..i + 1] == values[..i] + [values[i]];
      match o {
        case Done(_) =>
          ListOrEmpty(t);
          Counts(t.links);
        case IsZero => return t, IsZero;
        case Exists => return t, Exists;
        case IsFull => return t, IsFull;
      }
    }
    ListOrEmpty(t);
    assert values[..|values|] == values;
    r := Done(());
  }

  lemma ListOrEmpty(t: Tree)
    requires t.Valid()
    ensures t.links == [] || Sorted(t.links)
    ensures |t.links| <= Capacity()
  {
    t.Sized();
  }

  lemma NoValues(ls: seq<Link>)
    requires ls == []
    ensures Values(ls) == [] && |Listed(ls)| == 1
  {
  }

  lemma Counts(ls: seq<Link>)
    requires |Values(ls)| > 0
    ensures |ls| == |Listed(ls)| == |Values(ls)| + 1
  {
  }

  lemma HasValue(ls: seq<Link>, v: nat)
    requires ls == [] || Sorted(ls)
    requires v != 0
    ensures Has(ls, v) <==> v in Values(ls)
  {
    forall i | 1 <= i < |ls| ensures ls[i].value in Values(ls) {
      assert Values(ls)[i - 1] == ls[i].value;
    }
  }

  ghost predicate NoRepeats(values: seq<nat>) {
    forall i, j | 0 <= i < j < |values| :: values[i] != values[j]
  }
}
