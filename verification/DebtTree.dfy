/** The slash debt tree: the sorted list again, each row carrying what a slashed move's
    exposure is still worth. */
module DebtTree {
  import opened Merkle
  import opened SortedLinks

  /** "earth.debtl" read as a big-endian integer. */
  const TAG: nat := 0x65617274682e646562746c

  /** One row: its place in the sorted list of keys, and what it retains. */
  datatype Row = Row(link: Link, retained: nat)

  function LeafInput(r: Row): seq<nat> {
    [TAG, r.link.value, r.link.next, r.link.nextIndex, r.retained]
  }

  function LeafHash(h: Hash, r: Row): nat {
    h(LeafInput(r))
  }

  function RetainedOf(rows: map<nat, nat>, key: nat): nat {
    if key in rows then rows[key] else 0
  }

  function RowAt(ls: seq<Link>, rows: map<nat, nat>, i: nat): Row
    requires i < |ls|
  {
    Row(ls[i], RetainedOf(rows, ls[i].value))
  }

  function Leaves(h: Hash, ls: seq<Link>, rows: map<nat, nat>): (r: seq<nat>)
    ensures |r| == |ls|
  {
    seq(|ls|, i requires 0 <= i < |ls| => LeafHash(h, RowAt(ls, rows, i)))
  }

  function RootOf(h: Hash, ls: seq<Link>, rows: map<nat, nat>): nat {
    Root(h, Leaves(h, Listed(ls), rows))
  }

  datatype Witness = Witness(low: Row, index: nat, path: seq<nat>)

  datatype Reading = Worth(amount: nat) | Nothing

  /** What a witness says exposed derth of a move is worth: the row's own figure, or all
      of it when the key is in the low leaf's gap. */
  function Retained(h: Hash, w: Witness, key: nat, exposed: nat, root: nat): Reading {
    if RootFromPath(h, LeafHash(h, w.low), w.index, w.path) != root then Nothing
    else if w.low.link.value == key then
      if w.low.retained > exposed then Nothing else Worth(w.low.retained)
    else if !Gap(w.low.link, key) then Nothing
    else Worth(exposed)
  }

  /** What the rows themselves say. */
  function Due(rows: map<nat, nat>, key: nat, exposed: nat): nat {
    if key in rows then rows[key] else exposed
  }

  /** The rows are the keys of the list. */
  ghost predicate Consistent(ls: seq<Link>, index: map<nat, nat>, rows: map<nat, nat>) {
    && (ls == [] || Sorted(ls))
    && Indexed(ls, index)
    && rows.Keys == index.Keys
  }

  // ---------------------------------------------------------------- soundness

  ghost predicate Broken(h: Hash, ls: seq<Link>, rows: map<nat, nat>, w: Witness) {
    var i := LowBits(w.index, DEPTH);
    || PathCollision(h, Leaves(h, ls, rows), LeafHash(h, w.low), i, w.path)
    || (i < |ls| && LeafInput(w.low) != LeafInput(RowAt(ls, rows, i))
      && h(LeafInput(w.low)) == h(LeafInput(RowAt(ls, rows, i))))
    || (i >= |ls| && LeafHash(h, w.low) == 0)
  }

  lemma AcceptedRow(h: Hash, ls: seq<Link>, rows: map<nat, nat>, w: Witness) returns (i: nat)
    requires |w.path| == DEPTH
    requires RootFromPath(h, LeafHash(h, w.low), w.index, w.path) == Root(h, Leaves(h, ls, rows))
    requires !Broken(h, ls, rows, w)
    ensures i < |ls| && w.low == RowAt(ls, rows, i)
  {
    hide RootFromPath, Root, PathCollision, LowBits;
    RootFixesLeaf(h, Leaves(h, ls, rows), LeafHash(h, w.low), w.index, w.path);
    i := LowBits(w.index, DEPTH);
    assert i < |ls| && LeafInput(w.low) == LeafInput(RowAt(ls, rows, i));
    SameInput(w.low, RowAt(ls, rows, i));
  }

  lemma SameInput(a: Row, b: Row)
    requires LeafInput(a) == LeafInput(b)
    ensures a == b
  {
    assert LeafInput(a)[1] == LeafInput(b)[1] && LeafInput(a)[2] == LeafInput(b)[2]
      && LeafInput(a)[3] == LeafInput(b)[3] && LeafInput(a)[4] == LeafInput(b)[4];
  }

  /** A key in the gap of some row of the list has no row of its own. */
  lemma GapHasNoRow(ls: seq<Link>, index: map<nat, nat>, rows: map<nat, nat>, i: nat, key: nat)
    requires Sorted(ls) && Indexed(ls, index) && rows.Keys == index.Keys && i < |ls| && Gap(ls[i], key)
    ensures key !in rows
  {
    AbsentIffLowLeaf(ls, key);
    HasIndexed(ls, index, key);
  }

  /** Any accepted witness for a nonzero key yields the row's figure, or all of the
      exposure without one, or hash inputs that break the hash are exhibited. */
  lemma WitnessSound(h: Hash, ls: seq<Link>, index: map<nat, nat>, rows: map<nat, nat>, w: Witness, key: nat,
                     exposed: nat)
    requires Consistent(ls, index, rows) && |w.path| == DEPTH && key != 0
    ensures var r := Retained(h, w, key, exposed, RootOf(h, ls, rows));
      r == Nothing || r == Worth(Due(rows, key, exposed)) || Broken(h, Listed(ls), rows, w)
  {
    hide RootFromPath, Root, Broken, Sorted, Leaves, Indexed;
    SentinelSorted();
    var all := Listed(ls);
    ListedIndexed(ls, index);
    var root := RootOf(h, ls, rows);
    if Retained(h, w, key, exposed, root) != Nothing && !Broken(h, all, rows, w) {
      var i := AcceptedRow(h, all, rows, w);
      if w.low.link.value == key {
        HasRow(all, index, rows, i);
      } else {
        GapHasNoRow(all, index, rows, i, key);
      }
    }
  }

  lemma ListedIndexed(ls: seq<Link>, index: map<nat, nat>)
    requires Indexed(ls, index)
    ensures Indexed(Listed(ls), index)
  {
  }

  lemma HasRow(ls: seq<Link>, index: map<nat, nat>, rows: map<nat, nat>, i: nat)
    requires Sorted(ls) && Indexed(ls, index) && rows.Keys == index.Keys && i < |ls| && ls[i].value != 0
    ensures ls[i].value in rows
  {
    assert i > 0;
    assert ls[i].value in index;
  }

  // ---------------------------------------------------------------- completeness

  function WitnessAt(h: Hash, ls: seq<Link>, rows: map<nat, nat>, i: nat): Witness
    requires i < |ls|
  {
    Witness(RowAt(ls, rows, i), i, Path(h, Leaves(h, ls, rows), i))
  }

  /** A tree's own witness, from the key's row or its low leaf, is accepted unless the row
      retains more than was exposed. */
  lemma WitnessAccepted(h: Hash, ls: seq<Link>, rows: map<nat, nat>, i: nat, key: nat, exposed: nat)
    requires |ls| <= Capacity() && i < |ls|
    requires if key in rows then ls[i].value == key else Gap(ls[i], key)
    ensures Retained(h, WitnessAt(h, ls, rows, i), key, exposed, Root(h, Leaves(h, ls, rows))) ==
            if key in rows && rows[key] > exposed then Nothing else Worth(Due(rows, key, exposed))
  {
    hide Root, RootFromPath, Path;
    PathReachesRoot(h, Leaves(h, ls, rows), i);
  }

  // ---------------------------------------------------------------- the tree

  /** A new row leaves every other leaf but its low leaf as it was. */
  lemma LeavesInsert(h: Hash, ls: seq<Link>, rows: map<nat, nat>, i: nat, key: nat, retained: nat)
    requires i < |ls| && key !in rows && !Has(ls, key)
    ensures Leaves(h, SortedLinks.Insert(ls, i, key), rows[key := retained]) ==
            Leaves(h, ls, rows)[i := LeafHash(h, Row(Link(ls[i].value, key, |ls|), RetainedOf(rows, ls[i].value)))]
            + [LeafHash(h, Row(Link(key, ls[i].next, ls[i].nextIndex), retained))]
  {
    var m := SortedLinks.Insert(ls, i, key);
    var rs := rows[key := retained];
    forall k | 0 <= k < |ls| ensures RetainedOf(rs, m[k].value) == RetainedOf(rows, ls[k].value) {
    }
  }

  /** Rewriting a row touches its own leaf alone. */
  lemma LeavesRewrite(h: Hash, ls: seq<Link>, rows: map<nat, nat>, i: nat, retained: nat)
    requires Distinct(ls) && i < |ls|
    ensures Leaves(h, ls, rows[ls[i].value := retained]) == Leaves(h, ls, rows)[i := LeafHash(h, Row(ls[i], retained))]
  {
    var rs := rows[ls[i].value := retained];
    forall k | 0 <= k < |ls| && k != i ensures RetainedOf(rs, ls[k].value) == RetainedOf(rows, ls[k].value) {
      assert k < i ==> ls[k].value != ls[i].value;
    }
  }

  lemma LoneLeaf(h: Hash)
    ensures Path(h, Leaves(h, [SENTINEL], map[]), 0) == seq(DEPTH, k requires 0 <= k < DEPTH => Zero(h, k))
  {
    var x := LeafHash(h, Row(SENTINEL, 0));
    assert Leaves(h, [SENTINEL], map[]) == [x];
    LonePath(h, x);
  }

  /** The root of a tree with no row. */
  method EmptyRoot(h: Hash) returns (r: nat)
    ensures r == RootOf(h, [], map[])
  {
    var t := new Merkle.Tree(h);
    var _ := t.Append(LeafHash(h, Row(SENTINEL, 0)));
    assert t.leaves == Leaves(h, [SENTINEL], map[]);
    r := t.RootNode();
  }

  datatype Outcome<T> = Done(value: T) | IsZero | IsFull

  class Tree {
    const nodes: Merkle.Tree
    const index: MemIndex
    var rows: map<nat, nat>
    ghost var links: seq<Link>

    ghost predicate Valid()
      reads this, nodes, index
    {
      && nodes.Valid() && index.Valid()
      && nodes.leaves == Leaves(nodes.h, links, rows)
      && Consistent(links, index.contents, rows)
    }

    lemma Sized()
      requires Valid()
      ensures |links| == nodes.next == |nodes.leaves| <= Capacity()
    {
    }

    constructor (h: Hash)
      ensures Valid() && links == [] && rows == map[] && nodes.h == h && fresh(nodes) && fresh(index)
    {
      nodes := new Merkle.Tree(h);
      index := new MemIndex();
      rows := map[];
      links := [];
    }

    method RootNode() returns (r: nat)
      requires Valid()
      ensures r == RootOf(nodes.h, links, rows)
    {
      if nodes.next == 0 {
        NoRows();
        r := EmptyRoot(nodes.h);
      } else {
        r := nodes.RootNode();
      }
    }

    lemma NoRows()
      requires Valid() && nodes.next == 0
      ensures links == [] && rows == map[]
    {
      assert links == [];
      assert index.contents.Keys == {};
    }

    /** The row of a key, 0 being the sentinel's. */
    method LeafOf(key: nat) returns (r: Row)
      requires Valid() && (key == 0 || key in rows)
      ensures var i := if key == 0 then 0 else index.contents[key];
        i < |Listed(links)| && Listed(links)[i].value == key && r == RowAt(Listed(links), rows, i)
    {
      hide Sorted, Leaves, Merkle.Tree.Valid, MemIndex.Valid;
      var retained := 0;
      if key != 0 {
        retained := rows[key];
      }
      var above := index.Above(key);
      ghost var i := if key == 0 then 0 else index.contents[key];
      KeyPlace(links, index.contents, rows, key);
      LinkFromIndex(Listed(links), index.contents, i, above);
      return Row(LinkTo(key, above), retained);
    }

    /** The low leaf of a key without a row. */
    method Low(key: nat) returns (r: Row, i: nat)
      requires Valid() && key != 0 && key !in rows
      ensures i < |Listed(links)| && r == RowAt(Listed(links), rows, i) && Gap(Listed(links)[i], key)
    {
      hide Sorted, Leaves, Merkle.Tree.Valid, MemIndex.Valid;
      var below := index.Below(key);
      Agrees(links, index.contents, key);
      KeyPlace(links, index.contents, rows, 0);
      LowGap(Listed(links), index.contents, key, below);
      r := LeafOf(ValueOf(below));
      i := PlaceOf(below);
    }

    method WriteSentinel()
      requires Valid() && links == []
      modifies this, nodes
      ensures Valid() && links == [SENTINEL] && rows == old(rows)
    {
      Sized();
      NoRows();
      SentinelSorted();
      var _ := nodes.Append(LeafHash(nodes.h, Row(SENTINEL, 0)));
      links := [SENTINEL];
    }

    /** Records what a key's exposure is worth: a new row, or the row's leaf rewritten. */
    method Set(key: nat, retained: nat) returns (r: Outcome<nat>)
      requires Valid()
      modifies this, nodes, index
      ensures Valid()
      ensures r == if key == 0 then IsZero
                   else if key in old(rows) then Done(old(index.contents[key]))
                   else if |old(links)| >= Capacity() then IsFull else Done(|Listed(old(links))|)
      ensures rows == if r.Done? then old(rows)[key := retained] else old(rows)
      ensures Values(links) == if r.Done? && key !in old(rows) then Values(old(links)) + [key] else Values(old(links))
    {
      hide Sorted, Leaves, Values, Indexed, Has, Merkle.Tree.Valid, MemIndex.Valid;
      if key == 0 {
        return IsZero;
      }
      var f := index.Get(key);
      if f.Found? {
        KeyPlace(links, index.contents, rows, key);
        Rewrite(key, retained, f.index);
        return Done(f.index);
      }
      Agrees(links, index.contents, key);
      ghost var all := Listed(links);
      Sized();
      if nodes.next == 0 {
        WriteSentinel();
      }
      assert links == all;
      Sized();
      if nodes.next >= Capacity() {
        return IsFull;
      }
      var idx := AddRow(key, retained);
      return Done(idx);
    }

    method AddRow(key: nat, retained: nat) returns (idx: nat)
      requires Valid() && key != 0 && key !in rows && !Has(links, key) && 0 < |links| < Capacity()
      modifies this, nodes, index
      ensures Valid() && idx == |old(links)| && rows == old(rows)[key := retained]
      ensures Values(links) == Values(old(links)) + [key]
    {
      hide Sorted, Leaves, Values, Indexed, Has, Merkle.Tree.Valid, MemIndex.Valid;
      Sized();
      var low, lowIndex := Low(key);
      idx := nodes.next;
      var leaf := Row(Link(key, low.link.next, low.link.nextIndex), retained);
      low := Row(Link(low.link.value, key, idx), low.retained);
      LeavesInsert(nodes.h, links, rows, lowIndex, key, retained);
      InsertSorted(links, lowIndex, key);
      InsertIndexed(links, index.contents, lowIndex, key);
      var _ := nodes.Update(lowIndex, LeafHash(nodes.h, low));
      var _ := nodes.Append(LeafHash(nodes.h, leaf));
      rows := rows[key := retained];
      index.Put(key, idx);
      links := SortedLinks.Insert(links, lowIndex, key);
    }

    method Rewrite(key: nat, retained: nat, idx: nat)
      requires Valid() && key != 0 && key in rows && idx == index.contents[key]
      modifies this`rows, nodes
      ensures Valid() && rows == old(rows)[key := retained]
    {
      hide Sorted, Leaves, Merkle.Tree.Valid, MemIndex.Valid;
      Sized();
      KeyPlace(links, index.contents, rows, key);
      LeavesRewrite(nodes.h, links, rows, idx, retained);
      var above := index.Above(key);
      LinkFromIndex(links, index.contents, idx, above);
      rows := rows[key := retained];
      var _ := nodes.Update(idx, LeafHash(nodes.h, Row(LinkTo(key, above), retained)));
    }

    /** A key's witness: its own row's, or its low leaf's. It is accepted under the current
        root unless the row retains more than was exposed. */
    method Lookup(key: nat) returns (r: Outcome<Witness>)
      requires Valid()
      ensures key == 0 ==> r == IsZero
      ensures key != 0 ==> r.Done? && |r.value.path| == DEPTH && forall exposed: nat ::
        Retained(nodes.h, r.value, key, exposed, RootOf(nodes.h, links, rows)) ==
        if key in rows && rows[key] > exposed then Nothing else Worth(Due(rows, key, exposed))
    {
      hide Sorted, Leaves, Indexed, Retained, Root, Path, Merkle.Tree.Valid, MemIndex.Valid;
      if key == 0 {
        return IsZero;
      }
      var f := index.Get(key);
      var low, i;
      if f.Found? {
        KeyPlace(links, index.contents, rows, key);
        low := LeafOf(key);
        i := f.index;
      } else {
        low, i := Low(key);
      }
      Sized();
      forall exposed: nat
        ensures Retained(nodes.h, WitnessAt(nodes.h, Listed(links), rows, i), key, exposed,
          RootOf(nodes.h, links, rows)) ==
                if key in rows && rows[key] > exposed then Nothing else Worth(Due(rows, key, exposed))
      {
        WitnessAccepted(nodes.h, Listed(links), rows, i, key, exposed);
      }
      if nodes.next == 0 {
        NoRows();
        LoneLeaf(nodes.h);
        return Done(Witness(low, i, seq(DEPTH, k requires 0 <= k < DEPTH => Zero(nodes.h, k))));
      }
      var p := nodes.PathOf(i);
      assert Witness(low, i, p.value) == WitnessAt(nodes.h, Listed(links), rows, i);
      return Done(Witness(low, i, p.value));
    }
  }

  lemma KeyPlace(ls: seq<Link>, index: map<nat, nat>, rows: map<nat, nat>, key: nat)
    requires Consistent(ls, index, rows) && (key == 0 || key in rows)
    ensures var i := if key == 0 then 0 else index[key];
      i < |Listed(ls)| && Listed(ls)[i].value == key
    ensures Sorted(Listed(ls)) && Indexed(Listed(ls), index)
    ensures key == 0 ==> key !in rows
  {
    SentinelSorted();
  }

  /** The rows left by recording each in turn. */
  function Recorded(rs: seq<(nat, nat)>): map<nat, nat> {
    if |rs| == 0 then map[] else Recorded(rs[..|rs| - 1])[rs[|rs| - 1].0 := rs[|rs| - 1].1]
  }

  /** The distinct keys, in the order they first appear. */
  function Keys(rs: seq<(nat, nat)>): seq<nat> {
    if |rs| == 0 then [] else
    var front, k := Keys(rs[..|rs| - 1]), rs[|rs| - 1].0;
    if k in front then front else front + [k]
  }

  lemma {:induction false} RecordedKeys(rs: seq<(nat, nat)>, k: nat)
    ensures k in Recorded(rs) <==> k in Keys(rs)
  {
    if |rs| > 0 {
      RecordedKeys(rs[..|rs| - 1], k);
    }
  }

  lemma {:induction false} KeysGrow(rs: seq<(nat, nat)>, i: nat)
    requires i <= |rs|
    ensures |Keys(rs[..i])| <= |Keys(rs)|
  {
    if i == |rs| {
      assert rs[..i] == rs;
    } else {
      assert rs[..|rs| - 1][..i] == rs[..i];
      KeysGrow(rs[..|rs| - 1], i);
    }
  }

  lemma RowCount(t: Tree)
    requires t.Valid()
    ensures |t.links| == 0 ==> Values(t.links) == []
    ensures |t.links| > 0 ==> |t.links| == |Values(t.links)| + 1
    ensures |t.links| <= Capacity()
  {
    t.Sized();
  }

  /** Rows recorded in order, each with its latest figure. It succeeds exactly when no key
      is 0 and the distinct keys fit beside the sentinel. */
  method Rebuild(h: Hash, rs: seq<(nat, nat)>) returns (t: Tree, ok: bool)
    ensures t.Valid() && t.nodes.h == h
    ensures ok ==> t.rows == Recorded(rs) && Values(t.links) == Keys(rs)
    ensures ok <==> (forall i | 0 <= i < |rs| :: rs[i].0 != 0) && |Keys(rs)| < Capacity()
  {
    hide Tree.Valid, Values;
    t := new Tree(h);
    RowCount(t);
    for i := 0 to |rs|
      invariant t.Valid() && t.nodes.h == h && fresh(t) && fresh(t.nodes) && fresh(t.index)
      invariant t.rows == Recorded(rs[..i]) && Values(t.links) == Keys(rs[..i])
      invariant forall k | 0 <= k < i :: rs[k].0 != 0
    {
      assert rs[..i + 1][..i] == rs[..i];
      RecordedKeys(rs[..i], rs[i].0);
      RowCount(t);
      var o := t.Set(rs[i].0, rs[i].1);
      if !o.Done? {
        KeysGrow(rs, i + 1);
        return t, false;
      }
    }
    assert rs[..|rs|] == rs;
    RowCount(t);
    ok := true;
  }
}
