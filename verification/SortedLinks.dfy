/** The sorted linked list both indexed trees keep in their leaves, and its key index. */
module SortedLinks {

  /** One leaf's value and its successor in numeric order; next is 0 for the largest. */
  datatype Link = Link(value: nat, next: nat, nextIndex: nat)

  const SENTINEL: Link := Link(0, 0, 0)

  // ---------------------------------------------------------------- the list

  /** v lies strictly between a link's value and its successor. */
  predicate Gap(l: Link, v: nat) {
    l.value < v && (l.next == 0 || v < l.next)
  }

  /** A link points to the entry with the least greater value, or to the sentinel. */
  ghost predicate Points(ls: seq<Link>, i: nat)
    requires i < |ls|
  {
    && ls[i].nextIndex < |ls|
    && ls[ls[i].nextIndex].value == ls[i].next
    && (ls[i].next == 0 || ls[i].value < ls[i].next)
    && forall j | 0 <= j < |ls| :: !Gap(ls[i], ls[j].value)
  }

  ghost predicate Distinct(ls: seq<Link>) {
    forall i, j | 0 <= i < j < |ls| :: ls[i].value != ls[j].value
  }

  /** A sorted list from the sentinel at index 0, in insertion order. */
  ghost predicate Sorted(ls: seq<Link>) {
    && 0 < |ls|
    && ls[0].value == 0
    && Distinct(ls)
    && forall i | 0 <= i < |ls| :: Points(ls, i)
  }

  ghost predicate Has(ls: seq<Link>, v: nat) {
    exists i | 0 <= i < |ls| :: ls[i].value == v
  }

  /** The values after the sentinel, in insertion order. */
  function Values(ls: seq<Link>): (r: seq<nat>)
    ensures |ls| == 0 ==> |r| == 0
    ensures 0 < |ls| ==> |r| == |ls| - 1 && forall i | 1 <= i < |ls| :: r[i - 1] == ls[i].value
  {
    if |ls| == 0 then [] else seq(|ls| - 1, i requires 0 <= i < |ls| - 1 => ls[i + 1].value)
  }

  /** v appended after its low leaf i, which now points to it. */
  function Insert(ls: seq<Link>, i: nat, v: nat): seq<Link>
    requires i < |ls|
  {
    ls[i := Link(ls[i].value, v, |ls|)] + [Link(v, ls[i].next, ls[i].nextIndex)]
  }

  lemma SentinelSorted()
    ensures Sorted([SENTINEL])
  {
    assert Points([SENTINEL], 0);
  }

  /** Inserting into the gap keeps the list sorted. */
  lemma InsertSorted(ls: seq<Link>, i: nat, v: nat)
    requires Sorted(ls) && i < |ls| && Gap(ls[i], v)
    ensures !Has(ls, v)
    ensures Sorted(Insert(ls, i, v))
    ensures Values(Insert(ls, i, v)) == Values(ls) + [v]
  {
    var m := Insert(ls, i, v);
    assert Points(ls, i);
    forall k | 0 <= k < |m| ensures Points(m, k) {
      InsertPoints(ls, i, v, k);
    }
    forall a, b | 0 <= a < b < |m| ensures m[a].value != m[b].value {
      assert m[a].value == ls[a].value;
    }
  }

  lemma InsertPoints(ls: seq<Link>, i: nat, v: nat, k: nat)
    requires Sorted(ls) && i < |ls| && Gap(ls[i], v) && k <= |ls|
    ensures k < |Insert(ls, i, v)| && Points(Insert(ls, i, v), k)
  {
    var m := Insert(ls, i, v);
    assert Points(ls, i);
    assert forall j | 0 <= j < |ls| :: m[j].value == ls[j].value;
    if k < |ls| && k != i {
      assert Points(ls, k);
      assert !Gap(ls[i], ls[k].value);
      assert !Gap(ls[k], ls[i].value);
      assert ls[k].value != ls[i].value;
      assert m[k] == ls[k];
    }
  }

  /** Values alone determine the list. */
  lemma SortedUnique(a: seq<Link>, b: seq<Link>)
    requires Sorted(a) && Sorted(b) && Values(a) == Values(b)
    ensures a == b
  {
    forall i | 0 <= i < |a| ensures a[i] == b[i] {
      assert Points(a, i) && Points(b, i);
      assert a[i].value == b[i].value by {
        assert i > 0 ==> Values(a)[i - 1] == Values(b)[i - 1];
      }
      SameNext(a, b, i);
    }
  }

  lemma SameNext(a: seq<Link>, b: seq<Link>, i: nat)
    requires Sorted(a) && Sorted(b) && |a| == |b| && Values(a) == Values(b) && i < |a| && a[i].value == b[i].value
    ensures a[i] == b[i]
  {
    hide Distinct;
    assert Points(a, i) && Points(b, i);
    var p, q := a[i].nextIndex, b[i].nextIndex;
    SameValue(a, b, p);
    SameValue(a, b, q);
    assert !Gap(a[i], a[q].value) && !Gap(b[i], b[p].value);
    assert a[p].value == a[q].value;
    OnePlace(a, p, q);
  }

  lemma SameValue(a: seq<Link>, b: seq<Link>, i: nat)
    requires Sorted(a) && Sorted(b) && |a| == |b| && Values(a) == Values(b) && i < |a|
    ensures a[i].value == b[i].value
  {
    if i > 0 {
      assert Values(a)[i - 1] == Values(b)[i - 1];
    }
  }

  lemma OnePlace(ls: seq<Link>, i: nat, j: nat)
    requires Distinct(ls) && i < |ls| && j < |ls| && ls[i].value == ls[j].value
    ensures i == j
  {
  }

  /** A nonzero value is absent exactly when some leaf is its low leaf. */
  lemma AbsentIffLowLeaf(ls: seq<Link>, v: nat)
    requires Sorted(ls) && v != 0
    ensures !Has(ls, v) <==> exists i | 0 <= i < |ls| :: Gap(ls[i], v)
  {
    if !Has(ls, v) {
      var i := Greatest(ls, v, |ls|);
      assert Points(ls, i);
      assert Gap(ls[i], v);
    }
    forall i | 0 <= i < |ls| && Has(ls, v) ensures !Gap(ls[i], v) {
      assert Points(ls, i);
    }
  }

  /** The position of the greatest value below v among the first n. */
  ghost function Greatest(ls: seq<Link>, v: nat, n: nat): (i: nat)
    requires 0 < n <= |ls| && ls[0].value < v
    ensures i < n && ls[i].value < v
    ensures forall j | 0 <= j < n && ls[j].value < v :: ls[j].value <= ls[i].value
  {
    if n == 1 then 0 else
    var i := Greatest(ls, v, n - 1);
    if ls[n - 1].value < v && ls[i].value < ls[n - 1].value then n - 1 else i
  }

  // ---------------------------------------------------------------- the walk

  ghost function Beyond(ls: seq<Link>, i: nat): set<int>
    requires i < |ls|
  {
    set j | 0 <= j < |ls| && ls[i].value < ls[j].value
  }

  /** w follows the links from place i to the largest value, ascending, and misses no
      value from there on. */
  ghost predicate Trail(ls: seq<Link>, i: nat, w: seq<nat>)
    requires i < |ls|
  {
    && |w| > 0 && w[0] == i
    && (forall k | 0 <= k < |w| :: w[k] < |ls|)
    && (forall k | 1 <= k < |w| :: ls[w[k - 1]].nextIndex == w[k] && ls[w[k - 1]].value < ls[w[k]].value)
    && ls[w[|w| - 1]].next == 0
    && (forall j | 0 <= j < |ls| && ls[i].value <= ls[j].value :: j in w)
  }

  /** The places visited by following the links from place i. */
  ghost function Walk(ls: seq<Link>, i: nat): (w: seq<nat>)
    requires Sorted(ls) && i < |ls|
    ensures Trail(ls, i, w)
    decreases |Beyond(ls, i)|
  {
    if ls[i].next == 0 then
      LastTrail(ls, i);
      [i]
    else
      NextTrail(ls, i);
      [i] + Walk(ls, ls[i].nextIndex)
  }

  lemma LastTrail(ls: seq<Link>, i: nat)
    requires Sorted(ls) && i < |ls| && ls[i].next == 0
    ensures Trail(ls, i, [i])
  {
    assert Points(ls, i);
    forall j | 0 <= j < |ls| && ls[i].value <= ls[j].value ensures j in [i] {
      assert !Gap(ls[i], ls[j].value);
      OnePlace(ls, i, j);
    }
  }

  lemma NextTrail(ls: seq<Link>, i: nat)
    requires Sorted(ls) && i < |ls| && ls[i].next != 0
    ensures var n := ls[i].nextIndex;
      && n < |ls| && |Beyond(ls, n)| < |Beyond(ls, i)|
      && forall w | Trail(ls, n, w) :: Trail(ls, i, [i] + w)
  {
    hide Trail;
    assert Points(ls, i);
    var n := ls[i].nextIndex;
    Shrinks(Beyond(ls, n), Beyond(ls, i), n);
    forall w | Trail(ls, n, w) ensures Trail(ls, i, [i] + w) {
      Prepend(ls, i, n, w);
    }
  }

  lemma Prepend(ls: seq<Link>, i: nat, n: nat, w: seq<nat>)
    requires Distinct(ls) && i < |ls| && n < |ls| && ls[i].nextIndex == n
    requires ls[i].value < ls[n].value
    requires forall j | 0 <= j < |ls| && ls[i].value < ls[j].value :: ls[n].value <= ls[j].value
    requires Trail(ls, n, w)
    ensures Trail(ls, i, [i] + w)
  {
    hide Distinct;
    var t := [i] + w;
    forall k | 1 <= k < |t| ensures ls[t[k - 1]].nextIndex == t[k] && ls[t[k - 1]].value < ls[t[k]].value {
      assert k > 1 ==> t[k - 1] == w[k - 2] && t[k] == w[k - 1];
    }
    forall j | 0 <= j < |ls| && ls[i].value <= ls[j].value ensures j in t {
      if ls[i].value == ls[j].value {
        OnePlace(ls, i, j);
        assert t[0] == j;
      } else {
        assert j in w;
      }
    }
    assert t[|t| - 1] == w[|w| - 1];
  }

  lemma Shrinks(a: set<int>, b: set<int>, x: int)
    requires a <= b && x in b && x !in a
    ensures |a| < |b|
  {
    assert a + (b - a) == b && x in b - a;
    assert |b| == |a| + |b - a|;
  }

  lemma {:induction false} Climbs(ls: seq<Link>, w: seq<nat>, a: nat, b: nat)
    requires forall k | 0 <= k < |w| :: w[k] < |ls|
    requires forall k | 1 <= k < |w| :: ls[w[k - 1]].value < ls[w[k]].value
    requires a < b < |w|
    ensures ls[w[a]].value < ls[w[b]].value
  {
    if a + 1 < b {
      Climbs(ls, w, a, b - 1);
    }
  }

  /** From the sentinel the links visit every entry exactly once, in strictly ascending
      order, and stop at the largest. */
  lemma WalkVisitsAll(ls: seq<Link>)
    requires Sorted(ls)
    ensures var w := Walk(ls, 0);
      && Trail(ls, 0, w)
      && (forall j | 0 <= j < |ls| :: j in w)
      && forall a, b | 0 <= a < b < |w| :: w[a] < |ls| && w[b] < |ls| && ls[w[a]].value < ls[w[b]].value
  {
    hide Walk, Sorted;
    assert ls[0].value == 0 by { SentinelFirst(ls); }
    var w := Walk(ls, 0);
    forall a, b | 0 <= a < b < |w| ensures w[a] < |ls| && w[b] < |ls| && ls[w[a]].value < ls[w[b]].value {
      Climbs(ls, w, a, b);
    }
  }

  lemma SentinelFirst(ls: seq<Link>)
    requires Sorted(ls)
    ensures |ls| > 0 && ls[0].value == 0
  {
  }

  // ---------------------------------------------------------------- the index

  datatype Found = Found(value: nat, index: nat) | Missing

  /** The index holds every entry but the sentinel, under its value. */
  ghost predicate Indexed(ls: seq<Link>, m: map<nat, nat>) {
    && (forall i | 1 <= i < |ls| :: ls[i].value in m && m[ls[i].value] == i)
    && (forall v | v in m :: 1 <= m[v] < |ls| && ls[m[v]].value == v)
  }

  /** The largest key below v. */
  ghost predicate IsBelow(m: map<nat, nat>, v: nat, f: Found) {
    match f
    case Found(u, i) => u in m && m[u] == i && u < v && forall w | w in m && w < v :: w <= u
    case Missing => forall w | w in m :: v <= w
  }

  /** The least key above v. */
  ghost predicate IsAbove(m: map<nat, nat>, v: nat, f: Found) {
    match f
    case Found(u, i) => u in m && m[u] == i && v < u && forall w | w in m && v < w :: u <= w
    case Missing => forall w | w in m :: w <= v
  }

  /** The link from value v to what the index found above it. */
  function LinkTo(v: nat, above: Found): Link {
    match above
    case Found(u, i) => Link(v, u, i)
    case Missing => Link(v, 0, 0)
  }

  function PlaceOf(below: Found): nat {
    match below
    case Found(_, i) => i
    case Missing => 0
  }

  function ValueOf(below: Found): nat {
    match below
    case Found(u, _) => u
    case Missing => 0
  }

  /** An entry is rebuilt from its value and the index. */
  lemma LinkFromIndex(ls: seq<Link>, m: map<nat, nat>, i: nat, above: Found)
    requires Sorted(ls) && Indexed(ls, m) && i < |ls| && IsAbove(m, ls[i].value, above)
    ensures ls[i] == LinkTo(ls[i].value, above)
  {
    assert Points(ls, i);
    var n := ls[i].nextIndex;
    match above {
      case Found(u, j) =>
        assert !Gap(ls[i], ls[j].value);
        assert n >= 1 && ls[n].value in m;
      case Missing =>
        assert ls[n].value in m || n == 0;
        OnePlace(ls, n, 0);
    }
  }

  /** What the index finds around an absent value is its low leaf. */
  lemma LowFromIndex(ls: seq<Link>, m: map<nat, nat>, v: nat, below: Found, above: Found)
    requires Sorted(ls) && Indexed(ls, m) && v != 0 && v !in m
    requires IsBelow(m, v, below) && IsAbove(m, v, above)
    ensures PlaceOf(below) < |ls|
    ensures ls[PlaceOf(below)] == LinkTo(ValueOf(below), above)
    ensures Gap(ls[PlaceOf(below)], v)
  {
    hide Sorted, Distinct;
    var i := PlaceOf(below);
    assert i < |ls| && ls[i].value == ValueOf(below) by { LowPlace(ls, m, v, below); }
    assert IsAbove(m, ls[i].value, above);
    LinkFromIndex(ls, m, i, above);
  }

  /** Below alone already finds the gap. */
  lemma LowGap(ls: seq<Link>, m: map<nat, nat>, v: nat, below: Found)
    requires Sorted(ls) && Indexed(ls, m) && v != 0 && v !in m && IsBelow(m, v, below)
    ensures PlaceOf(below) < |ls| && ls[PlaceOf(below)].value == ValueOf(below)
    ensures Gap(ls[PlaceOf(below)], v)
  {
    LowPlace(ls, m, v, below);
    var i := PlaceOf(below);
    assert Points(ls, i);
    var n := ls[i].nextIndex;
    assert ls[n].value in m || n == 0;
  }

  lemma LowPlace(ls: seq<Link>, m: map<nat, nat>, v: nat, below: Found)
    requires Sorted(ls) && Indexed(ls, m) && IsBelow(m, v, below)
    ensures PlaceOf(below) < |ls| && ls[PlaceOf(below)].value == ValueOf(below)
  {
  }

  /** Recording the new entry keeps the index in step. */
  lemma InsertIndexed(ls: seq<Link>, m: map<nat, nat>, i: nat, v: nat)
    requires Sorted(ls) && Indexed(ls, m) && i < |ls| && v !in m && v != 0
    ensures Indexed(Insert(ls, i, v), m[v := |ls|])
  {
  }

  lemma HasIndexed(ls: seq<Link>, m: map<nat, nat>, v: nat)
    requires Sorted(ls) && Indexed(ls, m) && v != 0
    ensures Has(ls, v) <==> v in m
  {
    if i :| 0 <= i < |ls| && ls[i].value == v {
      assert i >= 1;
    }
  }

  /** The list with its sentinel, which only the first insert writes. */
  function Listed(ls: seq<Link>): seq<Link> {
    if ls == [] then [SENTINEL] else ls
  }

  /** The list, its index and its values agree on what is absent, sentinel or not. */
  lemma Agrees(ls: seq<Link>, m: map<nat, nat>, v: nat)
    requires (ls == [] || Sorted(ls)) && Indexed(ls, m) && v != 0
    ensures Has(ls, v) <==> v in m
    ensures Has(Listed(ls), v) <==> v in m
    ensures Sorted(Listed(ls)) && Indexed(Listed(ls), m)
  {
    SentinelSorted();
    HasIndexed(Listed(ls), m, v);
  }

  // ---------------------------------------------------------------- the index in memory

  /** Strictly ascending values and their places hold exactly the given map. */
  ghost predicate Slices(vals: seq<nat>, idx: seq<nat>, contents: map<nat, nat>) {
    && |vals| == |idx|
    && Rising(vals)
    && (forall i | 0 <= i < |vals| :: vals[i] in contents && contents[vals[i]] == idx[i])
    && (forall v | v in contents :: v in vals)
  }

  /** A slice with x spliced in before position i. */
  function Spliced(s: seq<nat>, i: nat, x: nat): (r: seq<nat>)
    requires i <= |s|
    ensures |r| == |s| + 1
  {
    s[..i] + [x] + s[i..]
  }

  lemma SplicedAt(s: seq<nat>, i: nat, x: nat, k: nat)
    requires i <= |s| && k <= |s|
    ensures Spliced(s, i, x)[k] == if k < i then s[k] else if k == i then x else s[k - 1]
  {
  }

  ghost predicate Rising(vals: seq<nat>) {
    forall i, j | 0 <= i < j < |vals| :: vals[i] < vals[j]
  }

  lemma SplicedRising(vals: seq<nat>, i: nat, v: nat)
    requires Rising(vals) && i <= |vals| && v !in vals
    requires forall j | 0 <= j < i :: vals[j] < v
    requires forall j | i <= j < |vals| :: v <= vals[j]
    ensures Rising(Spliced(vals, i, v))
  {
    var vs := Spliced(vals, i, v);
    forall a, b | 0 <= a < b < |vs| ensures vs[a] < vs[b] {
      SplicedAt(vals, i, v, a);
      SplicedAt(vals, i, v, b);
    }
  }

  lemma PutKeeps(vals: seq<nat>, idx: seq<nat>, contents: map<nat, nat>, i: nat, v: nat, index: nat)
    requires Slices(vals, idx, contents) && v !in contents && i <= |vals|
    requires forall j | 0 <= j < i :: vals[j] < v
    requires forall j | i <= j < |vals| :: v <= vals[j]
    ensures Slices(Spliced(vals, i, v), Spliced(idx, i, index), contents[v := index])
  {
    hide Rising;
    var vs, ix, m := Spliced(vals, i, v), Spliced(idx, i, index), contents[v := index];
    SplicedRising(vals, i, v);
    forall k | 0 <= k < |vs| ensures vs[k] in m && m[vs[k]] == ix[k] {
      SplicedAt(vals, i, v, k);
      SplicedAt(idx, i, index, k);
    }
    forall w | w in m ensures w in vs {
      if w == v {
        SplicedAt(vals, i, v, i);
      } else {
        var k :| 0 <= k < |vals| && vals[k] == w;
        SplicedAt(vals, i, v, if k < i then k else k + 1);
      }
    }
  }

  /** A sorted in-memory index: two slices, kept in step. */
  class MemIndex {
    var vals: seq<nat>
    var idx: seq<nat>
    ghost var contents: map<nat, nat>

    ghost predicate Valid()
      reads this
    {
      Slices(vals, idx, contents)
    }

    constructor ()
      ensures Valid() && contents == map[]
    {
      vals, idx := [], [];
      contents := map[];
    }

    /** The first position whose value is at least v, by binary search. */
    method Search(v: nat) returns (i: nat)
      requires Valid()
      ensures i <= |vals|
      ensures forall j | 0 <= j < i :: vals[j] < v
      ensures forall j | i <= j < |vals| :: v <= vals[j]
    {
      var j: nat := |vals|;
      i := 0;
      while i < j
        invariant i <= j <= |vals|
        invariant forall k | 0 <= k < i :: vals[k] < v
        invariant forall k | j <= k < |vals| :: v <= vals[k]
      {
        var m := (i + j) / 2;
        if vals[m] >= v {
          j := m;
        } else {
          i := m + 1;
        }
      }
    }

    method Get(v: nat) returns (f: Found)
      requires Valid()
      ensures f == if v in contents then Found(v, contents[v]) else Missing
    {
      var i := Search(v);
      if i < |vals| && vals[i] == v {
        return Found(v, idx[i]);
      }
      return Missing;
    }

    method Below(v: nat) returns (f: Found)
      requires Valid()
      ensures IsBelow(contents, v, f)
    {
      var i := Search(v);
      if i == 0 {
        return Missing;
      }
      return Found(vals[i - 1], idx[i - 1]);
    }

    method Above(v: nat) returns (f: Found)
      requires Valid()
      ensures IsAbove(contents, v, f)
    {
      var i := Search(v);
      if i < |vals| && vals[i] == v {
        i := i + 1;
      }
      if i >= |vals| {
        return Missing;
      }
      return Found(vals[i], idx[i]);
    }

    /** Records a value, shifting both slices up by one. A value already held is filed a
        second time, before the first, and the values are then no longer distinct. */
    method Put(v: nat, index: nat)
      requires Valid()
      modifies this
      ensures contents == old(contents)[v := index]
      ensures exists i | 0 <= i <= |old(vals)| ::
        && vals == Spliced(old(vals), i, v) && idx == Spliced(old(idx), i, index)
        && (forall j | 0 <= j < i :: old(vals)[j] < v) && (forall j | i <= j < |old(vals)| :: v <= old(vals)[j])
      ensures Valid() <==> v !in old(contents)
    {
      var i := Search(v);
      if v !in contents {
        PutKeeps(vals, idx, contents, i, v, index);
      } else {
        assert vals[i] == v;
        SplicedAt(vals, i, v, i);
        SplicedAt(vals, i, v, i + 1);
      }
      vals := Spliced(vals, i, v);
      idx := Spliced(idx, i, index);
      contents := contents[v := index];
    }
  }
}
