/** Any number of concurrent calls to the cache, interleaved between their critical
    sections in any way. */
module ProofCacheRun {
  import opened BigEndian
  import opened ProofCache

  /** Where a call stands between its critical sections: before the lookup, after a miss,
      counted, verified but not yet remembered, answered. */
  datatype Phase = Start | Absent | Counted | Passed | Done(answer: Answer, hit: bool)

  datatype Call = Call(query: Query, phase: Phase)

  /** The cache, the queries it was ever given to remember, and every call made. */
  datatype World = World(cache: Cache, log: seq<Query>, calls: seq<Call>)

  datatype Step = Arrive(query: Query) | Move(call: nat)

  /** The verifier and the hash the cache runs on. */
  datatype Setting = Setting(verify: Verifier, sha: Sha)

  function Key(x: Setting, q: Query): nat {
    x.sha(KeyInput(q))
  }

  function Keys(x: Setting, log: seq<Query>): (r: seq<nat>)
    ensures |r| == |log|
  {
    seq(|log|, i requires 0 <= i < |log| => Key(x, log[i]))
  }

  function Initial(size: int): World {
    World(Cache(if size < 1 then 1 else size, {}, [], 0, 0), [], [])
  }

  ghost predicate Enabled(w: World, t: Step) {
    match t
    case Arrive(q) => Sized(q)
    case Move(i) => i < |w.calls| && !w.calls[i].phase.Done?
  }

  /** The step of one call: a critical section, or the verification between two. */
  function Moved(x: Setting, w: World, i: nat): World
    requires i < |w.calls|
    requires |w.cache.order| < w.cache.cap || w.cache.next < |w.cache.order|
  {
    var q := w.calls[i].query;
    match w.calls[i].phase
    case Start => At(w, i, if Key(x, q) in w.cache.seen then Done(VERIFIED, true) else Absent)
    case Absent => At(w, i, Counted).(cache := w.cache.(runs := w.cache.runs + 1))
    case Counted => At(w, i, if x.verify(q) == VERIFIED then Passed else Done(x.verify(q), false))
    case Passed =>
      At(w, i, Done(VERIFIED, false)).(
        cache := Add(w.cache, Key(x, q)),
        log := if Key(x, q) in w.cache.seen then w.log else w.log + [q])
    case Done(_, _) => w
  }

  function At(w: World, i: nat, p: Phase): World
    requires i < |w.calls|
  {
    w.(calls := w.calls[i := Call(w.calls[i].query, p)])
  }

  function Next(x: Setting, w: World, t: Step): World
    requires t.Move? ==> t.call < |w.calls|
    requires |w.cache.order| < w.cache.cap || w.cache.next < |w.cache.order|
  {
    match t
    case Arrive(q) => w.(calls := w.calls + [Call(q, Start)])
    case Move(i) => Moved(x, w, i)
  }

  // ---------------------------------------------------------------- the invariant

  /** A remembered query whose key is q's, though what was hashed is not. */
  ghost predicate Clash(x: Setting, log: seq<Query>, q: Query) {
    exists i | 0 <= i < |log| :: KeyInput(log[i]) != KeyInput(q) && Key(x, log[i]) == Key(x, q)
  }

  ghost predicate Asked(calls: seq<Call>, q: Query) {
    exists i | 0 <= i < |calls| :: calls[i].query == q
  }

  /** Every remembered query was asked, and verifies. */
  ghost predicate LogOk(x: Setting, w: World) {
    forall i | 0 <= i < |w.log| :: Sized(w.log[i]) && x.verify(w.log[i]) == VERIFIED && Asked(w.calls, w.log[i])
  }

  ghost predicate CallOk(x: Setting, log: seq<Query>, c: Call) {
    && Sized(c.query)
    && (c.phase.Passed? ==> x.verify(c.query) == VERIFIED)
    && (c.phase.Done? ==> c.phase.answer == x.verify(c.query) || Clash(x, log, c.query))
  }

  /** Whether a call has run the verifier, or is committed to. */
  function Ran(c: Call): nat {
    if c.phase.Start? || c.phase.Absent? || (c.phase.Done? && c.phase.hit) then 0 else 1
  }

  function Runs(calls: seq<Call>): nat {
    if |calls| == 0 then 0 else Runs(calls[..|calls| - 1]) + Ran(calls[|calls| - 1])
  }

  ghost predicate Inv(x: Setting, w: World) {
    && Ring(w.cache, Keys(x, w.log))
    && LogOk(x, w)
    && (forall i | 0 <= i < |w.calls| :: CallOk(x, w.log, w.calls[i]))
    && w.cache.runs == Runs(w.calls)
  }

  lemma {:induction false} RunsUpdate(calls: seq<Call>, i: nat, c: Call)
    requires i < |calls|
    ensures Runs(calls[i := c]) == Runs(calls) - Ran(calls[i]) + Ran(c)
  {
    var n := |calls| - 1;
    if i < n {
      RunsUpdate(calls[..n], i, c);
      assert calls[i := c][..n] == calls[..n][i := c];
    } else {
      assert calls[i := c][..n] == calls[..n];
    }
  }

  /** A key in the cache belongs to a remembered query. */
  lemma HitLogged(x: Setting, c: Cache, log: seq<Query>, key: nat) returns (i: nat)
    requires Ring(c, Keys(x, log)) && key in c.seen
    ensures i < |log| && Key(x, log[i]) == key
  {
    var j :| 0 <= j < |c.order| && c.order[j] == key;
    var k := if j >= c.next then j - c.next else |c.order| - c.next + j;
    assert Queue(c)[k] == key;
    i := |log| - |c.order| + k;
    assert Keys(x, log)[|log| - |c.order|..][k] == Keys(x, log)[i];
  }

  /** A hit answers as the verifier would, unless the hash collides. */
  lemma HitSound(x: Setting, w: World, q: Query)
    requires Ring(w.cache, Keys(x, w.log)) && LogOk(x, w) && Sized(q) && Key(x, q) in w.cache.seen
    ensures x.verify(q) == VERIFIED || Clash(x, w.log, q)
  {
    hide Ring, KeyInput, Sized;
    var i := HitLogged(x, w.cache, w.log, Key(x, q));
    if KeyInput(w.log[i]) == KeyInput(q) {
      KeyInputInjective(w.log[i], q);
    }
  }

  // ---------------------------------------------------------------- steps

  lemma MoveInv(x: Setting, w: World, i: nat)
    requires Inv(x, w) && Enabled(w, Move(i))
    ensures |w.cache.order| < w.cache.cap || w.cache.next < |w.cache.order|
    ensures Inv(x, Moved(x, w, i))
  {
    hide Ring, Sized, KeyInput;
    RingNext(w.cache, Keys(x, w.log));
    var q := w.calls[i].query;
    assert CallOk(x, w.log, w.calls[i]);
    var n := Moved(x, w, i);
    RunsUpdate(w.calls, i, n.calls[i]);
    match w.calls[i].phase {
      case Start =>
        if Key(x, q) in w.cache.seen {
          HitSound(x, w, q);
        }
        Kept(x, w, n, i);
      case Absent =>
        RingRuns(w.cache, Keys(x, w.log), w.cache.runs + 1);
        Kept(x, w, n, i);
      case Counted => Kept(x, w, n, i);
      case Passed =>
        RememberRing(x, w, q);
        Kept(x, w, n, i);
    }
  }

  lemma RememberRing(x: Setting, w: World, q: Query)
    requires Ring(w.cache, Keys(x, w.log))
    requires |w.cache.order| < w.cache.cap || w.cache.next < |w.cache.order|
    ensures Ring(Add(w.cache, Key(x, q)), Keys(x, if Key(x, q) in w.cache.seen then w.log else w.log + [q]))
  {
    hide Ring, KeyInput;
    AddRing(w.cache, Keys(x, w.log), Key(x, q));
    assert Keys(x, w.log + [q]) == Keys(x, w.log) + [Key(x, q)];
  }

  /** What other calls were told stays true, and so does the log. */
  lemma Kept(x: Setting, w: World, n: World, i: nat)
    requires LogOk(x, w) && forall k | 0 <= k < |w.calls| :: CallOk(x, w.log, w.calls[k])
    requires i < |w.calls| == |n.calls| && n.calls == w.calls[i := n.calls[i]]
    requires n.calls[i].query == w.calls[i].query && CallOk(x, n.log, n.calls[i])
    requires n.log == w.log || (n.log == w.log + [w.calls[i].query] && x.verify(w.calls[i].query) == VERIFIED)
    ensures LogOk(x, n) && forall k | 0 <= k < |n.calls| :: CallOk(x, n.log, n.calls[k])
  {
    hide Sized, KeyInput;
    forall k | 0 <= k < |n.calls| ensures CallOk(x, n.log, n.calls[k]) {
      if k != i {
        assert CallOk(x, w.log, w.calls[k]);
        ClashKept(x, w.log, n.log, w.calls[k].query);
      }
    }
    forall k | 0 <= k < |n.log| ensures Sized(n.log[k]) && x.verify(n.log[k]) == VERIFIED && Asked(n.calls, n.log[k]) {
      if k < |w.log| {
        assert Asked(w.calls, w.log[k]);
        var j :| 0 <= j < |w.calls| && w.calls[j].query == w.log[k];
        assert n.calls[j].query == w.log[k];
      } else {
        assert CallOk(x, w.log, w.calls[i]);
      }
    }
  }

  lemma ClashKept(x: Setting, log: seq<Query>, more: seq<Query>, q: Query)
    requires log <= more
    ensures Clash(x, log, q) ==> Clash(x, more, q)
  {
    hide KeyInput;
    if Clash(x, log, q) {
      var i :| 0 <= i < |log| && KeyInput(log[i]) != KeyInput(q) && Key(x, log[i]) == Key(x, q);
      assert more[i] == log[i];
    }
  }

  lemma ArriveInv(x: Setting, w: World, q: Query)
    requires Inv(x, w) && Sized(q)
    ensures Inv(x, w.(calls := w.calls + [Call(q, Start)]))
  {
    hide Ring, Sized, KeyInput;
    var n := w.(calls := w.calls + [Call(q, Start)]);
    assert n.calls[..|n.calls| - 1] == w.calls;
    forall k | 0 <= k < |n.log| ensures Asked(n.calls, n.log[k]) {
      assert Asked(w.calls, w.log[k]);
      var j :| 0 <= j < |w.calls| && w.calls[j].query == w.log[k];
      assert n.calls[j].query == w.log[k];
    }
  }

  // ---------------------------------------------------------------- runs

  /** The ring's cursor is always in range. */
  lemma Ready(x: Setting, w: World)
    requires Inv(x, w)
    ensures |w.cache.order| < w.cache.cap || w.cache.next < |w.cache.order|
  {
  }

  /** The steps ts lead from w to z. (The cursor's range is part of every step being
      defined; Ready shows that it is never what stops a run.) */
  ghost predicate Run(x: Setting, w: World, ts: seq<Step>, z: World)
    decreases |ts|
  {
    if |ts| == 0 then w == z else
    && Enabled(w, ts[0])
    && (|w.cache.order| < w.cache.cap || w.cache.next < |w.cache.order|)
    && Run(x, Next(x, w, ts[0]), ts[1..], z)
  }

  lemma {:induction false} RunInv(x: Setting, w: World, ts: seq<Step>, z: World)
    requires Inv(x, w) && Run(x, w, ts, z)
    ensures Inv(x, z)
    decreases |ts|
  {
    hide Inv, Moved;
    if |ts| > 0 {
      Ready(x, w);
      match ts[0] {
        case Arrive(q) => ArriveInv(x, w, q);
        case Move(i) => MoveInv(x, w, i);
      }
      RunInv(x, Next(x, w, ts[0]), ts[1..], z);
    }
  }

  lemma InitialInv(x: Setting, size: int)
    ensures Inv(x, Initial(size))
  {
    var w := Initial(size);
    assert Keys(x, w.log) == [];
    assert Queue(w.cache) == [];
  }

  /** After any interleaving of any calls: the set is the ring of the newest keys, within
      capacity; every answer given is the verifier's own, or a remembered query that some
      call asked collides with it; and the counter has counted the verifications run. */
  lemma AnyInterleaving(x: Setting, size: int, ts: seq<Step>, z: World)
    requires Run(x, Initial(size), ts, z)
    ensures Ring(z.cache, Keys(x, z.log)) && |z.cache.seen| == |z.cache.order| <= z.cache.cap
    ensures forall i | 0 <= i < |z.calls| && z.calls[i].phase.Done? ::
      z.calls[i].phase.answer == x.verify(z.calls[i].query) || Clash(x, z.log, z.calls[i].query)
    ensures forall i | 0 <= i < |z.log| :: Asked(z.calls, z.log[i])
    ensures z.cache.runs == Runs(z.calls)
  {
    hide Run, Ring, Sized, Clash;
    InitialInv(x, size);
    RunInv(x, Initial(size), ts, z);
    Bounded(z.cache, Keys(x, z.log));
    forall i | 0 <= i < |z.calls| && z.calls[i].phase.Done?
      ensures z.calls[i].phase.answer == x.verify(z.calls[i].query) || Clash(x, z.log, z.calls[i].query)
    {
      assert CallOk(x, z.log, z.calls[i]);
    }
  }
}
