/** The cache of verified proofs: a bounded first-in first-out set behind a mutex, which
    must answer as the verifier it fronts, whatever the calls' interleaving. */
module ProofCache {
  import opened BigEndian

  // ---------------------------------------------------------------- keys

  /** One verification: key, proof and public inputs. */
  datatype Query = Query(vk: seq<Byte>, proof: seq<Byte>, inputs: seq<seq<Byte>>)

  /** Lengths are 64-bit. */
  ghost predicate Sized(q: Query) {
    && |q.vk| < Pow256(8) && |q.proof| < Pow256(8) && |q.inputs| < Pow256(8)
    && forall i | 0 <= i < |q.inputs| :: |q.inputs[i]| < Pow256(8)
  }

  function Put(b: seq<Byte>): seq<Byte> {
    ToBytes(|b|, 8) + b
  }

  function PutAll(bs: seq<seq<Byte>>): seq<Byte> {
    if |bs| == 0 then [] else PutAll(bs[..|bs| - 1]) + Put(bs[|bs| - 1])
  }

  /** What is hashed into a cache key: each part under its length. */
  function KeyInput(q: Query): seq<Byte> {
    Put(q.vk) + Put(q.proof) + ToBytes(|q.inputs|, 8) + PutAll(q.inputs)
  }

  method BuildKeyInput(q: Query) returns (w: seq<Byte>)
    ensures w == KeyInput(q)
  {
    hide ToBytes;
    w := Put(q.vk);
    w := w + Put(q.proof);
    w := w + ToBytes(|q.inputs|, 8);
    ghost var head := w;
    for i := 0 to |q.inputs|
      invariant w == head + PutAll(q.inputs[..i])
    {
      assert q.inputs[..i + 1][..i] == q.inputs[..i];
      w := w + Put(q.inputs[i]);
    }
    assert q.inputs[..|q.inputs|] == q.inputs;
  }

  lemma NumberPrefix(m: nat, n: nat, x: seq<Byte>, y: seq<Byte>)
    requires m < Pow256(8) && n < Pow256(8) && ToBytes(m, 8) + x == ToBytes(n, 8) + y
    ensures m == n && x == y
  {
    hide Pow256, Value;
    ValueOfBytes(m, 8);
    ValueOfBytes(n, 8);
    var p, q := ToBytes(m, 8) + x, ToBytes(n, 8) + y;
    assert p[..8] == ToBytes(m, 8) && q[..8] == ToBytes(n, 8);
    assert p[8..] == x && q[8..] == y;
  }

  /** A length-prefixed part is read back from whatever follows it. */
  lemma PutPrefix(a: seq<Byte>, b: seq<Byte>, x: seq<Byte>, y: seq<Byte>)
    requires |a| < Pow256(8) && |b| < Pow256(8) && Put(a) + x == Put(b) + y
    ensures a == b && x == y
  {
    hide Pow256, ToBytes;
    assert Put(a) + x == ToBytes(|a|, 8) + (a + x) && Put(b) + y == ToBytes(|b|, 8) + (b + y);
    NumberPrefix(|a|, |b|, a + x, b + y);
    assert (a + x)[..|a|] == a && (b + y)[..|b|] == b;
    assert (a + x)[|a|..] == x && (b + y)[|b|..] == y;
  }

  lemma {:induction false} PutAllHead(bs: seq<seq<Byte>>)
    requires |bs| > 0
    ensures PutAll(bs) == Put(bs[0]) + PutAll(bs[1..])
  {
    hide Put;
    if |bs| > 1 {
      var n := |bs| - 1;
      PutAllHead(bs[..n]);
      assert bs[..n][1..] == bs[1..][..n - 1] && bs[1..][n - 1] == bs[n];
    }
  }

  lemma {:induction false} PutAllInjective(a: seq<seq<Byte>>, b: seq<seq<Byte>>)
    requires |a| == |b| && PutAll(a) == PutAll(b)
    requires forall i | 0 <= i < |a| :: |a[i]| < Pow256(8)
    requires forall i | 0 <= i < |b| :: |b[i]| < Pow256(8)
    ensures a == b
  {
    hide Put, Pow256, PutAll;
    if |a| > 0 {
      PutAllHead(a);
      PutAllHead(b);
      PutPrefix(a[0], b[0], PutAll(a[1..]), PutAll(b[1..]));
      PutAllInjective(a[1..], b[1..]);
      assert a == [a[0]] + a[1..] && b == [b[0]] + b[1..];
    }
  }

  /** The key encoding is injective. */
  lemma KeyInputInjective(p: Query, q: Query)
    requires Sized(p) && Sized(q) && KeyInput(p) == KeyInput(q)
    ensures p == q
  {
    hide Put, PutAll, Pow256, ToBytes;
    var pn, qn := ToBytes(|p.inputs|, 8) + PutAll(p.inputs), ToBytes(|q.inputs|, 8) + PutAll(q.inputs);
    assert KeyInput(p) == Put(p.vk) + (Put(p.proof) + pn) && KeyInput(q) == Put(q.vk) + (Put(q.proof) + qn);
    PutPrefix(p.vk, q.vk, Put(p.proof) + pn, Put(q.proof) + qn);
    PutPrefix(p.proof, q.proof, pn, qn);
    NumberPrefix(|p.inputs|, |q.inputs|, PutAll(p.inputs), PutAll(q.inputs));
    PutAllInjective(p.inputs, q.inputs);
  }

  // ---------------------------------------------------------------- the ring

  datatype Cache = Cache(cap: nat, seen: set<nat>, order: seq<nat>, next: nat, runs: nat)

  function Add(c: Cache, key: nat): Cache
    requires |c.order| < c.cap || c.next < |c.order|
  {
    if key in c.seen then c
    else if |c.order| < c.cap then c.(order := c.order + [key], seen := c.seen + {key})
    else c.(seen := c.seen - {c.order[c.next]} + {key}, order := c.order[c.next := key],
      next := (c.next + 1) % |c.order|)
  }

  /** The ring read from its oldest entry. */
  function Queue(c: Cache): seq<nat>
    requires c.next <= |c.order|
  {
    c.order[c.next..] + c.order[..c.next]
  }

  ghost predicate NoRepeats(s: seq<nat>) {
    forall i, j | 0 <= i < j < |s| :: s[i] != s[j]
  }

  /** The set is the duplicate-free ring, which holds the newest keys ever added, as many
      as fit, oldest first. */
  ghost predicate Ring(c: Cache, log: seq<nat>) {
    && c.cap >= 1
    && |c.order| == (if |log| < c.cap then |log| else c.cap)
    && (if |c.order| < c.cap then c.next == 0 else c.next < |c.order|)
    && (forall k :: k in c.seen <==> k in c.order)
    && NoRepeats(c.order)
    && Queue(c) == log[|log| - |c.order|..]
  }

  function Log(log: seq<nat>, c: Cache, key: nat): seq<nat> {
    if key in c.seen then log else log + [key]
  }

  lemma AddRing(c: Cache, log: seq<nat>, key: nat)
    requires Ring(c, log)
    ensures Ring(Add(c, key), Log(log, c, key))
  {
    if key !in c.seen {
      if |c.order| < c.cap {
        Extends(c, log, key);
      } else {
        Evicts(c, key);
        Turns(c, key);
        var d := Add(c, key);
        var tail := log[|log| - |c.order|..];
        assert (log + [key])[|log| + 1 - |d.order|..] == tail[1..] + [key];
      }
    }
  }

  lemma Extends(c: Cache, log: seq<nat>, key: nat)
    requires Ring(c, log) && key !in c.seen && |c.order| < c.cap
    ensures Ring(Add(c, key), log + [key])
  {
    var d := Add(c, key);
    assert c.order == log by {
      assert Queue(c) == c.order;
      assert log[0..] == log;
    }
    assert Queue(d) == d.order;
    var more := log + [key];
    assert more[|more| - |d.order|..] == more;
  }

  /** A full ring drops its oldest entry for the new one. */
  lemma Turns(c: Cache, key: nat)
    requires key !in c.seen && c.next < |c.order| && c.cap <= |c.order|
    ensures Add(c, key).next < |c.order| && Queue(Add(c, key)) == Queue(c)[1..] + [key]
  {
    Wrap(c.next, |c.order|);
    var d := Add(c, key);
    Rotates(c.order, c.next, key, d.next);
  }

  lemma Wrap(i: nat, n: nat)
    requires i < n
    ensures (i + 1) % n == if i + 1 < n then i + 1 else 0
  {
  }

  lemma Rotates(s: seq<nat>, i: nat, key: nat, j: nat)
    requires i < |s| && j == if i + 1 < |s| then i + 1 else 0
    ensures s[i := key][j..] + s[i := key][..j] == (s[i..] + s[..i])[1..] + [key]
  {
    var t := s[i := key];
    assert (s[i..] + s[..i])[1..] == s[i + 1..] + s[..i];
    if i + 1 < |s| {
      assert t[j..] == s[i + 1..];
      assert t[..j] == s[..i] + [key];
    } else {
      assert t == s[..i] + [key];
    }
  }

  lemma Evicts(c: Cache, key: nat)
    requires key !in c.seen && c.next < |c.order| && c.cap <= |c.order| && NoRepeats(c.order)
    requires forall k :: k in c.seen <==> k in c.order
    ensures var d := Add(c, key); NoRepeats(d.order) && forall k :: k in d.seen <==> k in d.order
  {
    var d := Add(c, key);
    var out := c.order[c.next];
    assert forall i | 0 <= i < |c.order| && i != c.next :: c.order[i] != out;
    assert d.order[c.next] == key;
    forall k | k in d.seen ensures k in d.order {
      if k != key {
        var i :| 0 <= i < |c.order| && c.order[i] == k;
        assert d.order[i] == k;
      }
    }
  }

  function Elements(s: seq<nat>): set<nat> {
    set x | x in s
  }

  lemma {:induction false} SetSize(s: seq<nat>)
    requires NoRepeats(s)
    ensures |Elements(s)| == |s|
  {
    if |s| > 0 {
      var n := |s| - 1;
      SetSize(s[..n]);
      assert s[n] !in Elements(s[..n]);
      assert Elements(s) == Elements(s[..n]) + {s[n]};
    }
  }

  /** The cache never holds more than its capacity. */
  lemma Bounded(c: Cache, log: seq<nat>)
    requires Ring(c, log)
    ensures |c.seen| == |c.order| <= c.cap
  {
    SetSize(c.order);
    assert c.seen == Elements(c.order);
  }

  // ---------------------------------------------------------------- the cache

  datatype Answer = Answer(ok: bool, error: string)

  const VERIFIED: Answer := Answer(true, "")

  type Verifier = Query -> Answer
  type Sha = seq<Byte> -> nat

  class VerifiedCache {
    const cap: nat
    var seen: set<nat>
    var order: seq<nat>
    var next: nat
    var runs: nat
    ghost var log: seq<nat>

    function View(): Cache
      reads this
    {
      Cache(cap, seen, order, next, runs)
    }

    ghost predicate Valid()
      reads this
    {
      Ring(View(), log)
    }

    constructor (size: int)
      ensures Valid() && log == [] && cap == (if size < 1 then 1 else size) && runs == 0
    {
      cap := if size < 1 then 1 else size;
      seen, order, next, runs := {}, [], 0, 0;
      log := [];
      new;
      EmptyRing(View());
    }

    method Insert(key: nat)
      requires Valid()
      modifies this
      ensures Valid() && View() == Add(old(View()), key) && log == Log(old(log), old(View()), key)
    {
      hide Ring, Log;
      AddRing(View(), log, key);
      RingNext(View(), log);
      log := Log(log, View(), key);
      if key in seen {
        return;
      }
      if |order| < cap {
        order := order + [key];
      } else {
        seen := seen - {order[next]};
        order := order[next := key];
        next := (next + 1) % |order|;
      }
      seen := seen + {key};
    }

    /** Answers from the cache, or runs the verifier and remembers what verified. */
    method Verify(verify: Verifier, sha: Sha, q: Query) returns (a: Answer)
      requires Valid()
      modifies this
      ensures Valid()
      ensures var key := sha(KeyInput(q));
        if key in old(seen) then a == VERIFIED && View() == old(View()) && log == old(log)
        else && a == verify(q)
             && View() == Missed(old(View()), key, a)
             && log == (if a == VERIFIED then old(log) + [key] else old(log))
    {
      hide Ring, Add, KeyInput;
      var w := BuildKeyInput(q);
      var key := sha(w);
      RingNext(View(), log);
      if key in seen {
        return VERIFIED;
      }
      RingRuns(View(), log, runs + 1);
      runs := runs + 1;
      a := verify(q);
      if a == VERIFIED {
        Insert(key);
      }
    }
  }

  /** The cache after a miss that the verifier answered. */
  function Missed(c: Cache, key: nat, a: Answer): Cache {
    var d := c.(runs := c.runs + 1);
    if a == VERIFIED && (|c.order| < c.cap || c.next < |c.order|) then Add(d, key) else d
  }

  lemma EmptyRing(c: Cache)
    requires c.cap >= 1 && c.seen == {} && c.order == [] && c.next == 0
    ensures Ring(c, [])
  {
    assert Queue(c) == [];
  }

  lemma RingNext(c: Cache, log: seq<nat>)
    requires Ring(c, log)
    ensures |c.order| < c.cap || c.next < |c.order|
  {
  }

  lemma RingRuns(c: Cache, log: seq<nat>, runs: nat)
    requires Ring(c, log)
    ensures Ring(c.(runs := runs), log)
  {
    assert Queue(c.(runs := runs)) == Queue(c);
  }
}
