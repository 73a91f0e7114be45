/** The sighash of a private message binds everything but its proofs and signatures. */
module OrchardSighash {
  import opened Arithmetic
  import opened BigEndian
  import opened Orchard

  type Hash = seq<nat> -> nat

  /** Tags: "earth.bytes", "earth.signal", "earth.bundle" as big-endian integers. */
  const TAG_BYTES: nat := 0x65617274682e6279746573
  const TAG_SIGNAL: nat := 0x65617274682e7369676e616c
  const TAG_BUNDLE: nat := 0x65617274682e62756e646c65

  /** Two different inputs with one hash. */
  predicate Collides(h: Hash, a: seq<nat>, b: seq<nat>) {
    a != b && h(a) == h(b)
  }

  // ---------------------------------------------------------------- byte strings

  /** A byte string as 31-byte big-endian elements. */
  function Chunks31(b: seq<Byte>): seq<nat> {
    if |b| == 0 then []
    else if |b| <= 31 then [Value(b)]
    else [Value(b[..31])] + Chunks31(b[31..])
  }

  function BytesInput(b: seq<Byte>): seq<nat> {
    [TAG_BYTES, |b|] + Chunks31(b)
  }

  function Bytes(h: Hash, b: seq<Byte>): nat {
    h(BytesInput(b))
  }

  method SplitChunks(b: seq<Byte>) returns (out: seq<nat>)
    ensures out == Chunks31(b)
  {
    out := [];
    var i := 0;
    while i < |b|
      invariant i <= |b| && out + Chunks31(b[i..]) == Chunks31(b)
    {
      var j := if i + 31 < |b| then i + 31 else |b|;
      assert b[i..][..j - i] == b[i..j] && b[i..][j - i..] == b[j..];
      assert j == |b| ==> b[i..j] == b[i..] && b[j..] == [];
      assert Chunks31(b[i..]) == [Value(b[i..j])] + Chunks31(b[j..]);
      out := out + [Value(b[i..j])];
      i := j;
    }
  }

  lemma {:induction false} ChunksInjective(a: seq<Byte>, b: seq<Byte>)
    requires |a| == |b| && Chunks31(a) == Chunks31(b)
    ensures a == b
  {
    hide Value;
    if 0 < |a| <= 31 {
      assert Chunks31(a)[0] == Chunks31(b)[0];
      ValueInjective(a, b);
    } else if |a| > 31 {
      var x, y := Chunks31(a[31..]), Chunks31(b[31..]);
      assert Chunks31(a)[0] == Chunks31(b)[0] && x == Chunks31(a)[1..] && y == Chunks31(b)[1..];
      ValueInjective(a[..31], b[..31]);
      ChunksInjective(a[31..], b[31..]);
      assert a == a[..31] + a[31..] && b == b[..31] + b[31..];
    }
  }

  /** Every chunk is below the field's order, so none is reduced. */
  lemma {:induction false} ChunksCanonical(b: seq<Byte>, i: nat)
    requires i < |Chunks31(b)|
    ensures Chunks31(b)[i] < FIELD
  {
    hide Value, Pow256;
    if i == 0 {
      var c := if |b| <= 31 then b else b[..31];
      ValueBound(c);
      ShortBound(|c|);
    } else {
      ChunksCanonical(b[31..], i - 1);
    }
  }

  lemma ShortBound(n: nat)
    requires n <= 31
    ensures Pow256(n) < FIELD
  {
    assert Pow256(31) < FIELD by {
      assert Pow256(4) == 0x1_0000_0000 && Pow256(7) == 0x100_0000_0000_0000;
      Pow256Add(4, 4);
      Pow256Add(8, 8);
      Pow256Add(16, 8);
      Pow256Add(24, 7);
    }
    Growing(n, 31);
  }

  lemma {:induction false} Growing(m: nat, n: nat)
    requires m <= n
    ensures Pow256(m) <= Pow256(n)
  {
    if m < n {
      Growing(m, n - 1);
    }
  }

  lemma BytesInputInjective(a: seq<Byte>, b: seq<Byte>)
    requires BytesInput(a) == BytesInput(b)
    ensures a == b
  {
    hide Chunks31;
    assert BytesInput(a)[1] == BytesInput(b)[1];
    assert BytesInput(a)[2..] == Chunks31(a) && BytesInput(b)[2..] == Chunks31(b);
    ChunksInjective(a, b);
  }

  lemma BytesBind(h: Hash, a: seq<Byte>, b: seq<Byte>)
    requires Bytes(h, a) == Bytes(h, b) && !Collides(h, BytesInput(a), BytesInput(b))
    ensures a == b
  {
    BytesInputInjective(a, b);
  }

  // ---------------------------------------------------------------- rows

  function Flat(rows: seq<seq<nat>>): seq<nat> {
    if |rows| == 0 then [] else Flat(rows[..|rows| - 1]) + rows[|rows| - 1]
  }

  ghost predicate Wide(rows: seq<seq<nat>>, w: nat) {
    forall i | 0 <= i < |rows| :: |rows[i]| == w
  }

  lemma {:induction false} FlatLength(rows: seq<seq<nat>>, w: nat)
    requires Wide(rows, w)
    ensures |Flat(rows)| == |rows| * w
  {
    if |rows| > 0 {
      FlatLength(rows[..|rows| - 1], w);
      assert (|rows| - 1) * w + w == |rows| * w;
    }
  }

  lemma {:induction false} FlatInjective(a: seq<seq<nat>>, b: seq<seq<nat>>, w: nat)
    requires Wide(a, w) && Wide(b, w) && |a| == |b| && Flat(a) == Flat(b)
    ensures a == b
  {
    if |a| > 0 {
      var n := |a| - 1;
      FlatLength(a[..n], w);
      FlatLength(b[..n], w);
      var k := n * w;
      assert Flat(a)[..k] == Flat(a[..n]) && Flat(b)[..k] == Flat(b[..n]);
      assert Flat(a)[k..] == a[n] && Flat(b)[k..] == b[n];
      FlatInjective(a[..n], b[..n], w);
      assert a == a[..n] + [a[n]] && b == b[..n] + [b[n]];
    }
  }

  // ---------------------------------------------------------------- bundles

  function ActionRow<P>(h: Hash, xy: P -> (nat, nat), a: Action<P>): (r: seq<nat>)
    ensures |r| == 6
  {
    [a.anchor, a.nullifier, a.commitment, xy(a.cv).0, xy(a.cv).1, Bytes(h, a.ciphertext)]
  }

  function ActionRows<P>(h: Hash, xy: P -> (nat, nat), actions: seq<Action<P>>): (r: seq<seq<nat>>)
    ensures |r| == |actions| && Wide(r, 6)
  {
    seq(|actions|, i requires 0 <= i < |actions| => ActionRow(h, xy, actions[i]))
  }

  function BalanceRows(bs: seq<Balance>): (r: seq<seq<nat>>)
    ensures |r| == |bs| && Wide(r, 2)
  {
    seq(|bs|, i requires 0 <= i < |bs| => [bs[i].asset, bs[i].value])
  }

  function DigestInput<P>(h: Hash, xy: P -> (nat, nat), b: Bundle<P>): seq<nat> {
    [TAG_BUNDLE, |b.actions|] + Flat(ActionRows(h, xy, b.actions)) + [|b.balances|] + Flat(BalanceRows(b.balances))
  }

  function Digest<P>(h: Hash, xy: P -> (nat, nat), b: Bundle<P>): nat {
    h(DigestInput(h, xy, b))
  }

  method BuildDigest<P>(h: Hash, xy: P -> (nat, nat), b: Bundle<P>) returns (d: nat)
    ensures d == Digest(h, xy, b)
  {
    var rows, more := ActionRows(h, xy, b.actions), BalanceRows(b.balances);
    var input := [TAG_BUNDLE, |b.actions|];
    for i := 0 to |b.actions|
      invariant input == [TAG_BUNDLE, |b.actions|] + Flat(rows[..i])
    {
      assert rows[..i + 1][..i] == rows[..i];
      input := input + ActionRow(h, xy, b.actions[i]);
    }
    assert rows[..|rows|] == rows;
    input := input + [|b.balances|];
    ghost var head := input;
    for i := 0 to |b.balances|
      invariant input == head + Flat(more[..i])
    {
      assert more[..i + 1][..i] == more[..i];
      input := input + [b.balances[i].asset, b.balances[i].value];
    }
    assert more[..|more|] == more;
    d := h(input);
  }

  /** Two actions agree on all but their proofs. */
  predicate SameAction<P>(xy: P -> (nat, nat), a: Action<P>, b: Action<P>) {
    && a.anchor == b.anchor && a.nullifier == b.nullifier && a.commitment == b.commitment
    && xy(a.cv) == xy(b.cv) && a.ciphertext == b.ciphertext
  }

  /** Two bundles agree on all but their proofs and binding signatures. */
  predicate SameBundle<P>(xy: P -> (nat, nat), a: Bundle<P>, b: Bundle<P>) {
    && |a.actions| == |b.actions|
    && (forall i | 0 <= i < |a.actions| :: SameAction(xy, a.actions[i], b.actions[i]))
    && a.balances == b.balances
  }

  ghost predicate CiphertextClash<P>(h: Hash, a: Bundle<P>, b: Bundle<P>) {
    exists i | 0 <= i < |a.actions| && i < |b.actions| ::
      Collides(h, BytesInput(a.actions[i].ciphertext), BytesInput(b.actions[i].ciphertext))
  }

  /** Hash inputs of the two digests that collide, place by place. */
  ghost predicate BundleClash<P>(h: Hash, xy: P -> (nat, nat), a: Bundle<P>, b: Bundle<P>) {
    Collides(h, DigestInput(h, xy, a), DigestInput(h, xy, b)) || CiphertextClash(h, a, b)
  }

  lemma SplitDigest<P>(h: Hash, xy: P -> (nat, nat), a: Bundle<P>, b: Bundle<P>)
    requires DigestInput(h, xy, a) == DigestInput(h, xy, b)
    ensures |a.actions| == |b.actions| && ActionRows(h, xy, a.actions) == ActionRows(h, xy, b.actions)
    ensures |a.balances| == |b.balances| && BalanceRows(a.balances) == BalanceRows(b.balances)
  {
    hide Flat, ActionRow;
    var p, q := DigestInput(h, xy, a), DigestInput(h, xy, b);
    assert p[1] == q[1];
    var x, y := ActionRows(h, xy, a.actions), ActionRows(h, xy, b.actions);
    FlatLength(x, 6);
    FlatLength(y, 6);
    var k := 6 * |x| + 2;
    assert p[2..k] == Flat(x) && q[2..k] == Flat(y);
    FlatInjective(x, y, 6);
    assert p[k] == q[k];
    assert p[k + 1..] == Flat(BalanceRows(a.balances)) && q[k + 1..] == Flat(BalanceRows(b.balances));
    FlatInjective(BalanceRows(a.balances), BalanceRows(b.balances), 2);
  }

  lemma RowBinds<P>(h: Hash, xy: P -> (nat, nat), a: Action<P>, b: Action<P>)
    requires ActionRow(h, xy, a) == ActionRow(h, xy, b)
    requires !Collides(h, BytesInput(a.ciphertext), BytesInput(b.ciphertext))
    ensures SameAction(xy, a, b)
  {
    hide BytesInput;
    var r, s := ActionRow(h, xy, a), ActionRow(h, xy, b);
    assert r[0] == s[0] && r[1] == s[1] && r[2] == s[2] && r[3] == s[3] && r[4] == s[4] && r[5] == s[5];
    BytesBind(h, a.ciphertext, b.ciphertext);
  }

  lemma DigestBinds<P>(h: Hash, xy: P -> (nat, nat), a: Bundle<P>, b: Bundle<P>)
    requires Digest(h, xy, a) == Digest(h, xy, b)
    ensures SameBundle(xy, a, b) || BundleClash(h, xy, a, b)
  {
    hide DigestInput, ActionRow, BytesInput, SameAction;
    if !BundleClash(h, xy, a, b) {
      SplitDigest(h, xy, a, b);
      forall i | 0 <= i < |a.actions| ensures SameAction(xy, a.actions[i], b.actions[i]) {
        assert ActionRows(h, xy, a.actions)[i] == ActionRows(h, xy, b.actions)[i];
        RowBinds(h, xy, a.actions[i], b.actions[i]);
      }
      forall i | 0 <= i < |a.balances| ensures a.balances[i] == b.balances[i] {
        var r, s := BalanceRows(a.balances)[i], BalanceRows(b.balances)[i];
        assert r[0] == s[0] && r[1] == s[1];
      }
    }
  }

  // ---------------------------------------------------------------- messages

  /** A private message: its type, chain, transaction fields, bundles and own fields. */
  datatype Message<P> = Message(msgType: seq<Byte>, chainId: seq<Byte>, memo: seq<Byte>, timeout: nat, gas: nat,
                                bundles: seq<Bundle<P>>, fields: seq<nat>)

  function Digests<P>(h: Hash, xy: P -> (nat, nat), bs: seq<Bundle<P>>): (r: seq<nat>)
    ensures |r| == |bs|
  {
    seq(|bs|, i requires 0 <= i < |bs| => Digest(h, xy, bs[i]))
  }

  function SighashInput<P>(h: Hash, xy: P -> (nat, nat), m: Message<P>): seq<nat> {
    [TAG_SIGNAL, Bytes(h, m.msgType), Bytes(h, m.chainId), |m.bundles|] + Digests(h, xy, m.bundles)
    + [Bytes(h, m.memo), m.timeout, m.gas] + m.fields
  }

  function Sighash<P>(h: Hash, xy: P -> (nat, nat), m: Message<P>): nat {
    h(SighashInput(h, xy, m))
  }

  method BuildSighash<P>(h: Hash, xy: P -> (nat, nat), m: Message<P>) returns (r: nat)
    ensures r == Sighash(h, xy, m)
  {
    hide Digest, Bytes;
    var f := [|m.bundles|];
    for i := 0 to |m.bundles|
      invariant f == [|m.bundles|] + Digests(h, xy, m.bundles)[..i]
    {
      var d := BuildDigest(h, xy, m.bundles[i]);
      f := f + [d];
    }
    f := f + [Bytes(h, m.memo), m.timeout, m.gas] + m.fields;
    var input := [TAG_SIGNAL, Bytes(h, m.msgType), Bytes(h, m.chainId)] + f;
    assert input == SighashInput(h, xy, m);
    r := h(input);
  }

  /** Two messages agree on all that the sighash is meant to bind. */
  predicate SameMessage<P>(xy: P -> (nat, nat), m: Message<P>, n: Message<P>) {
    && m.msgType == n.msgType && m.chainId == n.chainId
    && m.memo == n.memo && m.timeout == n.timeout && m.gas == n.gas && m.fields == n.fields
    && |m.bundles| == |n.bundles|
    && forall i | 0 <= i < |m.bundles| :: SameBundle(xy, m.bundles[i], n.bundles[i])
  }

  ghost predicate BundlesClash<P>(h: Hash, xy: P -> (nat, nat), m: Message<P>, n: Message<P>) {
    exists i | 0 <= i < |m.bundles| && i < |n.bundles| :: BundleClash(h, xy, m.bundles[i], n.bundles[i])
  }

  /** Hash inputs of the two computations that collide, place by place. */
  ghost predicate Clash<P>(h: Hash, xy: P -> (nat, nat), m: Message<P>, n: Message<P>) {
    || Collides(h, SighashInput(h, xy, m), SighashInput(h, xy, n))
    || Collides(h, BytesInput(m.msgType), BytesInput(n.msgType))
    || Collides(h, BytesInput(m.chainId), BytesInput(n.chainId))
    || Collides(h, BytesInput(m.memo), BytesInput(n.memo))
    || BundlesClash(h, xy, m, n)
  }

  lemma SplitSighash<P>(h: Hash, xy: P -> (nat, nat), m: Message<P>, n: Message<P>)
    requires SighashInput(h, xy, m) == SighashInput(h, xy, n)
    ensures Bytes(h, m.msgType) == Bytes(h, n.msgType) && Bytes(h, m.chainId) == Bytes(h, n.chainId)
    ensures |m.bundles| == |n.bundles| && Digests(h, xy, m.bundles) == Digests(h, xy, n.bundles)
    ensures Bytes(h, m.memo) == Bytes(h, n.memo) && m.timeout == n.timeout && m.gas == n.gas && m.fields == n.fields
  {
    hide Bytes, Digest;
    var p, q := SighashInput(h, xy, m), SighashInput(h, xy, n);
    assert p[1] == q[1] && p[2] == q[2] && p[3] == q[3];
    var k := 4 + |m.bundles|;
    assert p[4..k] == Digests(h, xy, m.bundles) && q[4..k] == Digests(h, xy, n.bundles);
    assert p[k] == q[k] && p[k + 1] == q[k + 1] && p[k + 2] == q[k + 2];
    assert p[k + 3..] == m.fields && q[k + 3..] == n.fields;
  }

  /** Equal sighashes mean equal messages, but for proofs and binding signatures, or two
      different inputs with one hash are exhibited among those the two computations hash. */
  lemma SighashBinds<P>(h: Hash, xy: P -> (nat, nat), m: Message<P>, n: Message<P>)
    requires Sighash(h, xy, m) == Sighash(h, xy, n)
    ensures SameMessage(xy, m, n) || Clash(h, xy, m, n)
  {
    hide SighashInput, BytesInput, SameBundle, BundleClash, Digest;
    if !Clash(h, xy, m, n) {
      SplitSighash(h, xy, m, n);
      BytesBind(h, m.msgType, n.msgType);
      BytesBind(h, m.chainId, n.chainId);
      BytesBind(h, m.memo, n.memo);
      forall i | 0 <= i < |m.bundles| ensures SameBundle(xy, m.bundles[i], n.bundles[i]) {
        assert Digests(h, xy, m.bundles)[i] == Digests(h, xy, n.bundles)[i];
        DigestBinds(h, xy, m.bundles[i], n.bundles[i]);
      }
    }
  }

  /** And the proofs and signatures, which are made over the sighash, are no part of it. */
  lemma SighashIgnoresProofs<P>(h: Hash, xy: P -> (nat, nat), m: Message<P>, n: Message<P>)
    requires SameMessage(xy, m, n)
    ensures Sighash(h, xy, m) == Sighash(h, xy, n)
  {
    hide Bytes, Digest, SameBundle;
    forall i | 0 <= i < |m.bundles| ensures Digest(h, xy, m.bundles[i]) == Digest(h, xy, n.bundles[i]) {
      DigestIgnores(h, xy, m.bundles[i], n.bundles[i]);
    }
    assert Digests(h, xy, m.bundles) == Digests(h, xy, n.bundles);
  }

  lemma DigestIgnores<P>(h: Hash, xy: P -> (nat, nat), a: Bundle<P>, b: Bundle<P>)
    requires SameBundle(xy, a, b)
    ensures Digest(h, xy, a) == Digest(h, xy, b)
  {
    hide Flat, Bytes;
    forall i | 0 <= i < |a.actions| ensures ActionRow(h, xy, a.actions[i]) == ActionRow(h, xy, b.actions[i]) {
      assert SameAction(xy, a.actions[i], b.actions[i]);
    }
    assert ActionRows(h, xy, a.actions) == ActionRows(h, xy, b.actions);
  }
}
