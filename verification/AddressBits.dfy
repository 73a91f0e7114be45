/** Bit strings, and the regrouping of values between widths. */
module AddressBits {
  import opened Arithmetic

  datatype Result<T> = Ok(value: T) | Err

  // ---------------------------------------------------------------- bit strings

  /** The low w bits of x, most significant first. */
  function BitsOf(x: nat, w: nat): (b: seq<bool>)
    ensures |b| == w
  {
    if w == 0 then [] else BitsOf(x / 2, w - 1) + [x % 2 == 1]
  }

  function Val(b: seq<bool>): nat {
    if b == [] then 0 else 2 * Val(b[..|b| - 1]) + (if b[|b| - 1] then 1 else 0)
  }

  function Zeros(n: nat): (b: seq<bool>)
    ensures |b| == n && forall i | 0 <= i < n :: !b[i]
  {
    seq(n, _ => false)
  }

  /** The bits of a list of w-bit values. */
  function Bits(data: seq<nat>, w: nat): (b: seq<bool>)
    ensures |b| == |data| * w
  {
    if data == [] then [] else Bits(data[..|data| - 1], w) + BitsOf(data[|data| - 1], w)
  }

  predicate Fits(data: seq<nat>, w: nat) {
    forall d | d in data :: d < Pow2(w)
  }

  lemma {:induction false} ValBits(x: nat, w: nat)
    requires x < Pow2(w)
    ensures Val(BitsOf(x, w)) == x
  {
    if w > 0 {
      ValBits(x / 2, w - 1);
      assert BitsOf(x, w)[..w - 1] == BitsOf(x / 2, w - 1);
    }
  }

  lemma {:induction false} BitsVal(b: seq<bool>)
    ensures Val(b) < Pow2(|b|) && BitsOf(Val(b), |b|) == b
  {
    if b != [] {
      BitsVal(b[..|b| - 1]);
      assert b == b[..|b| - 1] + [b[|b| - 1]];
    }
  }

  /** The bits of a number are the bits of its high part, then those of its low part. */
  lemma {:induction false} BitsSplit(hi: nat, lo: nat, n: nat, m: nat)
    requires lo < Pow2(m)
    ensures BitsOf(hi * Pow2(m) + lo, n + m) == BitsOf(hi, n) + BitsOf(lo, m)
    decreases m
  {
    var x := hi * Pow2(m) + lo;
    if m == 0 {
      assert x == hi;
    } else {
      BitsSplit(hi, lo / 2, n, m - 1);
      assert hi * Pow2(m) == 2 * (hi * Pow2(m - 1));
      assert x / 2 == hi * Pow2(m - 1) + lo / 2 && x % 2 == lo % 2;
    }
  }

  lemma {:induction false} BitsOfZero(n: nat)
    ensures BitsOf(0, n) == Zeros(n)
  {
    if n > 0 {
      BitsOfZero(n - 1);
    }
  }

  lemma FitsPrefix(a: seq<nat>, n: nat, w: nat)
    requires n <= |a| && Fits(a, w)
    ensures Fits(a[..n], w)
  {
    forall d | d in a[..n] ensures d in a {
    }
  }

  lemma BitsParts(a: seq<nat>, w: nat)
    requires a != []
    ensures var n := |a| - 1;
      0 <= n * w <= |Bits(a, w)| && Bits(a, w)[..n * w] == Bits(a[..n], w) && Bits(a, w)[n * w..] == BitsOf(a[n], w)
  {
    var n := |a| - 1;
    assert n * w + w == |a| * w;
  }

  /** Values that fit are determined by their bits. */
  lemma {:induction false} BitsInjective(a: seq<nat>, b: seq<nat>, w: nat)
    requires w > 0 && Fits(a, w) && Fits(b, w) && Bits(a, w) == Bits(b, w)
    ensures a == b
    decreases |a|
  {
    hide Bits, BitsOf, Pow2;
    SameCount(|a|, |b|, w);
    if a != [] {
      var n := |a| - 1;
      BitsParts(a, w);
      BitsParts(b, w);
      assert a[n] in a && b[n] in b;
      FitsPrefix(a, n, w);
      FitsPrefix(b, n, w);
      BitsInjective(a[..n], b[..n], w);
      ValBits(a[n], w);
      ValBits(b[n], w);
      assert a == a[..n] + [a[n]] && b == b[..n] + [b[n]];
    }
  }

  lemma SameCount(a: nat, b: nat, w: nat)
    requires w > 0 && a * w == b * w
    ensures a == b
  {
    DivideUnique(a, 0, w);
    DivideUnique(b, 0, w);
  }

  // ---------------------------------------------------------------- regrouping

  /** The values of the whole w-bit groups of a bit string. */
  function Groups(b: seq<bool>, w: nat): seq<nat>
    requires w > 0
    decreases |b|
  {
    if |b| < w then [] else [Val(b[..w])] + Groups(b[w..], w)
  }

  function Leftover(b: seq<bool>, w: nat): (r: seq<bool>)
    requires w > 0
    ensures |r| < w
    decreases |b|
  {
    if |b| < w then b else Leftover(b[w..], w)
  }

  /** Regroups values from one width to another. With padding a last, partial group is
      filled with zeros; without it, leftover bits must be few and all zero. */
  function ConvertBits(data: seq<nat>, from: nat, to: nat, pad: bool): Result<seq<nat>>
    requires to > 0
  {
    if !Fits(data, from) then Err else
    var b := Bits(data, from);
    var rest := Leftover(b, to);
    if pad then
      if rest == [] then Ok(Groups(b, to)) else Ok(Groups(b, to) + [Val(rest + Zeros(to - |rest|))])
    else
      if |rest| >= from || rest != Zeros(|rest|) then Err else Ok(Groups(b, to))
  }

  lemma Reassociate(a: seq<bool>, b: seq<bool>, c: seq<bool>)
    ensures (a + b) + c == a + (b + c)
  {
  }

  lemma GroupsStep(b: seq<bool>, head: nat, tail: seq<nat>, rest: seq<bool>, w: nat)
    requires w <= |b| && BitsOf(head, w) == b[..w] && Bits(tail, w) + rest == b[w..]
    requires head < Pow2(w) && Fits(tail, w)
    ensures Fits([head] + tail, w) && Bits([head] + tail, w) + rest == b
  {
    hide Bits, BitsOf, Pow2;
    BitsCons(head, tail, w);
    Reassociate(b[..w], Bits(tail, w), rest);
    assert b == b[..w] + b[w..];
  }

  lemma {:induction false} GroupsOf(b: seq<bool>, w: nat)
    requires w > 0
    ensures Fits(Groups(b, w), w) && Bits(Groups(b, w), w) + Leftover(b, w) == b
    decreases |b|
  {
    if |b| >= w {
      var head, tail, rest := Val(b[..w]), Groups(b[w..], w), Leftover(b[w..], w);
      assert Groups(b, w) == [head] + tail && Leftover(b, w) == rest;
      hide Bits, BitsOf, Val, Pow2, Groups, Leftover;
      GroupsOf(b[w..], w);
      BitsVal(b[..w]);
      GroupsStep(b, head, tail, rest, w);
    }
  }

  lemma {:induction false} BitsCons(x: nat, data: seq<nat>, w: nat)
    ensures Bits([x] + data, w) == BitsOf(x, w) + Bits(data, w)
  {
    if data == [] {
      assert [x][..0] == [] && [x] + data == [x];
    } else {
      var n := |data| - 1;
      BitsCons(x, data[..n], w);
      assert ([x] + data)[..n + 1] == [x] + data[..n];
      assert (BitsOf(x, w) + Bits(data[..n], w)) + BitsOf(data[n], w) ==
        BitsOf(x, w) + (Bits(data[..n], w) + BitsOf(data[n], w));
    }
  }

  /** Whole groups followed by fewer than w bits regroup to themselves. */
  lemma GroupsUnique(data: seq<nat>, tail: seq<bool>, w: nat)
    requires w > 0 && Fits(data, w) && |tail| < w
    ensures Groups(Bits(data, w) + tail, w) == data && Leftover(Bits(data, w) + tail, w) == tail
  {
    hide Groups, Leftover, Bits;
    var b := Bits(data, w) + tail;
    var g, r := Groups(b, w), Leftover(b, w);
    GroupsOf(b, w);
    assert |b| == |g| * w + |r| == |data| * w + |tail|;
    DivideUnique(|g|, |r|, w);
    DivideUnique(|data|, |tail|, w);
    assert Bits(g, w) == b[..|g| * w] == Bits(data, w);
    assert r == b[|g| * w..] == tail;
    BitsInjective(g, data, w);
  }


  /** Bytes to symbols and back: the padding is recognised and dropped. */
  lemma RegroupRoundTrip(bytes: seq<nat>)
    requires Fits(bytes, 8)
    ensures var s := ConvertBits(bytes, 8, 5, true);
      s.Ok? && Fits(s.value, 5) && ConvertBits(s.value, 5, 8, false) == Ok(bytes)
  {
    hide Groups, Leftover, Bits, Val, Pow2;
    var b := Bits(bytes, 8);
    var g, rest := Groups(b, 5), Leftover(b, 5);
    GroupsOf(b, 5);
    var s := ConvertBits(bytes, 8, 5, true).value;
    var pad := if rest == [] then [] else Zeros(5 - |rest|);
    assert Bits(s, 5) == b + pad && Fits(s, 5) by {
      if rest == [] {
        assert b + pad == b;
      } else {
        BitsVal(rest + pad);
        BitsSnoc(g, Val(rest + pad), 5);
        assert Bits(g, 5) + (rest + pad) == (Bits(g, 5) + rest) + pad;
      }
    }
    GroupsUnique(bytes, pad, 8);
    assert pad == Zeros(|pad|);
  }

  lemma BitsSnoc(data: seq<nat>, x: nat, w: nat)
    ensures Bits(data + [x], w) == Bits(data, w) + BitsOf(x, w)
  {
    assert (data + [x])[..|data|] == data;
  }

  /** Symbols accepted as bytes are exactly the padded symbols of those bytes. */
  lemma RegroupCanonical(symbols: seq<nat>, bytes: seq<nat>)
    requires ConvertBits(symbols, 5, 8, false) == Ok(bytes)
    ensures Fits(bytes, 8) && ConvertBits(bytes, 8, 5, true) == Ok(symbols)
  {
    hide Groups, Leftover, Bits, Val, Pow2;
    var b := Bits(symbols, 5);
    var rest := Leftover(b, 8);
    GroupsOf(b, 8);
    RegroupRoundTrip(bytes);
    var s := ConvertBits(bytes, 8, 5, true).value;
    var b2 := Bits(s, 5);
    GroupsOf(b2, 8);
    var rest2 := Leftover(b2, 8);
    assert |symbols| * 5 == |bytes| * 8 + |rest| && |s| * 5 == |bytes| * 8 + |rest2|;
    assert |symbols| == |s| && |rest| == |rest2|;
    assert b == b2;
    BitsInjective(symbols, s, 5);
  }
}
