/** Powers of two and the division facts shared by the codec and the trees. */
module Arithmetic {

  /** The order of BN254's scalar field. */
  const FIELD: nat := 21888242871839275222246405745257275088548364400416034343698204186575808495617

  // ---------------------------------------------------------------- powers of two

  function Pow2(n: nat): (p: nat)
    ensures p > 0
  {
    if n == 0 then 1 else 2 * Pow2(n - 1)
  }

  lemma {:induction false} Pow2Add(a: nat, b: nat)
    ensures Pow2(a + b) == Pow2(a) * Pow2(b)
  {
    if a > 0 {
      Pow2Add(a - 1, b);
    }
  }

  lemma DivideUnique(q: int, r: int, d: int)
    requires d > 0 && 0 <= r < d
    ensures (q * d + r) / d == q && (q * d + r) % d == r
  {
    var x := q * d + r;
    assert d * (x / d) + x % d == x;
    assert d * (x / d - q) == r - x % d;
    Cancel(d, x / d - q);
  }

  lemma Cancel(d: int, k: int)
    requires d > 0 && -d < d * k < d
    ensures k == 0
  {
  }

  /** Reducing modulo a multiple first changes nothing. */
  lemma ModMod(x: nat, a: nat, b: nat)
    requires a > 0 && b > 0
    ensures a * b > 0 && (x % (a * b)) % b == x % b
  {
    var q, r := x / (a * b), x % (a * b);
    assert x == (a * b) * q + r;
    var s, t := r / b, r % b;
    assert r == b * s + t;
    assert x == (a * q + s) * b + t by {
      assert (a * b) * q == (a * q) * b;
    }
    DivideUnique(a * q + s, t, b);
  }

  /** Shifting in low bits keeps what was kept of the high ones. */
  lemma ShiftIn(x: nat, y: nat, b: nat, f: nat)
    requires b > 0 && 0 <= y < f
    ensures b * f > 0 && (x * f + y) % (b * f) == (x % b) * f + y
  {
    var q, r := x / b, x % b;
    assert x == b * q + r;
    Regroup(b, q, r, f);
    Fewer(r, b, f);
    DivideUnique(q, r * f + y, b * f);
  }

  lemma Regroup(b: nat, q: nat, r: nat, f: nat)
    ensures (b * q + r) * f == q * (b * f) + r * f
  {
  }

  lemma Fewer(r: nat, b: nat, f: nat)
    requires r < b
    ensures r * f + f <= b * f
  {
    assert (r + 1) * f <= b * f;
  }

  /** A middle field, read out of the whole or out of its low part. */
  lemma MiddleField(x: nat, t: nat, b: nat)
    requires t > 0 && b > 0
    ensures t * b > 0 && (x / b) % t == (x % (t * b)) / b && x % b == (x % (t * b)) % b && (x % (t * b)) / b < t
  {
    ModMod(x, t, b);
    var q, r := x / (t * b), x % (t * b);
    assert x == (t * b) * q + r;
    var s, u := r / b, r % b;
    assert r == s * b + u;
    assert x == (q * t + s) * b + u by {
      assert (t * b) * q == (q * t) * b;
    }
    DivideUnique(q * t + s, u, b);
    assert s < t by {
      assert s * b < t * b;
    }
    assert s >= 0;
    DivideUnique(q, s, t);
  }
}
