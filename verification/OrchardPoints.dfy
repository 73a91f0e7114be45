/** Curve points as formal combinations of independent bases: one per asset, and the
    blinding base R, with coefficients modulo the group order. */
module OrchardPoints {

  /** The order of Grumpkin's group. */
  const N: nat := 21888242871839275222246405745257275088696311157297823662689037894645226208583

  /** Non-zero coefficients of the asset bases, and the coefficient of R. */
  datatype Combination = Combination(value: map<nat, nat>, blind: nat)

  ghost predicate Reduced(p: Combination) {
    p.blind < N && forall a | a in p.value :: 0 < p.value[a] < N
  }

  type Point = p: Combination | Reduced(p) witness Combination(map[], 0)

  const INFINITY: Point := Combination(map[], 0)

  const R: Point := Combination(map[], 1)

  /** The base of one asset. */
  function ValueBase(asset: nat): Point {
    Combination(map[asset := 1], 0)
  }

  function Coeff(p: Point, a: nat): (c: nat)
    ensures c < N
  {
    if a in p.value then p.value[a] else 0
  }

  function Mod(x: int): (r: nat)
    ensures r < N
  {
    x % N
  }

  function Add(p: Point, q: Point): Point {
    Combination(map a | a in p.value.Keys + q.value.Keys && Mod(Coeff(p, a) + Coeff(q, a)) != 0 ::
      Mod(Coeff(p, a) + Coeff(q, a)),
                Mod(p.blind + q.blind))
  }

  /** A scalar multiple; the scalar may be any integer. */
  function Mul(p: Point, s: int): Point {
    Combination(map a | a in p.value && Mod(Coeff(p, a) * s) != 0 :: Mod(Coeff(p, a) * s), Mod(p.blind * s))
  }

  function Sub(p: Point, q: Point): Point {
    Add(p, Mul(q, -1))
  }

  lemma Extensional(p: Point, q: Point)
    requires p.blind == q.blind && forall a :: Coeff(p, a) == Coeff(q, a)
    ensures p == q
  {
    forall a ensures a in p.value <==> a in q.value {
      assert Coeff(p, a) == Coeff(q, a);
    }
    forall a | a in p.value ensures p.value[a] == q.value[a] {
      assert Coeff(p, a) == Coeff(q, a);
    }
    assert p.value == q.value;
  }

  lemma AddCoeff(p: Point, q: Point, a: nat)
    ensures Coeff(Add(p, q), a) == Mod(Coeff(p, a) + Coeff(q, a))
  {
    Small(0);
  }

  lemma MulCoeff(p: Point, s: int, a: nat)
    ensures Coeff(Mul(p, s), a) == Mod(Coeff(p, a) * s)
  {
    Small(0);
    if a !in p.value {
      assert Coeff(p, a) * s == 0;
    }
  }

  // ---------------------------------------------------------------- residues

  lemma Small(x: int)
    requires 0 <= x < N
    ensures Mod(x) == x
  {
  }

  /** A residue is what is left after taking away some multiple of the order. */
  lemma Residue(x: int, q: int, r: nat)
    requires x == q * N + r && r < N
    ensures Mod(x) == r
  {
  }

  lemma ModSum(x: int, y: int)
    ensures Mod(Mod(x) + y) == Mod(x + y) && Mod(x + Mod(y)) == Mod(x + y)
  {
    ModSumLeft(x, y);
    ModSumLeft(y, x);
  }

  lemma ModSumLeft(x: int, y: int)
    ensures Mod(Mod(x) + y) == Mod(x + y)
  {
  }

  lemma ModProduct(x: int, y: int)
    ensures Mod(Mod(x) * y) == Mod(x * y)
  {
    var q := x / N;
    assert x == q * N + Mod(x);
    var z := Mod(x) * y;
    assert x * y == (q * y) * N + z by {
      Spread(q, N, Mod(x), y);
    }
    assert z == (z / N) * N + Mod(z);
    Gather(q * y, z / N, N);
    Residue(x * y, q * y + z / N, Mod(z));
  }

  lemma Spread(q: int, n: int, m: int, y: int)
    ensures (q * n + m) * y == (q * y) * n + m * y
  {
  }

  lemma Gather(a: int, b: int, n: int)
    ensures a * n + b * n == (a + b) * n
  {
  }

  /** Integers that agree modulo the order and are close are equal. */
  lemma SmallZero(x: int)
    requires 0 - N < x < N && Mod(x) == 0
    ensures x == 0
  {
  }
}
