/** Value balance: what the binding key of a bundle says about the notes inside it. */
module OrchardBalance {
  import opened Orchard
  import opened OrchardPoints

  const MAX_VALUE: nat := 0x7fff_ffff_ffff_ffff
  const U64: nat := 0x1_0000_0000_0000_0000

  // ---------------------------------------------------------------- commitments

  /** What an action commits to: a note spent, a note made, and its blinding. */
  datatype Opening = Opening(assetSpend: nat, spend: nat, assetOut: nat, out: nat, rcv: nat)

  function ValueCommit(o: Opening): Point {
    Add(Sub(Mul(ValueBase(o.assetSpend), o.spend), Mul(ValueBase(o.assetOut), o.out)), Mul(R, o.rcv))
  }

  function Spent(o: Opening, a: nat): nat {
    if o.assetSpend == a then o.spend else 0
  }

  function Made(o: Opening, a: nat): nat {
    if o.assetOut == a then o.out else 0
  }

  lemma CommitCoeff(o: Opening, a: nat)
    ensures Coeff(ValueCommit(o), a) == Mod(Spent(o, a) - Made(o, a))
  {
    hide Add, Mul, Mod, Coeff;
    var g, k := Mul(ValueBase(o.assetSpend), o.spend), Mul(ValueBase(o.assetOut), o.out);
    BaseCoeff(o.assetSpend, o.spend, a);
    BaseCoeff(o.assetOut, o.out, a);
    SubCoeff(g, k, a);
    MinusMods(Spent(o, a), Made(o, a));
    MulCoeff(R, o.rcv, a);
    NoValue(a);
    AddCoeff(Sub(g, k), Mul(R, o.rcv), a);
    ZeroProduct(o.rcv);
    ModSum(Spent(o, a) - Made(o, a), 0);
    Small(0);
  }

  lemma NoValue(a: nat)
    ensures Coeff(R, a) == 0 && Coeff(INFINITY, a) == 0
  {
  }

  lemma ZeroProduct(s: int)
    ensures 0 * s == 0
  {
  }

  lemma BaseCoeff(asset: nat, s: nat, a: nat)
    ensures Coeff(Mul(ValueBase(asset), s), a) == Mod(if asset == a then s else 0)
  {
    MulCoeff(ValueBase(asset), s, a);
    assert Coeff(ValueBase(asset), a) == if asset == a then 1 else 0;
  }

  lemma SubCoeff(p: Point, q: Point, a: nat)
    ensures Coeff(Sub(p, q), a) == Mod(Coeff(p, a) - Coeff(q, a))
  {
    hide Coeff, Mul, Add, Mod;
    MulCoeff(q, -1, a);
    AddCoeff(p, Mul(q, -1), a);
    ModSum(Coeff(p, a), Coeff(q, a) * -1);
  }

  lemma MinusMods(x: int, y: int)
    ensures Mod(Mod(x) - Mod(y)) == Mod(x - y)
  {
  }

  lemma CommitBlind(o: Opening)
    ensures ValueCommit(o).blind == Mod(o.rcv)
  {
    var g, k := Mul(ValueBase(o.assetSpend), o.spend), Mul(ValueBase(o.assetOut), o.out);
    hide Add, Mul, Mod;
    NoBlind(o.assetSpend, o.spend);
    NoBlind(o.assetOut, o.out);
    AddBlind(g, Mul(k, -1));
    MulBlind(k, -1);
    AddBlind(Sub(g, k), Mul(R, o.rcv));
    MulBlind(R, o.rcv);
    Small(0);
    ModSum(0, o.rcv);
  }

  lemma NoBlind(asset: nat, s: nat)
    ensures Mul(ValueBase(asset), s).blind == 0
  {
  }

  lemma MulBlind(p: Point, s: int)
    ensures Mul(p, s).blind == Mod(p.blind * s)
  {
  }

  // ---------------------------------------------------------------- totals

  function Spends(os: seq<Opening>, a: nat): nat {
    if |os| == 0 then 0 else Spends(os[..|os| - 1], a) + Spent(os[|os| - 1], a)
  }

  function Outputs(os: seq<Opening>, a: nat): nat {
    if |os| == 0 then 0 else Outputs(os[..|os| - 1], a) + Made(os[|os| - 1], a)
  }

  function Blinds(os: seq<Opening>): nat {
    if |os| == 0 then 0 else Blinds(os[..|os| - 1]) + os[|os| - 1].rcv
  }

  /** What leaves the pool in asset a. */
  function Leaving(bs: seq<Balance>, a: nat): nat {
    if |bs| == 0 then 0 else
    Leaving(bs[..|bs| - 1], a) + if bs[|bs| - 1].asset == a then bs[|bs| - 1].value else 0
  }

  ghost predicate Balanced(os: seq<Opening>, bs: seq<Balance>) {
    forall a :: Spends(os, a) - Outputs(os, a) == Leaving(bs, a)
  }

  ghost predicate OneEach(bs: seq<Balance>) {
    forall i, j | 0 <= i < j < |bs| :: bs[i].asset != bs[j].asset
  }

  lemma {:induction false} NoteBounds(os: seq<Opening>, a: nat)
    requires forall i | 0 <= i < |os| :: os[i].spend <= MAX_VALUE && os[i].out <= MAX_VALUE
    ensures Spends(os, a) <= |os| * MAX_VALUE && Outputs(os, a) <= |os| * MAX_VALUE
  {
    if |os| > 0 {
      NoteBounds(os[..|os| - 1], a);
    }
  }

  /** With one balance per asset, an asset's balance is a single 64-bit value. */
  lemma {:induction false} LeavingBound(bs: seq<Balance>, a: nat)
    requires OneEach(bs) && forall i | 0 <= i < |bs| :: bs[i].value < U64
    ensures Leaving(bs, a) < U64
    ensures (forall i | 0 <= i < |bs| :: bs[i].asset != a) ==> Leaving(bs, a) == 0
  {
    if |bs| > 0 {
      var n := |bs| - 1;
      LeavingBound(bs[..n], a);
      if bs[n].asset == a {
        assert forall i | 0 <= i < n :: bs[..n][i].asset != a;
      }
    }
  }

  // ---------------------------------------------------------------- the binding key

  datatype Option<T> = Some(value: T) | None

  type BaseFunc = nat -> Option<Point>

  function CanonicalBase(): BaseFunc {
    (asset: nat) => Some(ValueBase(asset))
  }

  function SumCv(actions: seq<Action<Point>>): Point {
    if |actions| == 0 then INFINITY else Add(SumCv(actions[..|actions| - 1]), actions[|actions| - 1].cv)
  }

  function TakeBalances(p: Point, bs: seq<Balance>, base: BaseFunc): Option<Point> {
    if |bs| == 0 then Some(p) else
    var q := TakeBalances(p, bs[..|bs| - 1], base);
    var g := base(bs[|bs| - 1].asset);
    if q.None? || g.None? then None else Some(Sub(q.value, Mul(g.value, bs[|bs| - 1].value)))
  }

  function KeyOf(b: Bundle<Point>, base: BaseFunc): Option<Point> {
    TakeBalances(SumCv(b.actions), b.balances, base)
  }

  /** The commitments' sum less each balance times its base. */
  method BindingKey(b: Bundle<Point>, base: BaseFunc) returns (r: Option<Point>)
    ensures r == KeyOf(b, base)
  {
    hide Add, Sub, Mul;
    var bvk := INFINITY;
    for i := 0 to |b.actions|
      invariant bvk == SumCv(b.actions[..i])
    {
      bvk := Add(bvk, b.actions[i].cv);
      assert b.actions[..i + 1][..i] == b.actions[..i];
    }
    assert b.actions[..|b.actions|] == b.actions;
    for i := 0 to |b.balances|
      invariant Some(bvk) == TakeBalances(SumCv(b.actions), b.balances[..i], base)
    {
      assert b.balances[..i + 1][..i] == b.balances[..i];
      var g := base(b.balances[i].asset);
      if g.None? {
        Refused(SumCv(b.actions), b.balances, i, base);
        return None;
      }
      bvk := Sub(bvk, Mul(g.value, b.balances[i].value));
    }
    assert b.balances[..|b.balances|] == b.balances;
    return Some(bvk);
  }

  lemma {:induction false} Refused(p: Point, bs: seq<Balance>, i: nat, base: BaseFunc)
    requires i < |bs| && base(bs[i].asset) == None
    ensures TakeBalances(p, bs, base) == None
  {
    if i < |bs| - 1 {
      Refused(p, bs[..|bs| - 1], i, base);
    }
  }

  /** The actions' commitments open to the given notes. */
  ghost predicate Opens(actions: seq<Action<Point>>, os: seq<Opening>) {
    |actions| == |os| && forall i | 0 <= i < |os| :: actions[i].cv == ValueCommit(os[i])
  }

  lemma {:induction false} SumCvCoeff(actions: seq<Action<Point>>, os: seq<Opening>, a: nat)
    requires Opens(actions, os)
    ensures Coeff(SumCv(actions), a) == Mod(Spends(os, a) - Outputs(os, a))
    ensures SumCv(actions).blind == Mod(Blinds(os))
  {
    hide Add, Mul, Mod, Coeff, ValueCommit;
    if |os| == 0 {
      NoValue(a);
      Small(0);
    } else {
      var n := |os| - 1;
      var o := os[n];
      SumCvCoeff(actions[..n], os[..n], a);
      CommitCoeff(o, a);
      CommitBlind(o);
      AddCoeff(SumCv(actions[..n]), actions[n].cv, a);
      AddBlind(SumCv(actions[..n]), actions[n].cv);
      PlusMods(Spends(os[..n], a) - Outputs(os[..n], a), Spent(o, a) - Made(o, a));
      PlusMods(Blinds(os[..n]), o.rcv);
    }
  }

  lemma AddBlind(p: Point, q: Point)
    ensures Add(p, q).blind == Mod(p.blind + q.blind)
  {
  }

  lemma PlusMods(x: int, y: int)
    ensures Mod(Mod(x) + Mod(y)) == Mod(x + y)
  {
  }

  lemma {:induction false} TakeCoeff(p: Point, bs: seq<Balance>, a: nat)
    ensures var q := TakeBalances(p, bs, CanonicalBase());
      q.Some? && Coeff(q.value, a) == Mod(Coeff(p, a) - Leaving(bs, a)) && q.value.blind == p.blind
  {
    hide Add, Mul, Mod, Coeff, Sub;
    if |bs| == 0 {
      SmallCoeff(p, a);
    } else {
      var n := |bs| - 1;
      TakeCoeff(p, bs[..n], a);
      var q := TakeBalances(p, bs[..n], CanonicalBase()).value;
      var g := Mul(ValueBase(bs[n].asset), bs[n].value);
      BaseCoeff(bs[n].asset, bs[n].value, a);
      SubCoeff(q, g, a);
      SubBlind(q, bs[n].asset, bs[n].value);
      MinusMods(Coeff(p, a) - Leaving(bs[..n], a), if bs[n].asset == a then bs[n].value else 0);
    }
  }

  lemma SmallCoeff(p: Point, a: nat)
    ensures Mod(Coeff(p, a)) == Coeff(p, a)
  {
  }

  lemma SubBlind(p: Point, asset: nat, s: nat)
    ensures Sub(p, Mul(ValueBase(asset), s)).blind == p.blind
  {
  }

  /** The key's coefficient on an asset is the residue of what the bundle leaves
      unaccounted for in it; on R it is the residue of the blindings. */
  lemma KeyCoeff(b: Bundle<Point>, os: seq<Opening>, a: nat)
    requires Opens(b.actions, os)
    ensures var k := KeyOf(b, CanonicalBase());
      && k.Some?
      && Coeff(k.value, a) == Mod(Spends(os, a) - Outputs(os, a) - Leaving(b.balances, a))
      && k.value.blind == Mod(Blinds(os))
  {
    hide Mod, Coeff, TakeBalances, SumCv, Spends, Outputs, Leaving, Blinds, Opens, CanonicalBase;
    SumCvCoeff(b.actions, os, a);
    TakeCoeff(SumCv(b.actions), b.balances, a);
    MinusMod(Spends(os, a) - Outputs(os, a), Leaving(b.balances, a));
  }

  lemma MinusMod(x: int, y: int)
    ensures Mod(Mod(x) - y) == Mod(x - y)
  {
  }

  /** The bounds under which a balance modulo the order is one over the integers. */
  ghost predicate InRange(b: Bundle<Point>, os: seq<Opening>) {
    && |os| <= MAX_ACTIONS
    && (forall i | 0 <= i < |os| :: os[i].spend <= MAX_VALUE && os[i].out <= MAX_VALUE)
    && OneEach(b.balances)
    && (forall i | 0 <= i < |b.balances| :: b.balances[i].value < U64)
  }

  ghost predicate NoValuePart(p: Point) {
    forall a :: Coeff(p, a) == 0
  }

  lemma AssetExact(b: Bundle<Point>, os: seq<Opening>, a: nat)
    requires Opens(b.actions, os) && InRange(b, os)
    ensures KeyOf(b, CanonicalBase()).Some?
    ensures Coeff(KeyOf(b, CanonicalBase()).value, a) == 0 <==> Spends(os, a) - Outputs(os, a) == Leaving(b.balances, a)
  {
    hide Coeff, KeyOf, Opens;
    KeyCoeff(b, os, a);
    NoteBounds(os, a);
    LeavingBound(b.balances, a);
    var x := Spends(os, a) - Outputs(os, a) - Leaving(b.balances, a);
    assert |os| * MAX_VALUE <= MAX_ACTIONS * MAX_VALUE;
    if Mod(x) == 0 {
      SmallZero(x);
    }
  }

  /** The value part of the binding key vanishes exactly when spends less outputs are the
      public balance, over the integers, in every asset. */
  lemma BalanceExact(b: Bundle<Point>, os: seq<Opening>)
    requires Opens(b.actions, os) && InRange(b, os)
    ensures KeyOf(b, CanonicalBase()).Some?
    ensures NoValuePart(KeyOf(b, CanonicalBase()).value) <==> Balanced(os, b.balances)
  {
    hide Coeff, KeyOf, Opens, InRange, Spends, Outputs, Leaving;
    AssetExact(b, os, 0);
    var p := KeyOf(b, CanonicalBase()).value;
    forall a ensures Coeff(p, a) == 0 <==> Spends(os, a) - Outputs(os, a) == Leaving(b.balances, a) {
      AssetExact(b, os, a);
    }
  }

  // ---------------------------------------------------------------- the honest key

  /** The sum of the blindings, modulo the order. */
  method BindingSigningKey(rcvs: seq<nat>) returns (bsk: nat)
    ensures bsk == Mod(Total(rcvs))
  {
    bsk := 0;
    for i := 0 to |rcvs|
      invariant bsk == Mod(Total(rcvs[..i]))
    {
      assert rcvs[..i + 1][..i] == rcvs[..i];
      PlusMods(Total(rcvs[..i]), rcvs[i]);
      bsk := Mod(bsk + Mod(rcvs[i]));
    }
    assert rcvs[..|rcvs|] == rcvs;
  }

  function Total(xs: seq<nat>): nat {
    if |xs| == 0 then 0 else Total(xs[..|xs| - 1]) + xs[|xs| - 1]
  }

  /** A bundle whose notes balance has the key of its blindings alone. */
  lemma HonestKey(b: Bundle<Point>, os: seq<Opening>)
    requires Opens(b.actions, os) && Balanced(os, b.balances)
    ensures KeyOf(b, CanonicalBase()) == Some(Mul(R, Mod(Blinds(os))))
  {
    hide Coeff, KeyOf, Opens, Spends, Outputs, Leaving, Mul, Mod;
    KeyCoeff(b, os, 0);
    var k, r := KeyOf(b, CanonicalBase()).value, Mul(R, Mod(Blinds(os)));
    forall a ensures Coeff(k, a) == Coeff(r, a) {
      KeyCoeff(b, os, a);
      MulCoeff(R, Mod(Blinds(os)), a);
      NoValue(a);
      ZeroProduct(Mod(Blinds(os)));
    }
    BlindOf(Mod(Blinds(os)));
    Extensional(k, r);
  }

  lemma BlindOf(s: nat)
    requires s < N
    ensures Mul(R, s).blind == s
  {
  }
}
