/** The binding signature: Schnorr over the blinding base, under a bundle's binding key. */
module OrchardBinding {
  import opened BigEndian
  import opened Orchard
  import opened OrchardPoints
  import opened OrchardBalance

  const SIG_SIZE: nat := 96

  /** How points are written and read, and the hash that makes the challenge. */
  datatype Scheme = Scheme(encode: Point -> seq<Byte>, decode: seq<Byte> -> Option<Point>,
                           challenge: (Point, Point, nat) -> nat)

  datatype Check = Accepted | BadSignature | IdentityKey | BadBase

  /** The equation a signature must satisfy. */
  predicate Accepts(bvk: Point, rn: Point, e: nat, s: nat) {
    Mul(R, s) == Add(rn, Mul(bvk, e))
  }

  function SignBinding(c: Scheme, bsk: nat, sighash: nat, nonce: nat): Option<seq<Byte>> {
    if Mod(nonce) == 0 then None else
    var rn := Mul(R, nonce);
    var e := c.challenge(rn, Mul(R, bsk), sighash);
    Some(c.encode(rn) + ToBytes(Mod(e * bsk + nonce), 32))
  }

  function VerifyBinding(c: Scheme, bvk: Point, sighash: nat, sig: seq<Byte>): Check {
    if |sig| != SIG_SIZE then BadSignature
    else if bvk == INFINITY then IdentityKey
    else
      var rn := c.decode(sig[..64]);
      var s := Value(sig[64..]);
      if rn.None? || rn.value == INFINITY || s >= N then BadSignature
      else if Accepts(bvk, rn.value, c.challenge(rn.value, bvk, sighash), s) then Accepted
      else BadSignature
  }

  function CheckBalance(c: Scheme, b: Bundle<Point>, base: BaseFunc, sighash: nat): Check {
    var k := KeyOf(b, base);
    if k.None? then BadBase else VerifyBinding(c, k.value, sighash, b.bindingSig)
  }

  // ---------------------------------------------------------------- completeness

  /** s*R is rn + e*bvk for the s a signer computes. */
  lemma SignerAccepts(bsk: nat, nonce: nat, e: nat)
    ensures Accepts(Mul(R, bsk), Mul(R, nonce), e, Mod(e * bsk + nonce))
  {
    hide Mul, Add, Coeff, Mod;
    var s := Mod(e * bsk + nonce);
    var l, r := Mul(R, s), Add(Mul(R, nonce), Mul(Mul(R, bsk), e));
    forall a ensures Coeff(l, a) == Coeff(r, a) {
      OnlyBlind(s, a);
      OnlyBlind(nonce, a);
      OnlyBlind(bsk, a);
      MulCoeff(Mul(R, bsk), e, a);
      ZeroProduct(e);
      AddCoeff(Mul(R, nonce), Mul(Mul(R, bsk), e), a);
      Small(0);
    }
    MulBlind(R, s);
    MulBlind(R, nonce);
    MulBlind(R, bsk);
    MulBlind(Mul(R, bsk), e);
    AddBlind(Mul(R, nonce), Mul(Mul(R, bsk), e));
    SignerBlind(bsk, nonce, e);
    Extensional(l, r);
  }

  lemma OnlyBlind(s: nat, a: nat)
    ensures Coeff(Mul(R, s), a) == 0
  {
  }

  lemma SignerBlind(bsk: nat, nonce: nat, e: nat)
    ensures Mod(1 * Mod(e * bsk + nonce)) == Mod(Mod(1 * nonce) + Mod(Mod(1 * bsk) * e))
  {
    hide Mod;
    ModProduct(bsk, e);
    PlusMods(nonce, bsk * e);
    ModSum(0, e * bsk + nonce);
  }

  lemma OrderFits()
    ensures N < Pow256(32)
  {
    Pow256At32();
  }

  /** A signature's bytes read back as the commitment and the scalar written in them. */
  lemma EncodedVerifies(c: Scheme, bvk: Point, sighash: nat, rn: Point, s: nat)
    requires rn != INFINITY && s < N && |c.encode(rn)| == 64 && c.decode(c.encode(rn)) == Some(rn)
    requires Accepts(bvk, rn, c.challenge(rn, bvk, sighash), s)
    ensures VerifyBinding(c, bvk, sighash, c.encode(rn) + ToBytes(s, 32)) ==
      if bvk == INFINITY then IdentityKey else Accepted
  {
    hide Mul, Add, Coeff, Mod, Accepts, Value, Pow256, ToBytes;
    OrderFits();
    ValueOfBytes(s, 32);
    var sig := c.encode(rn) + ToBytes(s, 32);
    assert |ToBytes(s, 32)| == 32 by { BytesLength(s, 32); }
    assert sig[..64] == c.encode(rn) && sig[64..] == ToBytes(s, 32);
  }

  lemma BytesLength(s: nat, k: nat)
    ensures |ToBytes(s, k)| == k
  {
  }

  /** A signature made with a non-zero nonce verifies under its key, unless the key is the
      identity, which is refused. */
  lemma SignedVerifies(c: Scheme, bsk: nat, sighash: nat, nonce: nat)
    requires bsk < N && Mod(nonce) != 0
    requires var rn := Mul(R, nonce); |c.encode(rn)| == 64 && c.decode(c.encode(rn)) == Some(rn)
    ensures SignBinding(c, bsk, sighash, nonce).Some?
    ensures VerifyBinding(c, Mul(R, bsk), sighash, SignBinding(c, bsk, sighash, nonce).value) ==
            if bsk == 0 then IdentityKey else Accepted
  {
    hide Mul, Add, Coeff, Mod, Accepts, VerifyBinding;
    var rn := Mul(R, nonce);
    var e := c.challenge(rn, Mul(R, bsk), sighash);
    Identity(nonce);
    Identity(bsk);
    SignerAccepts(bsk, nonce, e);
    EncodedVerifies(c, Mul(R, bsk), sighash, rn, Mod(e * bsk + nonce));
    Small(bsk);
  }

  lemma Identity(s: nat)
    ensures Mul(R, s) == INFINITY <==> Mod(s) == 0
  {
    assert Mul(R, s).value == map[];
  }

  /** The signature of an honest, balanced bundle passes the balance check exactly when
      the blindings do not cancel. */
  lemma HonestBundleVerifies(c: Scheme, b: Bundle<Point>, os: seq<Opening>, sighash: nat, nonce: nat)
    requires Opens(b.actions, os) && Balanced(os, b.balances) && Mod(nonce) != 0
    requires var rn := Mul(R, nonce); |c.encode(rn)| == 64 && c.decode(c.encode(rn)) == Some(rn)
    requires SignBinding(c, Mod(Blinds(os)), sighash, nonce) == Some(b.bindingSig)
    ensures CheckBalance(c, b, CanonicalBase(), sighash) == if Mod(Blinds(os)) == 0 then IdentityKey else Accepted
  {
    hide KeyOf, Opens, Balanced, Mul, Mod, Blinds, VerifyBinding, SignBinding, CanonicalBase;
    HonestKey(b, os);
    SignedVerifies(c, Mod(Blinds(os)), sighash, nonce);
  }

  // ---------------------------------------------------------------- soundness

  /** What an accepted signature says of the key's part on an asset. */
  lemma AcceptedCoeff(bvk: Point, rn: Point, e: nat, s: nat, a: nat)
    requires Accepts(bvk, rn, e, s)
    ensures Mod(Coeff(rn, a) + Coeff(bvk, a) * e) == 0
  {
    hide Mul, Add, Coeff, Mod;
    OnlyBlind(s, a);
    MulCoeff(bvk, e, a);
    AddCoeff(rn, Mul(bvk, e), a);
    ModSum(Coeff(rn, a), Coeff(bvk, a) * e);
  }

  /** A residue killed by a difference that has an inverse is zero. */
  lemma Killed(k: nat, c: nat, e1: nat, e2: nat, u: int)
    requires c < N && Mod(k + c * e1) == 0 && Mod(k + c * e2) == 0 && Mod(u * (e1 - e2)) == 1
    ensures c == 0
  {
    hide Mod;
    var d := c * (e1 - e2);
    assert d == (k + c * e1) - (k + c * e2);
    assert Mod(d) == 0 by {
      MinusMods(k + c * e1, k + c * e2);
      Small(0);
    }
    ModProduct(d, u);
    assert 0 * u == 0;
    ModProduct(u * (e1 - e2), c);
    Reorder(u, e1 - e2, c);
    Small(0);
    Small(c);
  }

  lemma Reorder(u: int, d: int, c: int)
    ensures (c * d) * u == (u * d) * c
  {
  }

  /** Two accepted signatures that share a commitment but not a challenge leave the key no
      value part. The inverse of the challenges' difference is given. */
  lemma SpecialSoundness(bvk: Point, rn: Point, e1: nat, s1: nat, e2: nat, s2: nat, u: int)
    requires Accepts(bvk, rn, e1, s1) && Accepts(bvk, rn, e2, s2) && Mod(u * (e1 - e2)) == 1
    ensures NoValuePart(bvk)
  {
    hide Accepts, Mod, Coeff;
    forall a ensures Coeff(bvk, a) == 0 {
      AcceptedCoeff(bvk, rn, e1, s1, a);
      AcceptedCoeff(bvk, rn, e2, s2, a);
      Killed(Coeff(rn, a), Coeff(bvk, a), e1, e2, u);
    }
  }

  /** So the bundle balances over the integers: whoever can answer two challenges on one
      commitment has created no value. */
  lemma SignersBalance(b: Bundle<Point>, os: seq<Opening>, rn: Point, e1: nat, s1: nat, e2: nat, s2: nat, u: int)
    requires Opens(b.actions, os) && InRange(b, os)
    requires KeyOf(b, CanonicalBase()).Some?
    requires Accepts(KeyOf(b, CanonicalBase()).value, rn, e1, s1)
      && Accepts(KeyOf(b, CanonicalBase()).value, rn, e2, s2)
    requires Mod(u * (e1 - e2)) == 1
    ensures Balanced(os, b.balances)
  {
    hide Accepts, Mod, Coeff, KeyOf, Opens, InRange, Balanced, NoValuePart;
    SpecialSoundness(KeyOf(b, CanonicalBase()).value, rn, e1, s1, e2, s2, u);
    BalanceExact(b, os);
  }

  /** One signature, one encoding: the commitment's bytes fix the rest. */
  lemma OneSignature(c: Scheme, bvk: Point, sighash: nat, sig: seq<Byte>, sig': seq<Byte>)
    requires VerifyBinding(c, bvk, sighash, sig) == Accepted && VerifyBinding(c, bvk, sighash, sig') == Accepted
    requires sig[..64] == sig'[..64]
    ensures sig == sig'
  {
    hide Add, Mul, Value;
    var s, s' := Value(sig[64..]), Value(sig'[64..]);
    assert Mul(R, s) == Mul(R, s');
    BlindOf(s);
    BlindOf(s');
    ValueInjective(sig[64..], sig'[64..]);
    assert sig == sig[..64] + sig[64..] && sig' == sig'[..64] + sig'[64..];
  }

  // ---------------------------------------------------------------- the shape check

  ghost predicate WellFormed(b: Bundle<Point>, onCurve: Point -> bool) {
    && 1 <= |b.actions| <= MAX_ACTIONS
    && (forall i | 0 <= i < |b.actions| :: onCurve(b.actions[i].cv))
    && (forall i, j | 0 <= i < j < |b.actions| :: b.actions[i].nullifier != b.actions[j].nullifier)
    && (forall i | 0 <= i < |b.balances| :: b.balances[i].value != 0)
    && OneEach(b.balances)
    && |b.bindingSig| == SIG_SIZE
  }

  method ValidateBasic(b: Bundle<Point>, onCurve: Point -> bool) returns (ok: bool)
    ensures ok <==> WellFormed(b, onCurve)
  {
    if |b.actions| == 0 || |b.actions| > MAX_ACTIONS {
      return false;
    }
    var seen: set<nat> := {};
    for i := 0 to |b.actions|
      invariant forall k | 0 <= k < i :: onCurve(b.actions[k].cv)
      invariant forall k, j | 0 <= k < j < i :: b.actions[k].nullifier != b.actions[j].nullifier
      invariant forall x :: x in seen <==> exists k | 0 <= k < i :: b.actions[k].nullifier == x
    {
      if !onCurve(b.actions[i].cv) || b.actions[i].nullifier in seen {
        return false;
      }
      seen := seen + {b.actions[i].nullifier};
    }
    var assets: set<nat> := {};
    for i := 0 to |b.balances|
      invariant forall k | 0 <= k < i :: b.balances[k].value != 0
      invariant forall k, j | 0 <= k < j < i :: b.balances[k].asset != b.balances[j].asset
      invariant forall x :: x in assets <==> exists k | 0 <= k < i :: b.balances[k].asset == x
    {
      if b.balances[i].value == 0 || b.balances[i].asset in assets {
        return false;
      }
      assets := assets + {b.balances[i].asset};
    }
    return |b.bindingSig| == SIG_SIZE;
  }
}
