/** The text form of a shielded address: bech32m (BIP-350) without a length limit, over
    ASCII strings. */
module Address {
  import opened AddressBits
  import opened Arithmetic
  import opened AddressChecksum
  import opened BigEndian

  const CHARSET: string := "qpzry9x8gf2tvdw0s3jn54khce6mua7l"
  const ADDRESS_HRP: string := "erthz"
  const ADDRESS_VERSION: nat := 1

  // ---------------------------------------------------------------- characters

  function LowerChar(c: char): char {
    if 'A' <= c <= 'Z' then (c as int + 32) as char else c
  }

  function UpperChar(c: char): char {
    if 'a' <= c <= 'z' then (c as int - 32) as char else c
  }

  function Lower(s: string): (t: string)
    ensures |t| == |s| && forall i | 0 <= i < |s| :: t[i] == LowerChar(s[i])
  {
    seq(|s|, i requires 0 <= i < |s| => LowerChar(s[i]))
  }

  function Upper(s: string): (t: string)
    ensures |t| == |s| && forall i | 0 <= i < |s| :: t[i] == UpperChar(s[i])
  {
    seq(|s|, i requires 0 <= i < |s| => UpperChar(s[i]))
  }

  /** The position of a character in the charset from i on, or -1. */
  function IndexFrom(c: char, i: nat): (d: int)
    requires i <= 32
    ensures -1 <= d < 32
    ensures d >= 0 ==> CHARSET[d] == c && i <= d
    decreases 32 - i
  {
    if i == 32 then -1 else if CHARSET[i] == c then i else IndexFrom(c, i + 1)
  }

  function SymbolOf(c: char): int { IndexFrom(c, 0) }

  function Chars(symbols: seq<nat>): (s: string)
    requires Symbols(symbols)
    ensures |s| == |symbols|
  {
    seq(|symbols|, i requires 0 <= i < |symbols| => CHARSET[symbols[i]])
  }

  lemma CharsetDistinct(i: nat, j: nat)
    requires i < j < 32
    ensures CHARSET[i] != CHARSET[j]
  {
  }

  lemma CharsetLower(i: nat)
    requires i < 32
    ensures CHARSET[i] != '1' && LowerChar(CHARSET[i]) == CHARSET[i]
  {
  }

  lemma {:induction false} IndexFinds(d: nat, i: nat)
    requires i <= d < 32
    ensures IndexFrom(CHARSET[d], i) == d
    decreases d - i
  {
    if i < d {
      CharsetDistinct(i, d);
      IndexFinds(d, i + 1);
    }
  }

  // ---------------------------------------------------------------- bech32m

  predicate HrpChars(hrp: string) {
    forall i | 0 <= i < |hrp| :: 33 <= hrp[i] as int <= 126
  }

  function HrpExpand(hrp: string): (v: seq<nat>)
    requires HrpChars(hrp)
    ensures |v| == 2 * |hrp| + 1 && Symbols(v)
  {
    seq(|hrp|, i requires 0 <= i < |hrp| => hrp[i] as int / 32)
      + [0]
      + seq(|hrp|, i requires 0 <= i < |hrp| => hrp[i] as int % 32)
  }

  lemma SymbolsConcat(a: seq<nat>, b: seq<nat>)
    requires Symbols(a) && Symbols(b)
    ensures Symbols(a + b)
  {
  }

  function Bech32mEncode(hrp: string, data: seq<nat>): string
    requires HrpChars(hrp) && Symbols(data)
  {
    SymbolsConcat(HrpExpand(hrp), data);
    hrp + "1" + Chars(data) + Chars(Checksum(HrpExpand(hrp) + data))
  }

  /** The last position of a character before n, or -1. */
  function LastIndex(s: string, c: char, n: nat): (p: int)
    requires n <= |s|
    ensures -1 <= p < n
    ensures p >= 0 ==> s[p] == c
    ensures forall i | p < i < n :: s[i] != c
  {
    if n == 0 then -1 else if s[n - 1] == c then n - 1 else LastIndex(s, c, n - 1)
  }

  predicate AllSymbols(s: string) {
    forall i | 0 <= i < |s| :: SymbolOf(s[i]) >= 0
  }

  function SymbolsOf(s: string): (d: seq<nat>)
    requires AllSymbols(s)
    ensures |d| == |s| && Symbols(d)
  {
    seq(|s|, i requires 0 <= i < |s| => SymbolOf(s[i]))
  }

  function Bech32mDecode(s: string): Result<(string, seq<nat>)> {
    if Lower(s) != s && Upper(s) != s then Err else
    var t := Lower(s);
    var pos := LastIndex(t, '1', |t|);
    if pos < 1 || pos + 7 > |t| then Err else
    var hrp, tail := t[..pos], t[pos + 1..];
    if !HrpChars(hrp) || !AllSymbols(tail) then Err else
    var data := SymbolsOf(tail);
    SymbolsConcat(HrpExpand(hrp), data);
    if !Passes(HrpExpand(hrp) + data) then Err else Ok((hrp, data[..|data| - 6]))
  }

  lemma SymbolsOfChars(d: seq<nat>)
    requires Symbols(d)
    ensures AllSymbols(Chars(d)) && SymbolsOf(Chars(d)) == d
    ensures Lower(Chars(d)) == Chars(d) && forall i | 0 <= i < |d| :: Chars(d)[i] != '1'
  {
    forall i | 0 <= i < |d|
      ensures SymbolOf(Chars(d)[i]) == d[i] && LowerChar(Chars(d)[i]) == Chars(d)[i] && Chars(d)[i] != '1'
    {
      IndexFinds(d[i], 0);
      CharsetLower(d[i]);
    }
  }

  lemma CharsOfSymbols(s: string)
    requires AllSymbols(s)
    ensures Chars(SymbolsOf(s)) == s
  {
  }

  lemma LastIndexAt(s: string, c: char, n: nat, p: nat)
    requires p < n <= |s| && s[p] == c && forall i | p < i < n :: s[i] != c
    ensures LastIndex(s, c, n) == p
  {
  }

  lemma CharsConcat(a: seq<nat>, b: seq<nat>)
    requires Symbols(a) && Symbols(b)
    ensures Symbols(a + b) && Chars(a + b) == Chars(a) + Chars(b)
  {
  }

  /** A text of a prefix and symbols falls apart into them. */
  lemma TextParts(t: string, hrp: string, body: string)
    requires t == hrp + "1" + body && forall i | 0 <= i < |body| :: body[i] != '1'
    ensures LastIndex(t, '1', |t|) == |hrp| && t[..|hrp|] == hrp && t[|hrp| + 1..] == body
  {
    hide LastIndex;
    LastIndexAt(t, '1', |t|, |hrp|);
  }

  /** How a text in one case is read, given its prefix and symbols. */
  lemma ReadsAs(s: string, hrp: string, all: seq<nat>)
    requires hrp != "" && HrpChars(hrp) && Symbols(all) && |all| >= 6 && Symbols(HrpExpand(hrp) + all)
    requires Lower(s) == hrp + "1" + Chars(all) && (s == Lower(s) || s == Upper(s))
    ensures Bech32mDecode(s) == if Passes(HrpExpand(hrp) + all) then Ok((hrp, all[..|all| - 6])) else Err
  {
    hide Passes, HrpExpand, Chars, SymbolsOf, AllSymbols, SymbolOf, HrpChars, Lower, Upper, LastIndex;
    SymbolsOfChars(all);
    TextParts(Lower(s), hrp, Chars(all));
  }

  /** Encoding then decoding gives the parts back, for any lower-case prefix. */
  lemma DecodeEncode(hrp: string, data: seq<nat>)
    requires hrp != "" && HrpChars(hrp) && Lower(hrp) == hrp && Symbols(data)
    ensures Bech32mDecode(Bech32mEncode(hrp, data)) == Ok((hrp, data))
    ensures Lower(Bech32mEncode(hrp, data)) == Bech32mEncode(hrp, data)
  {
    hide Checksum, Passes, HrpExpand, Chars, SymbolsOf, AllSymbols, SymbolOf, Lower, Upper, HrpChars, Bech32mDecode;
    SymbolsConcat(HrpExpand(hrp), data);
    var sum := Checksum(HrpExpand(hrp) + data);
    var all := data + sum;
    CharsConcat(data, sum);
    SymbolsOfChars(all);
    var s := Bech32mEncode(hrp, data);
    assert s == hrp + "1" + Chars(all);
    LowerConcat(hrp, Chars(all));
    ChecksumUnique(HrpExpand(hrp) + data, sum);
    assert HrpExpand(hrp) + data + sum == HrpExpand(hrp) + all;
    ReadsAs(s, hrp, all);
    assert all[..|all| - 6] == data;
  }

  lemma LowerConcat(hrp: string, body: string)
    requires Lower(hrp) == hrp && Lower(body) == body
    ensures Lower(hrp + "1" + body) == hrp + "1" + body
  {
    var s := hrp + "1" + body;
    forall i | 0 <= i < |s| ensures Lower(s)[i] == s[i] {
      if i < |hrp| {
        assert s[i] == hrp[i] && Lower(hrp)[i] == hrp[i];
      } else if i > |hrp| {
        assert s[i] == body[i - |hrp| - 1] && Lower(body)[i - |hrp| - 1] == body[i - |hrp| - 1];
      }
    }
  }

  /** Whatever decodes is the encoding of its parts, all lower or all upper case. */
  lemma EncodeDecode(s: string, hrp: string, data: seq<nat>)
    requires Bech32mDecode(s) == Ok((hrp, data))
    ensures hrp != "" && HrpChars(hrp) && Symbols(data)
    ensures Lower(s) == Bech32mEncode(hrp, data)
    ensures s == Lower(s) || s == Upper(Lower(s))
  {
    hide Checksum, Passes, HrpExpand, Chars, SymbolsOf, AllSymbols, SymbolOf, Bech32mEncode;
    var t := Lower(s);
    var pos := LastIndex(t, '1', |t|);
    assert t == hrp + "1" + t[pos + 1..];
    TailReencodes(hrp, t[pos + 1..]);
    if s != t {
      UpperLower(s);
    }
  }

  /** A tail that passes is the encoding of all but its last six symbols. */
  lemma TailReencodes(hrp: string, tail: string)
    requires HrpChars(hrp) && AllSymbols(tail) && |tail| >= 6
    requires Symbols(HrpExpand(hrp) + SymbolsOf(tail)) && Passes(HrpExpand(hrp) + SymbolsOf(tail))
    ensures var data := SymbolsOf(tail)[..|tail| - 6]; Symbols(data) && hrp + "1" + tail == Bech32mEncode(hrp, data)
  {
    hide Checksum, Passes, HrpExpand, Chars, SymbolsOf, AllSymbols, SymbolOf;
    var all := SymbolsOf(tail);
    CharsOfSymbols(tail);
    var data, sum := all[..|all| - 6], all[|all| - 6..];
    assert all == data + sum;
    CharsConcat(data, sum);
    SymbolsConcat(HrpExpand(hrp), data);
    assert HrpExpand(hrp) + all == HrpExpand(hrp) + data + sum;
    ChecksumUnique(HrpExpand(hrp) + data, sum);
  }

  lemma UpperLower(s: string)
    ensures Upper(Lower(s)) == Upper(s)
  {
  }

  lemma LowerUpper(s: string)
    ensures Lower(Upper(s)) == Lower(s)
  {
  }

  // ---------------------------------------------------------------- field bytes

  predicate Bytes(b: seq<nat>) {
    forall i | 0 <= i < |b| :: b[i] < 256
  }

  lemma FieldFits()
    ensures FIELD < Pow256(32)
  {
    Pow256At32();
  }

  // ---------------------------------------------------------------- shielded addresses

  datatype ShieldedAddress = ShieldedAddress(ownerPK: nat, ekPub: seq<nat>)

  predicate WellFormed(a: ShieldedAddress) {
    a.ownerPK < FIELD && |a.ekPub| == 32 && Bytes(a.ekPub)
  }

  function Payload(a: ShieldedAddress): seq<nat> {
    [ADDRESS_VERSION] + ToBytes(a.ownerPK, 32) + a.ekPub
  }

  lemma PayloadBytes(a: ShieldedAddress)
    requires WellFormed(a)
    ensures Fits(Payload(a), 8) && |Payload(a)| == 65
  {
    FieldFits();
    ValueOfBytes(a.ownerPK, 32);
    BytesFit(Payload(a));
  }

  lemma BytesFit(b: seq<nat>)
    ensures Bytes(b) <==> Fits(b, 8)
  {
    assert Pow2(8) == 256;
    if Fits(b, 8) {
      forall i | 0 <= i < |b| ensures b[i] < 256 {
        assert b[i] in b;
      }
    }
  }

  lemma SymbolsFit(d: seq<nat>)
    ensures Symbols(d) <==> Fits(d, 5)
  {
    assert Pow2(5) == 32;
    if Fits(d, 5) {
      forall i | 0 <= i < |d| ensures d[i] < 32 {
        assert d[i] in d;
      }
    }
  }

  function PayloadSymbols(a: ShieldedAddress): (d: seq<nat>)
    requires WellFormed(a)
    ensures Symbols(d)
  {
    PayloadBytes(a);
    RegroupRoundTrip(Payload(a));
    SymbolsFit(ConvertBits(Payload(a), 8, 5, true).value);
    ConvertBits(Payload(a), 8, 5, true).value
  }

  function Encode(a: ShieldedAddress): string
    requires WellFormed(a)
  {
    Bech32mEncode(ADDRESS_HRP, PayloadSymbols(a))
  }

  function Decode(s: string): Result<ShieldedAddress> {
    var r := Bech32mDecode(s);
    if r.Err? || r.value.0 != ADDRESS_HRP then Err else
    var p := ConvertBits(r.value.1, 5, 8, false);
    if p.Err? || |p.value| != 65 || p.value[0] != ADDRESS_VERSION || Value(p.value[1..33]) >= FIELD then Err else
    Ok(ShieldedAddress(Value(p.value[1..33]), p.value[33..]))
  }

  lemma HrpOk()
    ensures HrpChars(ADDRESS_HRP) && Lower(ADDRESS_HRP) == ADDRESS_HRP && ADDRESS_HRP != ""
  {
  }

  lemma PayloadParts(a: ShieldedAddress)
    requires WellFormed(a)
    ensures var p := Payload(a);
      |p| == 65 && p[0] == ADDRESS_VERSION && p[1..33] == ToBytes(a.ownerPK, 32) && p[33..] == a.ekPub
      && Value(p[1..33]) == a.ownerPK
  {
    FieldFits();
    ValueOfBytes(a.ownerPK, 32);
  }

  /** Every address decodes from its own text, in lower or in upper case. */
  lemma DecodeOfEncode(a: ShieldedAddress)
    requires WellFormed(a)
    ensures Decode(Encode(a)) == Ok(a)
    ensures Decode(Upper(Encode(a))) == Ok(a)
  {
    hide Bech32mDecode, Bech32mEncode, ConvertBits, Payload, Value, ToBytes, HrpChars;
    HrpOk();
    PayloadBytes(a);
    RegroupRoundTrip(Payload(a));
    DecodeEncode(ADDRESS_HRP, PayloadSymbols(a));
    PayloadParts(a);
    UpperDecodes(Encode(a));
  }

  /** A lower-case string and its upper-case form decode alike. */
  lemma UpperDecodes(s: string)
    requires Lower(s) == s
    ensures Bech32mDecode(Upper(s)) == Bech32mDecode(s)
  {
    LowerUpper(s);
    UpperUpper(s);
  }

  lemma UpperUpper(s: string)
    ensures Upper(Upper(s)) == Upper(s)
  {
  }

  lemma PayloadOf(p: seq<nat>)
    requires Bytes(p) && |p| == 65 && p[0] == ADDRESS_VERSION && Value(p[1..33]) < FIELD
    ensures var a := ShieldedAddress(Value(p[1..33]), p[33..]); WellFormed(a) && Payload(a) == p
  {
    BytesOfValue(p[1..33]);
    assert p == [p[0]] + p[1..33] + p[33..];
  }

  /** The decoder accepts exactly the texts of addresses: each has two, its encoding in
      lower and in upper case. */
  lemma DecodeExact(s: string, a: ShieldedAddress)
    ensures Decode(s) == Ok(a) <==> WellFormed(a) && (s == Encode(a) || s == Upper(Encode(a)))
  {
    hide Bech32mDecode, Bech32mEncode, ConvertBits, Payload, Value, ToBytes, HrpChars, Fits, WellFormed;
    if WellFormed(a) {
      DecodeOfEncode(a);
    }
    if Decode(s) == Ok(a) {
      var d := Bech32mDecode(s).value.1;
      var p := ConvertBits(d, 5, 8, false).value;
      EncodeDecode(s, ADDRESS_HRP, d);
      RegroupCanonical(d, p);
      BytesFit(p);
      PayloadOf(p);
    }
  }

  /** What an accepted text is made of. */
  lemma DecodedParts(s: string, hrp: string, d: seq<nat>) returns (all: seq<nat>)
    requires Bech32mDecode(s) == Ok((hrp, d))
    ensures HrpChars(hrp) && Symbols(all) && Symbols(HrpExpand(hrp) + all)
    ensures Lower(s) == hrp + "1" + Chars(all) && Passes(HrpExpand(hrp) + all)
  {
    hide Passes, HrpExpand, Chars, SymbolsOf, AllSymbols, SymbolOf;
    var t := Lower(s);
    var pos := LastIndex(t, '1', |t|);
    all := SymbolsOf(t[pos + 1..]);
    CharsOfSymbols(t[pos + 1..]);
    SymbolsConcat(HrpExpand(hrp), all);
    assert t == hrp + "1" + t[pos + 1..];
  }

  lemma WindowOfSymbols(x: seq<nat>, a: seq<nat>, b: seq<nat>, lo: nat, hi: nat)
    requires Symbols(x + a) && Symbols(x + b) && Symbols(x) && Symbols(a) && Symbols(b)
    requires lo <= hi <= |a| == |b| && hi - lo <= 6
    requires forall k | 0 <= k < |a| && !(lo <= k < hi) :: a[k] == b[k]
    requires Passes(x + a) && Passes(x + b)
    ensures a == b
  {
    hide Passes, Polymod;
    assert x + a == (x + a[..lo]) + a[lo..hi] + a[hi..];
    assert x + b == (x + a[..lo]) + b[lo..hi] + a[hi..];
    assert a == a[..lo] + a[lo..hi] + a[hi..] && b == a[..lo] + b[lo..hi] + a[hi..];
    if a[lo..hi] != b[lo..hi] {
      SymbolsConcat(x, a[..lo]);
      WindowDetected(x + a[..lo], a[lo..hi], b[lo..hi], a[hi..]);
    }
  }

  lemma CharsInjective(a: seq<nat>, b: seq<nat>, k: nat)
    requires Symbols(a) && Symbols(b) && k < |a| == |b| && Chars(a)[k] == Chars(b)[k]
    ensures a[k] == b[k]
  {
    IndexFinds(a[k], 0);
    IndexFinds(b[k], 0);
  }

  /** Two accepted texts of one prefix and length that differ only inside six consecutive
      characters are the same text, up to case. */
  lemma WindowOfText(s: string, t: string, hrp: string, d: seq<nat>, e: seq<nat>, i: nat)
    requires Bech32mDecode(s) == Ok((hrp, d)) && Bech32mDecode(t) == Ok((hrp, e)) && |s| == |t|
    requires forall k | 0 <= k < |s| && !(i <= k < i + 6) :: Lower(s)[k] == Lower(t)[k]
    ensures Lower(s) == Lower(t)
  {
    hide Bech32mDecode, Passes, HrpExpand, Chars, HrpChars;
    var a := DecodedParts(s, hrp, d);
    var b := DecodedParts(t, hrp, e);
    var n := |hrp| + 1;
    var lo := if i <= n then 0 else if i >= |s| then |a| else i - n;
    var hi := if i + 6 <= n then 0 else if i + 6 >= |s| then |a| else i + 6 - n;
    forall k | 0 <= k < |a| && !(lo <= k < hi) ensures a[k] == b[k] {
      assert Lower(s)[k + n] == Chars(a)[k] && Lower(t)[k + n] == Chars(b)[k];
      CharsInjective(a, b, k);
    }
    WindowOfSymbols(HrpExpand(hrp), a, b, lo, hi);
  }
}
