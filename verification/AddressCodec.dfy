/** The codec as it runs: accumulators, buffers and loops. */
module AddressCodec {
  import opened AddressBits
  import opened Arithmetic
  import opened AddressChecksum
  import opened Address
  import opened BigEndian

  /** A 64-bit accumulator: shifting left drops what overflows. */
  const WORD64: nat := 0x1_0000_0000_0000_0000

  lemma Word64()
    ensures WORD64 == Pow2(64)
  {
    assert Pow2(8) == 256;
    Pow2Add(8, 8);
    Pow2Add(16, 16);
    Pow2Add(32, 32);
  }

  lemma WordSplits(n: nat)
    requires n <= 64
    ensures WORD64 == Pow2(64 - n) * Pow2(n)
  {
    hide Pow2;
    Word64();
    Pow2Add(64 - n, n);
  }

  /** The bits of an accumulator that have not been emitted yet. */
  function Held(acc: nat, bits: nat): seq<bool> {
    BitsOf(acc % Pow2(bits), bits)
  }

  lemma Accumulated(acc: nat, bits: nat, from: nat, b: nat)
    requires bits + from <= 64 && b < Pow2(from)
    ensures Held((acc * Pow2(from) + b) % WORD64, bits + from) == Held(acc, bits) + BitsOf(b, from)
  {
    hide Pow2, BitsOf;
    var x := acc * Pow2(from) + b;
    WordSplits(bits + from);
    ModMod(x, Pow2(64 - (bits + from)), Pow2(bits + from));
    Pow2Add(bits, from);
    ShiftIn(acc, b, Pow2(bits), Pow2(from));
    BitsSplit(acc % Pow2(bits), b, bits, from);
  }

  lemma Emitted(acc: nat, bits: nat, to: nat)
    ensures (acc / Pow2(bits)) % Pow2(to) < Pow2(to)
    ensures Held(acc, to + bits) == BitsOf((acc / Pow2(bits)) % Pow2(to), to) + Held(acc, bits)
  {
    hide Pow2, BitsOf;
    Pow2Add(to, bits);
    MiddleField(acc, Pow2(to), Pow2(bits));
    var low := acc % (Pow2(to) * Pow2(bits));
    assert low == (low / Pow2(bits)) * Pow2(bits) + low % Pow2(bits);
    BitsSplit(low / Pow2(bits), low % Pow2(bits), to, bits);
  }

  /** What the last, partial group holds once it is filled with zeros. */
  lemma Padded(acc: nat, bits: nat, to: nat)
    requires bits <= to <= 64
    ensures (acc * Pow2(to - bits)) % WORD64 % Pow2(to) == Val(Held(acc, bits) + Zeros(to - bits))
  {
    hide Pow2, BitsOf, Val, Zeros;
    var pad := to - bits;
    var x := acc * Pow2(pad);
    WordSplits(to);
    ModMod(x, Pow2(64 - to), Pow2(to));
    Pow2Add(bits, pad);
    ShiftIn(acc, 0, Pow2(bits), Pow2(pad));
    var v := (acc % Pow2(bits)) * Pow2(pad);
    BitsSplit(acc % Pow2(bits), 0, bits, pad);
    BitsOfZero(pad);
    assert v < Pow2(to) by {
      assert v + 0 == (x + 0) % (Pow2(bits) * Pow2(pad));
    }
    ValBits(v, to);
  }

  lemma {:induction false} ValZeros(n: nat)
    ensures Val(Zeros(n)) == 0
  {
    if n > 0 {
      ValZeros(n - 1);
      assert Zeros(n)[..n - 1] == Zeros(n - 1);
    }
  }

  /** Leftover bits are all zero exactly when the padded group is. */
  lemma PaddingIsZero(rest: seq<bool>, pad: nat)
    ensures Val(rest + Zeros(pad)) == 0 <==> rest == Zeros(|rest|)
  {
    var b := rest + Zeros(pad);
    BitsVal(b);
    if Val(b) == 0 {
      BitsOfZero(|b|);
      assert rest == b[..|rest|];
    }
    if rest == Zeros(|rest|) {
      assert b == Zeros(|b|);
      ValZeros(|b|);
    }
  }

  /** Regroups values between the two widths in use, as ConvertBits specifies. */
  method RegroupBits(data: seq<nat>, from: nat, to: nat, pad: bool) returns (r: Result<seq<nat>>)
    requires (from == 8 && to == 5) || (from == 5 && to == 8)
    ensures r == ConvertBits(data, from, to, pad)
  {
    hide Bits, BitsOf, Val, Pow2, Groups, Leftover, Held, Zeros;
    var acc: nat, bits: nat := 0, 0;
    var out: seq<nat> := [];
    Start(to);
    for i := 0 to |data|
      invariant bits < to && Fits(out, to) && Fits(data[..i], from)
      invariant Bits(out, to) + Held(acc, bits) == Bits(data[..i], from)
    {
      var b := data[i];
      assert b in data && data[..i + 1] == data[..i] + [b];
      if b >= Pow2(from) {
        return Err;
      }
      Accumulated(acc, bits, from, b);
      BitsSnoc(data[..i], b, from);
      Reassociate(Bits(out, to), Held(acc, bits), BitsOf(b, from));
      acc := (acc * Pow2(from) + b) % WORD64;
      bits := bits + from;
      while bits >= to
        invariant Fits(out, to)
        invariant Bits(out, to) + Held(acc, bits) == Bits(data[..i + 1], from)
      {
        bits := bits - to;
        var v := (acc / Pow2(bits)) % Pow2(to);
        Emitted(acc, bits, to);
        BitsSnoc(out, v, to);
        Reassociate(Bits(out, to), BitsOf(v, to), Held(acc, bits));
        out := out + [v];
      }
    }
    assert data[..|data|] == data;
    GroupsUnique(out, HeldBits(acc, bits), to);
    Padded(acc, bits, to);
    PaddingIsZero(Held(acc, bits), to - bits);
    if pad {
      if bits > 0 {
        out := out + [(acc * Pow2(to - bits)) % WORD64 % Pow2(to)];
      } else {
        NothingHeld(acc);
      }
    } else if bits >= from || (acc * Pow2(to - bits)) % WORD64 % Pow2(to) != 0 {
      return Err;
    }
    return Ok(out);
  }

  function HeldBits(acc: nat, bits: nat): (b: seq<bool>)
    ensures |b| == bits && b == Held(acc, bits)
  {
    Held(acc, bits)
  }

  lemma NothingHeld(acc: nat)
    ensures Held(acc, 0) == []
  {
  }

  lemma Start(to: nat)
    ensures Bits([], to) + Held(0, 0) == Bits([], to)
    ensures forall w :: Bits([], w) == []
  {
  }

  function Generator(i: nat): bv32
    requires i < 5
  {
    match i
    case 0 => 0x3b6a57b2
    case 1 => 0x26508e6d
    case 2 => 0x1ea119fa
    case 3 => 0x3d4233dd
    case _ => 0x2a1462b3
  }

  /** Bit i of a five-bit word. */
  predicate BitSet(top: bv32, i: nat)
    requires i < 5
  {
    match i
    case 0 => top & 1 == 1
    case 1 => (top >> 1) & 1 == 1
    case 2 => (top >> 2) & 1 == 1
    case 3 => (top >> 3) & 1 == 1
    case _ => (top >> 4) & 1 == 1
  }

  /** The generators selected by the first n bits of top. */
  function FeedbackTo(top: bv32, n: nat): bv32
    requires n <= 5
  {
    if n == 0 then 0 else Xor(FeedbackTo(top, n - 1), if BitSet(top, n - 1) then Generator(n - 1) else 0)
  }

  lemma FeedbackAll(top: bv32)
    ensures FeedbackTo(top, 5) == Feedback(top)
  {
    NoFeedback(top);
    MoreFeedback(top, 0);
    MoreFeedback(top, 1);
    MoreFeedback(top, 2);
    MoreFeedback(top, 3);
    MoreFeedback(top, 4);
    hide FeedbackTo;
    XorUnit(if top & 1 == 1 then 0x3b6a57b2 else 0);
  }

  method Bech32Polymod(values: seq<nat>) returns (chk: bv32)
    requires Symbols(values)
    ensures chk == Polymod(values)
  {
    hide Xor, Shift, Top, Feedback, FeedbackTo, BitSet, Generator, Word;
    chk := 1;
    for n := 0 to |values|
      invariant chk == Polymod(values[..n])
    {
      assert values[..n + 1][..n] == values[..n];
      var top := Top(chk);
      chk := Xor(Shift(chk), Word(values[n]));
      ghost var start := chk;
      XorUnit(start);
      NoFeedback(top);
      for i := 0 to 5
        invariant chk == Xor(start, FeedbackTo(top, i))
      {
        var g := if BitSet(top, i) then Generator(i) else 0;
        MoreFeedback(top, i);
        XorAssociates(start, FeedbackTo(top, i), g);
        XorUnit(chk);
        if BitSet(top, i) {
          chk := Xor(chk, Generator(i));
        }
      }
      FeedbackAll(top);
    }
    assert values[..|values|] == values;
  }

  lemma NoFeedback(top: bv32)
    ensures FeedbackTo(top, 0) == 0
  {
  }

  lemma MoreFeedback(top: bv32, i: nat)
    requires i < 5
    ensures FeedbackTo(top, i + 1) == Xor(FeedbackTo(top, i), if BitSet(top, i) then Generator(i) else 0)
  {
    hide Xor, BitSet, Generator;
  }

  method EncodeText(hrp: string, data: seq<nat>) returns (s: string)
    requires HrpChars(hrp) && Symbols(data)
    ensures s == Bech32mEncode(hrp, data)
  {
    hide Polymod, Xor, HrpExpand, Digit, Symbol;
    var expanded := ExpandHrp(hrp);
    var values := expanded + data;
    SymbolsConcat(HrpExpand(hrp), data);
    SymbolsConcat(values, ZeroSymbols(6));
    assert [0, 0, 0, 0, 0, 0] == ZeroSymbols(6);
    var mod := Bech32Polymod(values + [0, 0, 0, 0, 0, 0]);
    mod := Xor(mod, BECH32M_CONST);
    s := hrp + "1";
    for i := 0 to |data|
      invariant s == hrp + "1" + Chars(data)[..i]
    {
      s := s + [CHARSET[data[i]]];
    }
    ghost var sum := Checksum(values);
    assert sum == Fields(mod);
    for i := 0 to 6
      invariant s == hrp + "1" + Chars(data) + Chars(sum)[..i]
    {
      s := s + [CHARSET[Symbol(Digit(mod, i))]];
    }
  }

  method ExpandHrp(hrp: string) returns (out: seq<nat>)
    requires HrpChars(hrp)
    ensures out == HrpExpand(hrp)
  {
    out := [];
    for i := 0 to |hrp|
      invariant out == HrpExpand(hrp)[..i]
    {
      out := out + [hrp[i] as int / 32];
    }
    out := out + [0];
    for i := 0 to |hrp|
      invariant out == HrpExpand(hrp)[..|hrp| + 1 + i]
    {
      out := out + [hrp[i] as int % 32];
    }
  }

  method CheckHrp(hrp: string) returns (ok: bool)
    ensures ok <==> HrpChars(hrp)
  {
    for i := 0 to |hrp|
      invariant forall j | 0 <= j < i :: 33 <= hrp[j] as int <= 126
    {
      if !(33 <= hrp[i] as int <= 126) {
        return false;
      }
    }
    return true;
  }

  method ReadSymbols(tail: string) returns (r: Result<seq<nat>>)
    ensures r.Ok? <==> AllSymbols(tail)
    ensures r.Ok? ==> r.value == SymbolsOf(tail)
  {
    hide SymbolOf;
    var data: seq<nat> := [];
    for i := 0 to |tail|
      invariant |data| == i && forall j | 0 <= j < i :: SymbolOf(tail[j]) == data[j]
    {
      var d := SymbolOf(tail[i]);
      if d < 0 {
        return Err;
      }
      data := data + [d];
    }
    return Ok(data);
  }

  method DecodeText(s: string) returns (r: Result<(string, seq<nat>)>)
    ensures r == Bech32mDecode(s)
  {
    hide Polymod, HrpExpand, AllSymbols, SymbolsOf, HrpChars;
    if Lower(s) != s && Upper(s) != s {
      return Err;
    }
    var t := Lower(s);
    var pos := LastIndex(t, '1', |t|);
    if pos < 1 || pos + 7 > |t| {
      return Err;
    }
    var hrp := t[..pos];
    var ok := CheckHrp(hrp);
    if !ok {
      return Err;
    }
    var data := ReadSymbols(t[pos + 1..]);
    if data.Err? {
      return Err;
    }
    SymbolsConcat(HrpExpand(hrp), data.value);
    var expanded := ExpandHrp(hrp);
    var chk := Bech32Polymod(expanded + data.value);
    if chk != BECH32M_CONST {
      return Err;
    }
    return Ok((hrp, data.value[..|data.value| - 6]));
  }

  /** The address's text form; DecodeAddress accepts exactly this and its upper case. */
  method EncodeAddress(a: ShieldedAddress) returns (s: string)
    requires WellFormed(a)
    ensures s == Encode(a) && Decode(s) == Ok(a)
  {
    hide ConvertBits, Bech32mEncode, Bech32mDecode, Value, ToBytes;
    PayloadBytes(a);
    RegroupRoundTrip(Payload(a));
    HrpOk();
    DecodeOfEncode(a);
    var data := RegroupBits(Payload(a), 8, 5, true);
    SymbolsFit(data.value);
    s := EncodeText(ADDRESS_HRP, data.value);
  }

  method DecodeAddress(s: string) returns (r: Result<ShieldedAddress>)
    ensures r == Decode(s)
    ensures r.Ok? ==> WellFormed(r.value) && (s == Encode(r.value) || s == Upper(Encode(r.value)))
  {
    hide ConvertBits, Bech32mEncode, Bech32mDecode, Value, WellFormed;
    if Decode(s).Ok? {
      DecodeExact(s, Decode(s).value);
    }
    var parts := DecodeText(s);
    if parts.Err? || parts.value.0 != ADDRESS_HRP {
      return Err;
    }
    var payload := RegroupBits(parts.value.1, 5, 8, false);
    if payload.Err? || |payload.value| != 65 || payload.value[0] != ADDRESS_VERSION {
      return Err;
    }
    var pk := Value(payload.value[1..33]);
    if pk >= FIELD {
      return Err;
    }
    return Ok(ShieldedAddress(pk, payload.value[33..]));
  }
}
