/** Checksum states along the texts below. */
module AddressStates {
  import opened AddressChecksum

  lemma ShortStates()
    ensures Step(1, 3) == 0x23 && Step(0x23, 0) == 0x460 && Step(0x460, 1) == 0x8c01 && Step(0x8c01, 31) == 0x11803f
    ensures Step(0x11803f, 0) == 0x23007e0 && Step(0x23007e0, 9) == 0x3d6aabbb && Step(0x3d6aabbb, 19) == 0x2f2b18a
    ensures Step(0x2f2b18a, 17) == 0x253c66e3 && Step(0x253c66e3, 29) == 0x2bc830a3
  {
  }

  lemma Bech32States()
    ensures Step(1, 3) == 0x23 && Step(0x23, 0) == 0x460 && Step(0x460, 1) == 0x8c01 && Step(0x8c01, 10) == 0x11802a
    ensures Step(0x11802a, 28) == 0x230055c && Step(0x230055c, 25) == 0x3d6afc2b && Step(0x3d6afc2b, 31) == 0x2f84386
    ensures Step(0x2f84386, 20) == 0x24622766 && Step(0x24622766, 31) == 1
  {
  }

  lemma LongStates0()
    ensures Step(1, 3) == 0x23 && Step(0x23, 3) == 0x463 && Step(0x463, 3) == 0x8c63 && Step(0x8c63, 3) == 0x118c63
    ensures Step(0x118c63, 3) == 0x2318c63 && Step(0x2318c63, 3) == 0x3d5bdbd1 && Step(0x3d5bdbd1, 0) == 0x4dcbcd9
    ensures Step(0x4dcbcd9, 1) == 0x3dc7154c && Step(0x3dc7154c, 2) == 0x17456f7b && Step(0x17456f7b, 3) == 0x8d50561
    ensures Step(0x8d50561, 4) == 0x401b5de && Step(0x401b5de, 5) == 0x266635a8 && Step(0x266635a8, 6) == 0x3be80e6a
  {
  }

  lemma LongStates13()
    ensures Step(0x3be80e6a, 31) == 0xf9cd279 && Step(0xf9cd279, 30) == 0x30018f1b && Step(0x30018f1b, 29) == 0x1767b213
    ensures Step(0x1767b213, 28) == 0xc8ea87e && Step(0xc8ea87e, 27) == 0x2924984c && Step(0x2924984c, 26) == 0x102672d3
    ensures Step(0x102672d3, 25) == 0x398c69a4 && Step(0x398c69a4, 24) == 0x387a7c0c
    ensures Step(0x387a7c0c, 23) == 0x6b8c903 && Step(0x6b8c903, 22) == 0xa23f9a9 && Step(0xa23f9a9, 21) == 0x21b47b7d
    ensures Step(0x21b47b7d, 20) == 0x1c9b0d07 && Step(0x1c9b0d07, 19) == 0x16d204b9
  {
  }

  lemma LongStates26()
    ensures Step(0x16d204b9, 18) == 0x3a387d30 && Step(0x3a387d30, 17) == 0x3592b937
    ensures Step(0x3592b937, 16) == 0x351f9f3 && Step(0x351f9f3, 15) == 0x115569dd && Step(0x115569dd, 14) == 0x17ef0873
    ensures Step(0x17ef0873, 13) == 0x1d99e46f && Step(0x1d99e46f, 12) == 0x368f29a6
    ensures Step(0x368f29a6, 11) == 0x1b89bc7a && Step(0x1b89bc7a, 10) == 0x29bef2df && Step(0x29bef2df, 9) == 0x36b20a0
    ensures Step(0x36b20a0, 8) == 0x160e43ba && Step(0x160e43ba, 7) == 0x21b09d45 && Step(0x21b09d45, 6) == 0x1c07ca15
  {
  }

  lemma LongStates39()
    ensures Step(0x1c07ca15, 5) == 0x54ae6ef && Step(0x54ae6ef, 4) == 0xf0c5389 && Step(0xf0c5389, 3) == 0x2211b106
    ensures Step(0x2211b106, 2) == 0x134815c3 && Step(0x134815c3, 1) == 0x2f2adc0e && Step(0x2f2adc0e, 0) == 0xcd42356
    ensures Step(0xcd42356, 2) == 0x2275fd55 && Step(0x2275fd55, 13) == 0x1fc19fac && Step(0x1fc19fac, 17) == 0x6ea0669
    ensures Step(0x6ea0669, 3) == 0x7a14fc && Step(0x7a14fc, 4) == 0xf429f84 && Step(0xf429f84, 6) == 0x2bc830a3
  {
  }
}

/** The codec is bech32m: published vectors of BIP-350 decode, a bech32 text of BIP-173 does
    not, and an address is the payload the format names. */
module AddressVectors {
  import opened AddressBits
  import opened AddressChecksum
  import opened AddressStates
  import opened Address
  import opened BigEndian

  // ---------------------------------------------------------------- running a text

  lemma One(before: seq<nat>, v: nat)
    requires Symbols(before) && v < 32
    ensures Symbols(before + [v]) && Polymod(before + [v]) == Step(Polymod(before), Word(v))
  {
    hide Step, Word;
    assert (before + [v])[..|before|] == before;
  }

  lemma Four(before: seq<nat>, a: nat, b: nat, d: nat, e: nat)
    requires Symbols(before) && a < 32 && b < 32 && d < 32 && e < 32
    ensures Symbols(before + [a, b, d, e])
    ensures Polymod(before + [a, b, d, e]) ==
            Step(Step(Step(Step(Polymod(before), Word(a)), Word(b)), Word(d)), Word(e))
  {
    hide Step, Word, Polymod;
    One(before, a);
    One(before + [a], b);
    One(before + [a] + [b], d);
    One(before + [a] + [b] + [d], e);
    assert before + [a] + [b] + [d] + [e] == before + [a, b, d, e];
  }

  lemma EmptyRun()
    ensures Symbols([]) && Polymod([]) == 1
  {
  }

  // ---------------------------------------------------------------- two short texts

  lemma ShortText(a: nat, b: nat, c: nat, d: nat, e: nat, f: nat)
    requires a < 32 && b < 32 && c < 32 && d < 32 && e < 32 && f < 32
    ensures HrpChars("a") && Symbols([a, b, c, d, e, f]) && Symbols(HrpExpand("a") + [a, b, c, d, e, f])
    ensures Polymod(HrpExpand("a") + [a, b, c, d, e, f]) ==
            Step(Step(Step(Step(Step(Step(Step(Step(Step(1, 3), 0), 1),
              Word(a)), Word(b)), Word(c)), Word(d)), Word(e)), Word(f))
  {
    hide Word, Step, Polymod;
    Words0();
    assert HrpExpand("a") == [3, 0, 1];
    EmptyRun();
    Four([], 3, 0, 1, a);
    Four([] + [3, 0, 1, a], b, c, d, e);
    One([] + [3, 0, 1, a] + [b, c, d, e], f);
    assert [] + [3, 0, 1, a] + [b, c, d, e] + [f] == HrpExpand("a") + [a, b, c, d, e, f];
  }

  lemma ShortChars()
    ensures Symbols([31, 0, 9, 19, 17, 29]) && Symbols([10, 28, 25, 31, 20, 31])
    ensures Chars([31, 0, 9, 19, 17, 29]) == "lqfn3a" && Chars([10, 28, 25, 31, 20, 31]) == "2uel5l"
    ensures Lower("A1LQFN3A") == "a1lqfn3a" && Upper("A1LQFN3A") == "A1LQFN3A" && Lower("a12uel5l") == "a12uel5l"
  {
  }

  /** The shortest valid bech32m text, in capitals, is an empty payload under "a". */
  lemma ShortestText()
    ensures Bech32mDecode("A1LQFN3A") == Ok(("a", []))
  {
    hide Step, Word, Polymod, HrpExpand, Chars, Lower, Upper, HrpChars, Bech32mDecode;
    var all := [31, 0, 9, 19, 17, 29];
    Words0();
    Words8();
    Words16();
    Words24();
    ShortStates();
    ShortChars();
    ShortText(31, 0, 9, 19, 17, 29);
    assert "a" + "1" + "lqfn3a" == "a1lqfn3a";
    ReadsAs("A1LQFN3A", "a", all);
  }

  /** The same empty payload under bech32's constant is refused. */
  lemma Bech32Refused()
    ensures Bech32mDecode("a12uel5l") == Err
  {
    hide Step, Word, Polymod, HrpExpand, Chars, Lower, Upper, HrpChars, Bech32mDecode;
    var all := [10, 28, 25, 31, 20, 31];
    Words0();
    Words8();
    Words16();
    Words24();
    Bech32States();
    ShortChars();
    ShortText(10, 28, 25, 31, 20, 31);
    assert "a" + "1" + "2uel5l" == "a12uel5l";
    ReadsAs("a12uel5l", "a", all);
  }

  // ---------------------------------------------------------------- every symbol

  lemma LongText0(before: seq<nat>)
    requires Symbols(before) && Polymod(before) == 1
    ensures var all := before + [3, 3, 3, 3, 3, 3, 0, 1, 2, 3, 4, 5, 6];
      Symbols(all) && Polymod(all) == 0x3be80e6a
  {
    hide Word, Step, Polymod;
    Words0();
    Words8();
    Words16();
    Words24();
    LongStates0();
    Four(before, 3, 3, 3, 3);
    Four(before + [3, 3, 3, 3], 3, 3, 0, 1);
    Four(before + [3, 3, 3, 3] + [3, 3, 0, 1], 2, 3, 4, 5);
    One(before + [3, 3, 3, 3] + [3, 3, 0, 1] + [2, 3, 4, 5], 6);
    assert before + [3, 3, 3, 3] + [3, 3, 0, 1] + [2, 3, 4, 5] + [6]
      == before + [3, 3, 3, 3, 3, 3, 0, 1, 2, 3, 4, 5, 6];
  }

  lemma LongText13(before: seq<nat>)
    requires Symbols(before) && Polymod(before) == 0x3be80e6a
    ensures var all := before + [31, 30, 29, 28, 27, 26, 25, 24, 23, 22, 21, 20, 19];
      Symbols(all) && Polymod(all) == 0x16d204b9
  {
    hide Word, Step, Polymod;
    Words0();
    Words8();
    Words16();
    Words24();
    LongStates13();
    Four(before, 31, 30, 29, 28);
    Four(before + [31, 30, 29, 28], 27, 26, 25, 24);
    Four(before + [31, 30, 29, 28] + [27, 26, 25, 24], 23, 22, 21, 20);
    One(before + [31, 30, 29, 28] + [27, 26, 25, 24] + [23, 22, 21, 20], 19);
    assert before + [31, 30, 29, 28] + [27, 26, 25, 24] + [23, 22, 21, 20] + [19]
      == before + [31, 30, 29, 28, 27, 26, 25, 24, 23, 22, 21, 20, 19];
  }

  lemma LongText26(before: seq<nat>)
    requires Symbols(before) && Polymod(before) == 0x16d204b9
    ensures var all := before + [18, 17, 16, 15, 14, 13, 12, 11, 10, 9, 8, 7, 6];
      Symbols(all) && Polymod(all) == 0x1c07ca15
  {
    hide Word, Step, Polymod;
    Words0();
    Words8();
    Words16();
    Words24();
    LongStates26();
    Four(before, 18, 17, 16, 15);
    Four(before + [18, 17, 16, 15], 14, 13, 12, 11);
    Four(before + [18, 17, 16, 15] + [14, 13, 12, 11], 10, 9, 8, 7);
    One(before + [18, 17, 16, 15] + [14, 13, 12, 11] + [10, 9, 8, 7], 6);
    assert before + [18, 17, 16, 15] + [14, 13, 12, 11] + [10, 9, 8, 7] + [6]
      == before + [18, 17, 16, 15, 14, 13, 12, 11, 10, 9, 8, 7, 6];
  }

  lemma LongText39(before: seq<nat>)
    requires Symbols(before) && Polymod(before) == 0x1c07ca15
    ensures var all := before + [5, 4, 3, 2, 1, 0, 2, 13, 17, 3, 4, 6];
      Symbols(all) && Polymod(all) == 0x2bc830a3
  {
    hide Word, Step, Polymod;
    Words0();
    Words8();
    Words16();
    Words24();
    LongStates39();
    Four(before, 5, 4, 3, 2);
    Four(before + [5, 4, 3, 2], 1, 0, 2, 13);
    Four(before + [5, 4, 3, 2] + [1, 0, 2, 13], 17, 3, 4, 6);
    assert before + [5, 4, 3, 2] + [1, 0, 2, 13] + [17, 3, 4, 6] == before + [5, 4, 3, 2, 1, 0, 2, 13, 17, 3, 4, 6];
  }

  /** The symbols from the last to the first. */
  const DESCENDING: seq<nat> :=
    [31, 30, 29, 28, 27, 26, 25, 24, 23, 22, 21, 20, 19, 18, 17, 16,
     15, 14, 13, 12, 11, 10, 9, 8, 7, 6, 5, 4, 3, 2, 1, 0]
  const LONG_SUM: seq<nat> := [2, 13, 17, 3, 4, 6]
  const LONG_TEXT: string := "abcdef" + "1" + ("l7aum6ec" + "hk45nj3s" + "0wdvt2fg" + "8x9yrzpq" + "zd3ryx")

  lemma LongSymbols()
    ensures HrpChars("abcdef") && HrpExpand("abcdef") == [3, 3, 3, 3, 3, 3, 0, 1, 2, 3, 4, 5, 6]
    ensures Symbols(DESCENDING + LONG_SUM)
  {
  }

  lemma LongRun()
    ensures Symbols(HrpExpand("abcdef") + (DESCENDING + LONG_SUM))
    ensures Passes(HrpExpand("abcdef") + (DESCENDING + LONG_SUM))
  {
    hide Polymod, HrpExpand;
    LongSymbols();
    EmptyRun();
    LongText0([]);
    LongText13([] + [3, 3, 3, 3, 3, 3, 0, 1, 2, 3, 4, 5, 6]);
    LongText26([] + [3, 3, 3, 3, 3, 3, 0, 1, 2, 3, 4, 5, 6]
      + [31, 30, 29, 28, 27, 26, 25, 24, 23, 22, 21, 20, 19]);
    LongText39([] + [3, 3, 3, 3, 3, 3, 0, 1, 2, 3, 4, 5, 6]
      + [31, 30, 29, 28, 27, 26, 25, 24, 23, 22, 21, 20, 19]
      + [18, 17, 16, 15, 14, 13, 12, 11, 10, 9, 8, 7, 6]);
    assert [] + [3, 3, 3, 3, 3, 3, 0, 1, 2, 3, 4, 5, 6]
      + [31, 30, 29, 28, 27, 26, 25, 24, 23, 22, 21, 20, 19]
      + [18, 17, 16, 15, 14, 13, 12, 11, 10, 9, 8, 7, 6]
      + [5, 4, 3, 2, 1, 0, 2, 13, 17, 3, 4, 6] == HrpExpand("abcdef") + (DESCENDING + LONG_SUM);
  }

  lemma CharsDown()
    ensures Symbols([31, 30, 29, 28, 27, 26, 25, 24]) && Symbols([23, 22, 21, 20, 19, 18, 17, 16])
    ensures Chars([31, 30, 29, 28, 27, 26, 25, 24]) == "l7aum6ec"
    ensures Chars([23, 22, 21, 20, 19, 18, 17, 16]) == "hk45nj3s"
  {
  }

  lemma CharsOn()
    ensures Symbols([15, 14, 13, 12, 11, 10, 9, 8]) && Chars([15, 14, 13, 12, 11, 10, 9, 8]) == "0wdvt2fg"
  {
  }

  lemma CharsLast()
    ensures Symbols([7, 6, 5, 4, 3, 2, 1, 0]) && Symbols(LONG_SUM)
    ensures Chars([7, 6, 5, 4, 3, 2, 1, 0]) == "8x9yrzpq" && Chars(LONG_SUM) == "zd3ryx"
  {
  }

  lemma LongChars()
    requires Symbols(DESCENDING + LONG_SUM)
    ensures "abcdef" + "1" + Chars(DESCENDING + LONG_SUM) == LONG_TEXT && Lower(LONG_TEXT) == LONG_TEXT
  {
    hide Chars, Symbols, Lower;
    var a, b := [31, 30, 29, 28, 27, 26, 25, 24], [23, 22, 21, 20, 19, 18, 17, 16];
    var c, d := [15, 14, 13, 12, 11, 10, 9, 8], [7, 6, 5, 4, 3, 2, 1, 0];
    CharsDown();
    CharsOn();
    CharsLast();
    CharsConcat(a, b);
    CharsConcat(a + b, c);
    CharsConcat(a + b + c, d);
    CharsConcat(a + b + c + d, LONG_SUM);
    DescendingParts();
    SymbolsOfChars(DESCENDING + LONG_SUM);
    LowerHrp();
    LowerConcat("abcdef", Chars(DESCENDING + LONG_SUM));
  }

  lemma DescendingParts()
    ensures [31, 30, 29, 28, 27, 26, 25, 24] + [23, 22, 21, 20, 19, 18, 17, 16] + [15, 14, 13, 12, 11, 10, 9, 8]
            + [7, 6, 5, 4, 3, 2, 1, 0] == DESCENDING
  {
  }

  lemma LowerHrp()
    ensures Lower("abcdef") == "abcdef"
  {
  }

  /** A text whose payload is every symbol, from the last to the first. */
  lemma EverySymbol()
    ensures Bech32mDecode(LONG_TEXT) == Ok(("abcdef", DESCENDING))
  {
    hide Passes, HrpExpand, Chars, Lower, Upper, HrpChars, Bech32mDecode;
    LongSymbols();
    LongRun();
    LongChars();
    ReadsAs(LONG_TEXT, "abcdef", DESCENDING + LONG_SUM);
    assert (DESCENDING + LONG_SUM)[..32] == DESCENDING;
  }

  // ---------------------------------------------------------------- addresses

  lemma PayloadLength(a: ShieldedAddress)
    requires WellFormed(a)
    ensures |PayloadSymbols(a)| == 104
  {
    hide Bits, Groups, Leftover, Payload;
    PayloadBytes(a);
    var b := Bits(Payload(a), 8);
    GroupsOf(b, 5);
    assert |b| == |Groups(b, 5)| * 5 + |Leftover(b, 5)| == 520;
  }

  /** An address is 116 characters from "erthz1" on, and its symbols are the bytes of the
      version 1, the owner key big-endian and the encryption key. */
  lemma AddressForm(a: ShieldedAddress)
    requires WellFormed(a)
    ensures |Encode(a)| == 116 && "erthz1" <= Encode(a)
    ensures var r := Bech32mDecode(Encode(a));
      && r.Ok? && r.value.0 == "erthz"
      && ConvertBits(r.value.1, 5, 8, false) == Ok([1] + ToBytes(a.ownerPK, 32) + a.ekPub)
  {
    hide Bech32mDecode, ConvertBits, HrpChars, Checksum, HrpExpand, Chars, PayloadSymbols;
    HrpOk();
    PayloadLength(a);
    PayloadBytes(a);
    RegroupRoundTrip(Payload(a));
    DecodeEncode(ADDRESS_HRP, PayloadSymbols(a));
    Regrouped(a);
    assert ADDRESS_HRP + "1" == "erthz1";
  }

  lemma Regrouped(a: ShieldedAddress)
    requires WellFormed(a)
    ensures ConvertBits(Payload(a), 8, 5, true) == Ok(PayloadSymbols(a))
  {
    hide ConvertBits, Payload;
    PayloadBytes(a);
    RegroupRoundTrip(Payload(a));
  }
}
