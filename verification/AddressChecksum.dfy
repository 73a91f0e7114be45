/** The bech32m checksum: a linear recurrence over 30-bit states.

    The word operations are named so that proofs can treat them as opaque symbols with
    the few laws proved of each. */
module AddressChecksum {

  const BECH32M_CONST: bv32 := 0x2bc830a3

  predicate Symbols(values: seq<nat>) {
    forall i | 0 <= i < |values| :: values[i] < 32
  }

  function Word(v: nat): bv32
    requires v < 32
  {
    v as bv32
  }

  function Xor(a: bv32, b: bv32): bv32 { a ^ b }

  /** The low 25 bits, moved up by one symbol. */
  function Shift(c: bv32): bv32 { (c & 0x1ffffff) << 5 }

  function Top(c: bv32): bv32 { c >> 25 }

  predicate State(c: bv32) { c & 0xC0000000 == 0 }

  predicate Small(v: bv32) { v & 31 == v }

  /** No symbol has reached the top five bits. */
  predicate Low25(c: bv32) { c & 0x1ffffff == c }

  /** The generator words selected by the five bits shifted out. */
  function Feedback(top: bv32): bv32 {
    Xor(Xor(Xor(Xor(
      Tap(top, 1, 0x3b6a57b2), Tap(top, 2, 0x26508e6d)), Tap(top, 4, 0x1ea119fa)), Tap(top, 8, 0x3d4233dd)),
      Tap(top, 16, 0x2a1462b3))
  }

  /** A word, if the masked bit is set. */
  function Tap(top: bv32, mask: bv32, word: bv32): bv32 {
    if top & mask != 0 then word else 0
  }

  function Step(chk: bv32, v: bv32): bv32 {
    Xor(Xor(Shift(chk), v), Feedback(Top(chk)))
  }

  /** The state reached from c over a list of symbols. */
  function Run(c: bv32, values: seq<nat>): bv32
    requires Symbols(values)
  {
    if values == [] then c else Step(Run(c, values[..|values| - 1]), Word(values[|values| - 1]))
  }

  function Polymod(values: seq<nat>): bv32
    requires Symbols(values)
  {
    Run(1, values)
  }

  // ---------------------------------------------------------------- word laws

  lemma WordSmall(v: nat)
    requires v < 32
    ensures Small(Word(v))
  {
  }

  lemma WordBack(v: nat)
    requires v < 32
    ensures Word(v) as int == v
  {
    hide Word;
    if v < 8 {
      Words0();
    } else if v < 16 {
      Words8();
    } else if v < 24 {
      Words16();
    } else {
      Words24();
    }
  }

  lemma Words0()
    ensures Word(0) == 0 && Word(1) == 1 && Word(2) == 2 && Word(3) == 3
    ensures Word(4) == 4 && Word(5) == 5 && Word(6) == 6 && Word(7) == 7
  {
  }

  lemma Words8()
    ensures Word(8) == 8 && Word(9) == 9 && Word(10) == 10 && Word(11) == 11
    ensures Word(12) == 12 && Word(13) == 13 && Word(14) == 14 && Word(15) == 15
  {
  }

  lemma Words16()
    ensures Word(16) == 16 && Word(17) == 17 && Word(18) == 18 && Word(19) == 19
    ensures Word(20) == 20 && Word(21) == 21 && Word(22) == 22 && Word(23) == 23
  {
  }

  lemma Words24()
    ensures Word(24) == 24 && Word(25) == 25 && Word(26) == 26 && Word(27) == 27
    ensures Word(28) == 28 && Word(29) == 29 && Word(30) == 30 && Word(31) == 31
  {
  }

  lemma WordInjective(v: nat, w: nat)
    requires v < 32 && w < 32 && Word(v) == Word(w)
    ensures v == w
  {
    hide Word;
    WordBack(v);
    WordBack(w);
  }

  lemma XorSwap(a: bv32, b: bv32, c: bv32, d: bv32)
    ensures Xor(Xor(a, b), Xor(c, d)) == Xor(Xor(a, c), Xor(b, d))
  {
    hide Xor;
    XorAssociates(a, b, Xor(c, d));
    XorAssociates(b, c, d);
    XorCommutes(b, c);
    XorAssociates(c, b, d);
    XorAssociates(a, c, Xor(b, d));
  }

  lemma XorAssociates(a: bv32, b: bv32, c: bv32)
    ensures Xor(Xor(a, b), c) == Xor(a, Xor(b, c))
  {
  }

  lemma XorCommutes(a: bv32, b: bv32)
    ensures Xor(a, b) == Xor(b, a)
  {
  }

  lemma XorUnit(a: bv32)
    ensures Xor(a, a) == 0 && Xor(a, 0) == a && Xor(0, a) == a
  {
  }

  lemma XorCancel(a: bv32, b: bv32)
    ensures Xor(a, Xor(a, b)) == b
  {
  }

  lemma XorZero(a: bv32, b: bv32)
    requires Xor(a, b) == 0
    ensures a == b
  {
  }

  lemma FeedbackLinear(a: bv32, b: bv32)
    ensures Feedback(Xor(a, b)) == Xor(Feedback(a), Feedback(b))
  {
    hide Xor, Tap;
    BitsXor(a, b);
    TapLinear(a, b, 1, 0x3b6a57b2);
    TapLinear(a, b, 2, 0x26508e6d);
    TapLinear(a, b, 4, 0x1ea119fa);
    TapLinear(a, b, 8, 0x3d4233dd);
    TapLinear(a, b, 16, 0x2a1462b3);
    var p, q := Tap(a, 1, 0x3b6a57b2), Tap(b, 1, 0x3b6a57b2);
    var p1, q1 := Tap(a, 2, 0x26508e6d), Tap(b, 2, 0x26508e6d);
    var p2, q2 := Tap(a, 4, 0x1ea119fa), Tap(b, 4, 0x1ea119fa);
    var p3, q3 := Tap(a, 8, 0x3d4233dd), Tap(b, 8, 0x3d4233dd);
    XorSwap(p, q, p1, q1);
    XorSwap(Xor(p, p1), Xor(q, q1), p2, q2);
    XorSwap(Xor(Xor(p, p1), p2), Xor(Xor(q, q1), q2), p3, q3);
    XorSwap(Xor(Xor(Xor(p, p1), p2), p3), Xor(Xor(Xor(q, q1), q2), q3), Tap(a, 16, 0x2a1462b3), Tap(b, 16, 0x2a1462b3));
  }

  lemma BitsXor(a: bv32, b: bv32)
    ensures (Xor(a, b) & 1 != 0) == ((a & 1 != 0) != (b & 1 != 0))
    ensures (Xor(a, b) & 2 != 0) == ((a & 2 != 0) != (b & 2 != 0))
    ensures (Xor(a, b) & 4 != 0) == ((a & 4 != 0) != (b & 4 != 0))
    ensures (Xor(a, b) & 8 != 0) == ((a & 8 != 0) != (b & 8 != 0))
    ensures (Xor(a, b) & 16 != 0) == ((a & 16 != 0) != (b & 16 != 0))
  {
  }

  lemma TapLinear(a: bv32, b: bv32, mask: bv32, word: bv32)
    requires (Xor(a, b) & mask != 0) == ((a & mask != 0) != (b & mask != 0))
    ensures Tap(Xor(a, b), mask, word) == Xor(Tap(a, mask, word), Tap(b, mask, word))
  {
    hide Xor;
    XorUnit(word);
    XorUnit(0);
  }

  lemma ShiftLinear(a: bv32, b: bv32)
    ensures Shift(Xor(a, b)) == Xor(Shift(a), Shift(b)) && Top(Xor(a, b)) == Xor(Top(a), Top(b))
  {
  }

  lemma StateXor(a: bv32, b: bv32)
    requires State(a) && State(b)
    ensures State(Xor(a, b))
  {
  }

  lemma LowTop(c: bv32)
    requires Low25(c)
    ensures Feedback(Top(c)) == 0
  {
    assert Top(c) == 0;
  }

  lemma StepState(c: bv32, v: bv32)
    requires State(c) && Small(v)
    ensures State(Step(c, v))
  {
  }

  lemma StepKernel(d: bv32)
    requires State(d) && Step(d, 0) == 0
    ensures d == 0
  {
  }

  // ---------------------------------------------------------------- one step

  lemma StepLinear(a: bv32, x: bv32, b: bv32, y: bv32)
    ensures Step(Xor(a, b), Xor(x, y)) == Xor(Step(a, x), Step(b, y))
  {
    hide Xor, Shift, Top, Feedback;
    ShiftLinear(a, b);
    FeedbackLinear(Top(a), Top(b));
    XorSwap(Shift(a), Shift(b), x, y);
    XorSwap(Xor(Shift(a), x), Xor(Shift(b), y), Feedback(Top(a)), Feedback(Top(b)));
  }

  /** Each step is injective on states. */
  lemma StepInjective(a: bv32, b: bv32, v: bv32)
    requires State(a) && State(b) && Step(a, v) == Step(b, v)
    ensures a == b
  {
    hide Xor, Step, State;
    StepLinear(a, v, b, v);
    XorUnit(v);
    XorUnit(Step(a, v));
    StateXor(a, b);
    StepKernel(Xor(a, b));
    XorZero(a, b);
  }

  /** A symbol fed beside a zero differs by exactly that symbol, the ones before it
      shifted along. */
  lemma StepBeside(z: bv32, p: bv32, v: bv32)
    requires Low25(p)
    ensures Step(Xor(z, p), v) == Xor(Step(z, 0), Xor(Shift(p), v))
  {
    hide Xor, Shift, Top, Feedback, Low25;
    StepLinear(z, 0, p, v);
    LowTop(p);
    XorUnit(v);
    XorUnit(Xor(Shift(p), v));
  }

  // ---------------------------------------------------------------- runs

  lemma {:induction false} RunConcat(c: bv32, a: seq<nat>, b: seq<nat>)
    requires Symbols(a) && Symbols(b)
    ensures Symbols(a + b) && Run(c, a + b) == Run(Run(c, a), b)
  {
    hide Step, Word;
    if b == [] {
      assert a + b == a;
    } else {
      var front := b[..|b| - 1];
      RunConcat(c, a, front);
      assert (a + b)[..|a + b| - 1] == a + front;
    }
  }

  lemma {:induction false} RunState(c: bv32, values: seq<nat>)
    requires State(c) && Symbols(values)
    ensures State(Run(c, values))
  {
    hide Step, State, Word, Small;
    if values != [] {
      RunState(c, values[..|values| - 1]);
      WordSmall(values[|values| - 1]);
      StepState(Run(c, values[..|values| - 1]), Word(values[|values| - 1]));
    }
  }

  /** States that differ before a common tail differ after it. */
  lemma {:induction false} RunInjective(a: bv32, b: bv32, values: seq<nat>)
    requires State(a) && State(b) && Symbols(values) && Run(a, values) == Run(b, values)
    ensures a == b
  {
    hide Step, State, Word;
    if values != [] {
      var front := values[..|values| - 1];
      RunState(a, front);
      RunState(b, front);
      StepInjective(Run(a, front), Run(b, front), Word(values[|values| - 1]));
      RunInjective(a, b, front);
    }
  }

  // ---------------------------------------------------------------- six symbols

  /** Up to six symbols as the word they spell. */
  function Spell(w: seq<nat>): bv32
    requires Symbols(w)
  {
    if w == [] then 0 else Xor(Shift(Spell(w[..|w| - 1])), Word(w[|w| - 1]))
  }

  function ZeroSymbols(n: nat): (z: seq<nat>)
    ensures |z| == n && Symbols(z)
  {
    seq(n, _ => 0)
  }

  /** The word spelled by n symbols has only its low 5n bits set. */
  predicate Within(c: bv32, n: nat) {
    match n
    case 0 => c == 0
    case 1 => c & 0x1f == c
    case 2 => c & 0x3ff == c
    case 3 => c & 0x7fff == c
    case 4 => c & 0xfffff == c
    case 5 => c & 0x1ffffff == c
    case _ => c & 0x3fffffff == c
  }

  lemma WithinShift(c: bv32, v: bv32, n: nat)
    requires n < 6 && Within(c, n) && Small(v)
    ensures Low25(c) && Within(Xor(Shift(c), v), n + 1)
  {
  }

  lemma {:induction false} SpellWithin(w: seq<nat>)
    requires |w| <= 6 && Symbols(w)
    ensures Within(Spell(w), |w|)
  {
    hide Xor, Shift, Word, Within, Small;
    if w == [] {
      WithinNothing();
    } else {
      SpellWithin(w[..|w| - 1]);
      WordSmall(w[|w| - 1]);
      WithinShift(Spell(w[..|w| - 1]), Word(w[|w| - 1]), |w| - 1);
    }
  }

  lemma WithinNothing()
    ensures Within(0, 0)
  {
  }

  /** Up to six symbols enter the state linearly: they are XORed into what as many zeros
      give. */
  lemma {:induction false} LastSymbols(c: bv32, w: seq<nat>)
    requires |w| <= 6 && Symbols(w)
    ensures Run(c, w) == Xor(Run(c, ZeroSymbols(|w|)), Spell(w))
  {
    hide Xor, Shift, Word, Within, Small, Step, Low25;
    if w == [] {
      XorUnit(c);
    } else {
      var n := |w| - 1;
      var front, z := w[..n], ZeroSymbols(n);
      LastSymbols(c, front);
      SpellWithin(front);
      WordSmall(w[n]);
      WithinShift(Spell(front), Word(w[n]), n);
      StepBeside(Run(c, z), Spell(front), Word(w[n]));
      assert ZeroSymbols(|w|)[..n] == z;
      ZeroWord();
    }
  }

  lemma ZeroWord()
    ensures Word(0) == 0
  {
  }

  function Half(c: bv32): bv32 { c >> 5 }

  function Mask(c: bv32): bv32 { c & 31 }

  /** A word shifted right by k symbols, that is by 5k bits. */
  function Down(c: bv32, k: nat): bv32 {
    if k == 0 then c else Half(Down(c, k - 1))
  }

  /** The i-th five bits from the top of a 30-bit word. */
  function Digit(c: bv32, i: nat): bv32
    requires i < 6
  {
    Mask(Down(c, 5 - i))
  }

  lemma DigitSmall(c: bv32, i: nat)
    requires i < 6
    ensures Small(Digit(c, i))
  {
    MaskSmall(Down(c, 5 - i));
  }

  lemma MaskSmall(x: bv32)
    ensures Small(Mask(x))
  {
  }

  function Symbol(d: bv32): (v: nat)
    ensures v < 32
  {
    (d & 31) as int
  }

  lemma WordOfSymbol(d: bv32)
    requires Small(d)
    ensures Word(Symbol(d)) == d
  {
  }

  /** The six symbols of a 30-bit word. */
  function Fields(c: bv32): (w: seq<nat>)
    ensures |w| == 6 && Symbols(w)
  {
    seq(6, i requires 0 <= i < 6 => Symbol(Digit(c, i)))
  }

  /** What the first n digits of a word spell. */
  function Spelled(c: bv32, n: nat): bv32
    requires n <= 6
  {
    if n == 0 then 0 else Xor(Shift(Spelled(c, n - 1)), Digit(c, n - 1))
  }

  lemma {:induction false} SpellDigits(c: bv32, n: nat)
    requires n <= 6
    ensures Spell(Fields(c)[..n]) == Spelled(c, n)
  {
    hide Xor, Shift, Word, Symbol, Digit, Small;
    if n > 0 {
      SpellDigits(c, n - 1);
      assert Fields(c)[..n][..n - 1] == Fields(c)[..n - 1];
      DigitSmall(c, n - 1);
      WordOfSymbol(Digit(c, n - 1));
    }
  }

  lemma Join(x: bv32)
    requires State(x)
    ensures Xor(Shift(Half(x)), Mask(x)) == x && State(Half(x))
  {
  }

  lemma HalfWithin(x: bv32, n: nat)
    requires 0 < n <= 6 && Within(x, n)
    ensures Within(Half(x), n - 1)
  {
    HalfMasks(x);
    hide Half;
  }

  lemma HalfMasks(x: bv32)
    ensures x & 0x1f == x ==> Half(x) == 0
    ensures x & 0x3ff == x ==> Half(x) & 0x1f == Half(x)
    ensures x & 0x7fff == x ==> Half(x) & 0x3ff == Half(x)
    ensures x & 0xfffff == x ==> Half(x) & 0x7fff == Half(x)
    ensures x & 0x1ffffff == x ==> Half(x) & 0xfffff == Half(x)
    ensures x & 0x3fffffff == x ==> Half(x) & 0x1ffffff == Half(x)
  {
  }

  lemma {:induction false} DownWithin(c: bv32, k: nat)
    requires State(c) && k <= 6
    ensures State(Down(c, k)) && Within(Down(c, k), 6 - k)
  {
    hide Half, Within, State, Xor, Shift, Mask;
    if k == 0 {
      StateWithin(c);
    } else {
      DownWithin(c, k - 1);
      HalfWithin(Down(c, k - 1), 7 - k);
      Join(Down(c, k - 1));
    }
  }

  lemma StateWithin(c: bv32)
    requires State(c)
    ensures Within(c, 6)
  {
  }

  lemma WithinZero(c: bv32)
    requires Within(c, 0)
    ensures c == 0
  {
  }

  lemma {:induction false} Reassemble(c: bv32, n: nat)
    requires State(c) && n <= 6
    ensures Spelled(c, n) == Down(c, 6 - n)
  {
    hide State, Xor, Shift, Half, Mask, Within;
    if n == 0 {
      DownWithin(c, 6);
      WithinZero(Down(c, 6));
    } else {
      Reassemble(c, n - 1);
      DownWithin(c, 6 - n);
      Join(Down(c, 6 - n));
    }
  }

  /** Reading a state's six symbols and spelling them gives the state back. */
  lemma SpellFields(c: bv32)
    requires State(c)
    ensures Spell(Fields(c)) == c
  {
    hide State, Spelled, Spell, Fields;
    SpellDigits(c, 6);
    Reassemble(c, 6);
    assert Fields(c)[..6] == Fields(c);
  }

  lemma SpellStepInjective(c: bv32, v: bv32, d: bv32, u: bv32)
    requires Low25(c) && Low25(d) && Small(v) && Small(u) && Xor(Shift(c), v) == Xor(Shift(d), u)
    ensures c == d && v == u
  {
  }

  lemma {:induction false} SpellInjective(w: seq<nat>, x: seq<nat>)
    requires |w| == |x| <= 6 && Symbols(w) && Symbols(x) && Spell(w) == Spell(x)
    ensures w == x
  {
    hide Xor, Shift, Word, Within, Small, Low25;
    if w != [] {
      var n := |w| - 1;
      SpellWithin(w[..n]);
      SpellWithin(x[..n]);
      WordSmall(w[n]);
      WordSmall(x[n]);
      WithinShift(Spell(w[..n]), Word(w[n]), n);
      WithinShift(Spell(x[..n]), Word(x[n]), n);
      SpellStepInjective(Spell(w[..n]), Word(w[n]), Spell(x[..n]), Word(x[n]));
      SpellInjective(w[..n], x[..n]);
      WordInjective(w[n], x[n]);
      assert w == w[..n] + [w[n]] && x == x[..n] + [x[n]];
    }
  }

  // ---------------------------------------------------------------- the checksum

  /** The six symbols that make a list of values pass. */
  function Checksum(values: seq<nat>): (w: seq<nat>)
    requires Symbols(values)
    ensures |w| == 6 && Symbols(w)
  {
    Fields(Xor(Polymod(values + ZeroSymbols(6)), BECH32M_CONST))
  }

  predicate Passes(values: seq<nat>)
    requires Symbols(values)
  {
    Polymod(values) == BECH32M_CONST
  }

  lemma StartState()
    ensures State(1) && State(BECH32M_CONST)
  {
  }

  /** A list of values passes with exactly one ending of six symbols. */
  lemma ChecksumUnique(values: seq<nat>, w: seq<nat>)
    requires Symbols(values) && |w| == 6 && Symbols(w)
    ensures Symbols(values + w) && (Passes(values + w) <==> w == Checksum(values))
  {
    hide Xor, Shift, Word, State, Step, Run, Spell, Fields;
    var z := Polymod(values + ZeroSymbols(6));
    var mod := Xor(z, BECH32M_CONST);
    RunConcat(1, values, w);
    RunConcat(1, values, ZeroSymbols(6));
    LastSymbols(Run(1, values), w);
    assert Polymod(values + w) == Xor(z, Spell(w));
    StartState();
    RunState(1, values + ZeroSymbols(6));
    StateXor(z, BECH32M_CONST);
    SpellFields(mod);
    XorCancel(z, BECH32M_CONST);
    XorCancel(z, Spell(w));
    if Xor(z, Spell(w)) == BECH32M_CONST {
      SpellInjective(w, Fields(mod));
    }
  }

  /** Two lists of any length that differ only inside six consecutive symbols never both
      pass the checksum. */
  lemma WindowDetected(a: seq<nat>, w: seq<nat>, x: seq<nat>, b: seq<nat>)
    requires Symbols(a) && Symbols(w) && Symbols(x) && Symbols(b)
    requires |w| == |x| <= 6 && w != x
    ensures Symbols(a + w + b) && Symbols(a + x + b)
    ensures Polymod(a + w + b) != Polymod(a + x + b)
    ensures !(Passes(a + w + b) && Passes(a + x + b))
  {
    hide Xor, Shift, Word, State, Step, Run, Spell, Fields;
    StartState();
    RunConcat(1, a, w);
    RunConcat(1, a + w, b);
    RunConcat(1, a, x);
    RunConcat(1, a + x, b);
    RunState(1, a + w);
    RunState(1, a + x);
    if Polymod(a + w + b) == Polymod(a + x + b) {
      RunInjective(Run(1, a + w), Run(1, a + x), b);
      var c, z := Run(1, a), Run(Run(1, a), ZeroSymbols(|w|));
      LastSymbols(c, w);
      LastSymbols(c, x);
      XorCancel(z, Spell(w));
      XorCancel(z, Spell(x));
      SpellInjective(w, x);
    }
  }
}
