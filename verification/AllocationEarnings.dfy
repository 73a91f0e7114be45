/** What options earn: each settlement gives every option its share of the emission, no call
    but a payment takes an entitlement away, and coins, residue and entitlements balance
    over every run. */
module AllocationEarnings {
  import opened AllocationTypes
  import opened AllocationLedger
  import opened AllocationBooks
  import opened AllocationSettle
  import opened AllocationVotes
  import opened AllocationOps
  import opened AllocationPayments
  import opened AllocationBlocks
  import opened AllocationRun
  import opened AllocationOnward
  import opened AllocationBallots
  import Orders
  import Sums

  // ---------------------------------------------------------------- one settlement

  /** What an option is entitled to: its balance and its whole pending claim. */
  function Due(st: Stream, id: int): int {
    if id in st.options then SettleOption(st.options[id], st.index).accrued else 0
  }

  /** A claim on the index pays its exact value, to less than one unit either way. */
  lemma ClaimStep(a: int, x: int, d: int)
    requires a >= 0 && x >= 0 && d >= 0
    ensures var g := Quo(a * (x + d), PRECISION) - Quo(a * x, PRECISION);
      a * d - PRECISION < PRECISION * g < a * d + PRECISION && g >= 0
  {
    ProductNonNegative(a, x);
    ProductNonNegative(a, d);
    Sums.Distribute(a, x, d);
    ScaledDivision(a * x, PRECISION);
    ScaledDivision(a * x + a * d, PRECISION);
    DivisionGrows(a * x, a * d);
  }

  lemma DivisionGrows(n: int, m: int)
    requires n >= 0 && m >= 0
    ensures (n + m) / PRECISION >= n / PRECISION
  {
  }

  /** How far a settlement moves an option's entitlement, by its weight and the index's move. */
  lemma DueMoves(st: Stream, index: int, id: int)
    requires id in st.options && OptionOk(st.options[id], st.index) && index >= st.index
    ensures var g, y := Due(st.(index := index), id) - Due(st, id), st.options[id].amount * (index - st.index);
      g >= 0 && y - PRECISION < PRECISION * g < y + PRECISION
  {
    var o := st.options[id];
    if o.amount > 0 {
      ClaimStep(o.amount, st.index - o.lastIndex, index - st.index);
      assert index - o.lastIndex == st.index - o.lastIndex + (index - st.index);
    }
  }

  /** The index moves so that its whole weight stays within the reward, by less than the
      weight. */
  lemma IndexShare(reward: int, total: int)
    requires reward >= 0 && total > 0
    ensures var d := reward * PRECISION / total; reward * PRECISION - total < total * d <= reward * PRECISION
  {
    ScaledDivision(reward * PRECISION, total);
  }

  lemma ShareBounds(a: int, total: int, reward: int, d: int, g: int)
    requires a >= 0 && total > 0 && reward * PRECISION - total < total * d <= reward * PRECISION
    requires a * d - PRECISION < PRECISION * g < a * d + PRECISION
    ensures total * g < a * reward + total
    ensures PRECISION * (a * reward) <= PRECISION * (total * g + total) + a * total
  {
    var p := PRECISION;
    var tad := total * (a * d);
    assert p * (total * g) <= tad + (p - 1) * total by {
      Scaled(total, p * g, a * d, p - 1);
      Rotate(total, p, g);
    }
    assert tad <= p * (total * g) + (p - 1) * total by {
      Scaled(total, a * d, p * g, p - 1);
      Rotate(total, p, g);
    }
    assert tad <= p * (a * reward) by {
      Scaled(a, total * d, reward * p, 0);
      Rotate(total, a, d);
      Rotate(a, p, reward);
    }
    assert p * (a * reward) <= tad + a * total by {
      Scaled(a, reward * p, total * d, total);
      Rotate(total, a, d);
      Rotate(a, p, reward);
    }
    Combine(total * g, tad, a * reward, total, a * total);
  }

  lemma Combine(tg: int, tad: int, ar: int, total: int, at: int)
    requires PRECISION * tg <= tad + (PRECISION - 1) * total && tad <= PRECISION * tg + (PRECISION - 1) * total
    requires tad <= PRECISION * ar <= tad + at && total > 0
    ensures tg < ar + total && PRECISION * ar <= PRECISION * (tg + total) + at
  {
  }

  lemma Scaled(k: int, a: int, b: int, c: int)
    requires k >= 0 && a <= b + c
    ensures k * a <= k * b + c * k
  {
    Monotone(k, a, b + c);
    Sums.Distribute(k, b, c);
  }

  lemma Rotate(a: int, b: int, c: int)
    ensures a * (b * c) == b * (a * c)
  {
  }

  lemma Monotone(k: int, a: int, b: int)
    requires k >= 0 && a <= b
    ensures k * a <= k * b
  {
  }

  /** A settlement over a weight gives each option its share of the reward by weight: less
      than one unit over, short by less than one unit and the index's own rounding. The
      residue takes less than the weight's worth of the index. */
  lemma FairShare(l: Ledger, s: StreamId, now: int, id: int)
    requires StreamBooks(l.At(s)) && Minted(l, s, now) && id in l.At(s).options
    ensures var st, m := l.At(s), SettleTo(l, s, now);
      var a, reward, g := st.options[id].amount, Reward(st.lastUpkeep, now), Due(m.At(s), id) - Due(st, id);
      && g >= 0
      && st.total * g < a * reward + st.total
      && PRECISION * (a * reward) <= PRECISION * (st.total * g + st.total) + a * st.total
      && m.held == l.held + reward
      && m.residue >= l.residue && PRECISION * (m.residue - l.residue) < st.total
  {
    hide SettleTo, Due, CountedLeases, OptionOk;
    var st := l.At(s);
    var reward := Reward(st.lastUpkeep, now);
    var delta := reward * PRECISION / st.total;
    var collectable := CeilQuo(delta * st.total, PRECISION);
    Reserve(reward, st.total, delta, collectable);
    MintingFrame(l, s, now, reward, delta, collectable);
    SettleToFrame(l, s, now);
    var m := SettleTo(l, s, now);
    assert OptionOk(st.options[id], st.index);
    DueMoves(st, st.index + delta, id);
    DueSame(st.(index := st.index + delta), m.At(s), id);
    IndexShare(reward, st.total);
    var g := Due(m.At(s), id) - Due(st, id);
    OptionAmount(st, id);
    ShareBounds(st.options[id].amount, st.total, reward, delta, g);
  }

  lemma OptionAmount(st: Stream, id: int)
    requires id in st.options && OptionOk(st.options[id], st.index)
    ensures st.options[id].amount >= 0
  {
  }

  lemma DueSame(a: Stream, b: Stream, id: int)
    requires a.options == b.options && a.index == b.index
    ensures Due(a, id) == Due(b, id)
  {
  }

  // ---------------------------------------------------------------- what is owed

  ghost function Dues(st: Stream): int -> int {
    k => Due(st, k)
  }

  /** Everything a stream's options are entitled to. */
  ghost function Owed(st: Stream): int {
    Sums.Sum(st.options.Keys, Dues(st))
  }

  /** Coins beyond the residue and every entitlement. */
  ghost function Surplus(l: Ledger): int {
    l.held - l.residue - Owed(l.caretaker) - Owed(l.groundworks)
  }

  lemma {:induction false} SumsClose(keys: set<int>, f: int -> int, g: int -> int, u: int -> int, v: int -> int)
    requires forall k | k in keys :: -PRECISION < PRECISION * (g(k) - f(k)) - (v(k) - u(k)) < PRECISION
    ensures var x := PRECISION * (Sums.Sum(keys, g) - Sums.Sum(keys, f)) - (Sums.Sum(keys, v) - Sums.Sum(keys, u));
      -PRECISION * |keys| <= x <= PRECISION * |keys| && (keys != {} ==> -PRECISION * |keys| < x < PRECISION * |keys|)
    decreases |keys|
  {
    if keys != {} {
      var k := Orders.Any(keys);
      Sums.Pick(keys, k, f);
      Sums.Pick(keys, k, g);
      Sums.Pick(keys, k, u);
      Sums.Pick(keys, k, v);
      SumsClose(keys - {k}, f, g, u, v);
    }
  }

  /** One option's entitlement and its claim on the index move together. */
  lemma DueFollowsClaim(st: Stream, delta: int, k: int)
    requires k in st.options && OptionOk(st.options[k], st.index) && delta >= 0
    ensures var m := st.(index := st.index + delta);
      -PRECISION < PRECISION * (Dues(m)(k) - Dues(st)(k))
        - (Claims(st.options, st.index + delta)(k) - Claims(st.options, st.index)(k)) < PRECISION
  {
    hide Due;
    var o := st.options[k];
    DueMoves(st, st.index + delta, k);
    Sums.Distribute(o.amount, st.index - o.lastIndex, delta);
    assert st.index + delta - o.lastIndex == (st.index - o.lastIndex) + delta;
  }

  lemma OwedMoves(st: Stream, delta: int)
    requires StreamBooks(st) && delta >= 0
    ensures var x := PRECISION * (Owed(st.(index := st.index + delta)) - Owed(st)) - delta * Weight(st.options);
      -PRECISION * |st.options| <= x <= PRECISION * |st.options|
  {
    hide Weight, Unsettled, Dues, Claims;
    var m := st.(index := st.index + delta);
    var keys := st.options.Keys;
    forall k | k in keys ensures
      -PRECISION < PRECISION * (Dues(m)(k) - Dues(st)(k))
        - (Claims(st.options, st.index + delta)(k) - Claims(st.options, st.index)(k)) < PRECISION
    {
      DueFollowsClaim(st, delta, k);
    }
    SumsClose(keys, Dues(st), Dues(m), Claims(st.options, st.index), Claims(st.options, st.index + delta));
    IndexMoves(st.options, st.index, delta);
    UnsettledIs(st.options, st.index);
    UnsettledIs(st.options, st.index + delta);
    SizeOf(st.options);
  }

  lemma UnsettledIs(options: map<int, AllocationOption>, index: int)
    ensures Unsettled(options, index) == Sums.Sum(options.Keys, Claims(options, index))
  {
  }

  lemma {:induction false} SizeOf(options: map<int, AllocationOption>)
    ensures |options.Keys| == |options|
  {
  }

  /** A settlement changes the surplus by rounding alone: fewer units than there are options. */
  lemma SettleSurplus(l: Ledger, s: StreamId, now: int)
    requires Books(l) && l.At(s).total == Weight(l.At(s).options)
    ensures var x := Surplus(SettleTo(l, s, now)) - Surplus(l);
      if Minted(l, s, now) then -|l.At(s).options| <= x <= |l.At(s).options| else x == 0
  {
    hide SettleTo, Owed, Weight, CountedLeases, Schedule, Idle;
    var st, m := l.At(s), SettleTo(l, s, now);
    SettleToFrame(l, s, now);
    assert m.At(Other(s)) == l.At(Other(s)) && StreamBooks(st);
    if Minted(l, s, now) {
      var reward := Reward(st.lastUpkeep, now);
      var delta := reward * PRECISION / st.total;
      var collectable := CeilQuo(delta * st.total, PRECISION);
      Reserve(reward, st.total, delta, collectable);
      MintingFrame(l, s, now, reward, delta, collectable);
      OwedMoves(st, delta);
      OwedSame(st.(index := st.index + delta), m.At(s));
    } else {
      QuietFrame(l, s, now);
      OwedSame(st, m.At(s));
    }
  }

  lemma OwedSame(a: Stream, b: Stream)
    requires a.options == b.options && a.index == b.index
    ensures Owed(a) == Owed(b)
  {
    Sums.Same(a.options.Keys, Dues(a), Dues(b));
  }

  // ---------------------------------------------------------------- the relation of every call

  predicate SameFace(a: AllocationOption, b: AllocationOption) {
    a.kind == b.kind && a.recipient == b.recipient && a.claimer == b.claimer
  }

  /** Every option is still there under its own name, and entitled to no less unless paid. */
  ghost predicate Earns(l: Ledger, m: Ledger, paid: set<(StreamId, int)>) {
    forall s, id | id in l.At(s).options ::
      && id in m.At(s).options && SameFace(l.At(s).options[id], m.At(s).options[id])
      && ((s, id) !in paid ==> Due(m.At(s), id) >= Due(l.At(s), id))
  }

  function Rounds(l: Ledger): nat {
    Settles(l.history, Caretaker) + Settles(l.history, Groundworks)
  }

  /** The number of options ever issued. */
  function Slots(l: Ledger): nat {
    l.caretaker.seqNo + l.groundworks.seqNo
  }

  /** Coins, residue and entitlements move together, up to one unit an option and settlement. */
  ghost predicate Balances(l: Ledger, m: Ledger) {
    && Rounds(l) <= Rounds(m) && Slots(l) <= Slots(m)
    && -(Rounds(m) - Rounds(l)) * Slots(m) <= Surplus(m) - Surplus(l) <= (Rounds(m) - Rounds(l)) * Slots(m)
  }

  ghost predicate Fair(l: Ledger, m: Ledger, paid: set<(StreamId, int)>) {
    Earns(l, m, paid) && Balances(l, m)
  }

  lemma BalancesThen(l: Ledger, m: Ledger, n: Ledger)
    requires Balances(l, m) && Balances(m, n)
    ensures Balances(l, n)
  {
    hide Surplus, Rounds, Slots;
    var a, b := Rounds(m) - Rounds(l), Rounds(n) - Rounds(m);
    Monotone(a, Slots(m), Slots(n));
    Sums.Distribute(Slots(n), a, b);
    assert (a + b) * Slots(n) == a * Slots(n) + b * Slots(n);
  }

  lemma FairThen(l: Ledger, m: Ledger, n: Ledger, p: set<(StreamId, int)>, q: set<(StreamId, int)>)
    requires Fair(l, m, p) && Fair(m, n, q)
    ensures Fair(l, n, p + q)
  {
    hide Balances, Due;
    BalancesThen(l, m, n);
  }

  /** Two steps that pay nobody. */
  lemma FreeThen(l: Ledger, m: Ledger, n: Ledger)
    requires Fair(l, m, {}) && Fair(m, n, {})
    ensures Fair(l, n, {})
  {
    hide Fair;
    var none: set<(StreamId, int)> := {};
    FairThen(l, m, n, none, none);
    assert none + none == none;
  }

  /** Nothing an entitlement depends on was touched. */
  lemma FairStill(l: Ledger, m: Ledger)
    requires forall s :: m.At(s).options == l.At(s).options && m.At(s).index == l.At(s).index
                         && m.At(s).seqNo == l.At(s).seqNo
    requires m.held - m.residue == l.held - l.residue && m.history == l.history
    ensures Fair(l, m, {})
  {
    hide Owed;
    assert l.caretaker == l.At(Caretaker) && l.groundworks == l.At(Groundworks);
    assert m.caretaker == m.At(Caretaker) && m.groundworks == m.At(Groundworks);
    OwedSame(l.caretaker, m.caretaker);
    OwedSame(l.groundworks, m.groundworks);
    forall s, id ensures Due(m.At(s), id) == Due(l.At(s), id) {
      DueSame(l.At(s), m.At(s), id);
    }
  }

  // ---------------------------------------------------------------- the writers

  lemma SettlesAppended(h: seq<Event>, e: Event, s: StreamId)
    ensures Settles(h + [e], s) == Settles(h, s) + if e.Settled? && e.stream == s then 1 else 0
  {
    assert (h + [e])[..|h|] == h;
  }

  /** Writing one option changes its own entitlement and what is owed by as much. */
  lemma WriteOwed(l: Ledger, m: Ledger, s: StreamId, id: int, o: AllocationOption)
    requires OptionWritten(l, m, s, id, o)
    ensures Owed(m.At(s)) == Owed(l.At(s)) + SettleOption(o, l.At(s).index).accrued - Due(l.At(s), id)
    ensures Due(m.At(s), id) == SettleOption(o, l.At(s).index).accrued
    ensures forall j | j != id :: Due(m.At(s), j) == Due(l.At(s), j)
  {
    var a, b := l.At(s), m.At(s);
    forall j | j != id ensures Due(b, j) == Due(a, j) {
      assert j in a.options ==> b.options[j] == a.options[j];
    }
    assert b.options.Keys == a.options.Keys + {id};
    Sums.Write(a.options.Keys, id, Dues(a), Dues(b));
  }

  lemma WrittenRounds(l: Ledger, s: StreamId, id: int, o: AllocationOption, now: nat)
    ensures Rounds(SetOption(l, s, id, o, now)) == Rounds(l) && Slots(SetOption(l, s, id, o, now)) == Slots(l)
  {
    hide SetOption, Settles;
    SetOptionFrame(l, s, id, o, now);
    var e := Wrote(Seconds(now), s, id, o);
    SettlesAppended(l.history, e, Caretaker);
    SettlesAppended(l.history, e, Groundworks);
  }

  lemma WrittenEarns(l: Ledger, m: Ledger, s: StreamId, id: int, o: AllocationOption, paid: set<(StreamId, int)>)
    requires OptionWritten(l, m, s, id, o)
    requires id in l.At(s).options ==> SameFace(l.At(s).options[id], o)
    requires id in l.At(s).options && (s, id) !in paid ==> SettleOption(o, l.At(s).index).accrued >= Due(l.At(s), id)
    ensures Earns(l, m, paid)
  {
    hide Owed, SettleOption;
    WriteOwed(l, m, s, id, o);
    forall s', j | j in l.At(s').options ensures
      && j in m.At(s').options && SameFace(l.At(s').options[j], m.At(s').options[j])
      && ((s', j) !in paid ==> Due(m.At(s'), j) >= Due(l.At(s'), j))
    {
      assert s' == s || s' == Other(s);
    }
  }

  /** Taking d of an option's entitlement and moving d coins out pays it, and balances. */
  lemma PayingWrite(l: Ledger, s: StreamId, id: int, o: AllocationOption, d: int, now: nat)
    requires id in l.At(s).options && SameFace(l.At(s).options[id], o)
    requires SettleOption(o, l.At(s).index).accrued == Due(l.At(s), id) - d
    ensures Fair(l, SetOption(l, s, id, o, now).(held := l.held - d), if d <= 0 then {} else {(s, id)})
  {
    hide SetOption, Owed, SettleOption, Rounds, Slots;
    var m := SetOption(l, s, id, o, now);
    SetOptionFrame(l, s, id, o, now);
    WriteOwed(l, m, s, id, o);
    WrittenRounds(l, s, id, o, now);
    var n := m.(held := l.held - d);
    assert OptionWritten(l, n.(held := l.held), s, id, o) && n.At(s) == m.At(s);
    WrittenEarns(l, m, s, id, o, if d <= 0 then {} else {(s, id)});
    EarnsHeld(l, m, l.held - d, if d <= 0 then {} else {(s, id)});
    RoundsHeld(m, l.held - d);
    assert l.At(Other(s)) == m.At(Other(s));
  }

  lemma EarnsHeld(l: Ledger, m: Ledger, held: int, paid: set<(StreamId, int)>)
    requires Earns(l, m, paid)
    ensures Earns(l, m.(held := held), paid)
  {
    hide Due;
    forall s ensures m.(held := held).At(s) == m.At(s) {
    }
  }

  lemma RoundsHeld(m: Ledger, held: int)
    ensures Rounds(m.(held := held)) == Rounds(m) && Slots(m.(held := held)) == Slots(m)
  {
  }

  /** A write that leaves the entitlement as it was. */
  lemma LevelWrite(l: Ledger, s: StreamId, id: int, o: AllocationOption, now: nat)
    requires id in l.At(s).options && SameFace(l.At(s).options[id], o)
    requires SettleOption(o, l.At(s).index).accrued == Due(l.At(s), id)
    ensures Fair(l, SetOption(l, s, id, o, now), {})
  {
    hide SetOption, Fair, SettleOption;
    PayingWrite(l, s, id, o, 0, now);
    SetOptionFrame(l, s, id, o, now);
    assert SetOption(l, s, id, o, now).(held := l.held - 0) == SetOption(l, s, id, o, now);
  }

  /** An option settled and then given any weight and balance is entitled to that balance. */
  lemma SettledDue(o: AllocationOption, index: int, amount: int, accrued: int)
    ensures var n := SettleOption(o, index).(amount := amount, accrued := accrued);
      SettleOption(n, index).accrued == accrued && SameFace(o, n)
  {
    assert amount * (index - index) == 0;
  }

  lemma SettleIndex(l: Ledger, s: StreamId, now: int)
    ensures SettleTo(l, s, now).At(s).index >= l.At(s).index
  {
    hide CountedLeases;
    var st := l.At(s);
    if Minted(l, s, now) {
      DivideNonNegative(Reward(st.lastUpkeep, now) * PRECISION, st.total);
    }
  }

  lemma {:induction false} Below(keys: set<int>, n: nat)
    requires forall k | k in keys :: 1 <= k <= n
    ensures |keys| <= n
    decreases n
  {
    if n == 0 {
      assert forall k :: k !in keys;
    } else {
      Below(keys - {n}, n - 1);
    }
  }

  lemma OptionsWithin(st: Stream)
    requires StreamBooks(st)
    ensures |st.options| <= st.seqNo
  {
    Below(st.options.Keys, st.seqNo);
    SizeOf(st.options);
  }

  lemma SettleEarns(l: Ledger, s: StreamId, now: int)
    requires StreamBooks(l.At(s))
    ensures Earns(l, SettleTo(l, s, now), {})
  {
    hide SettleTo, StreamBooks, CountedLeases, Due, OptionOk;
    var st, m := l.At(s), SettleTo(l, s, now);
    SettleToFrame(l, s, now);
    SettleIndex(l, s, now);
    forall s', id | id in l.At(s').options ensures Due(m.At(s'), id) >= Due(l.At(s'), id) {
      assert s' == s || s' == Other(s);
      if s' == s {
        StreamOptionOk(st, id);
        DueMoves(st, m.At(s).index, id);
        DueSame(st.(index := m.At(s).index), m.At(s), id);
      }
    }
  }

  lemma SettleRounds(l: Ledger, s: StreamId, now: int)
    ensures Rounds(SettleTo(l, s, now)) == Rounds(l) + if Minted(l, s, now) then 1 else 0
    ensures Slots(SettleTo(l, s, now)) == Slots(l)
  {
    hide SettleTo, Settles, CountedLeases;
    var st := l.At(s);
    SettleToFrame(l, s, now);
    AllocationOnward.Moved(l, s, now);
    if 0 != st.lastUpkeep < now {
      SettlesAppended(l.history, Passing(st, s, now), Caretaker);
      SettlesAppended(l.history, Passing(st, s, now), Groundworks);
    }
  }

  lemma SettleFair(l: Ledger, s: StreamId, now: int)
    requires Inv(l)
    ensures Fair(l, SettleTo(l, s, now), {})
  {
    hide SettleTo, Books, Slack, Votes, LeasesRespected, Surplus, Rounds, Earns, StreamBooks;
    SplitInv(l);
    var st := l.At(s);
    assert Votes(st);
    TotalIsWeight(l, s);
    SettleSurplus(l, s, now);
    OptionsWithin(st);
    SettleEarns(l, s, now);
    SettleRounds(l, s, now);
    var m := SettleTo(l, s, now);
    OneRound(Rounds(m) - Rounds(l), Slots(m), Surplus(m) - Surplus(l));
  }

  lemma OneRound(r: int, slots: int, x: int)
    requires (r == 0 && x == 0) || (r == 1 && -slots <= x <= slots)
    ensures -r * slots <= x <= r * slots
  {
  }
}
