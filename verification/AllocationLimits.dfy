/** Where the ledger's guarantees end, and how closely it pays what it promises. */
module AllocationLimits {
  import opened AllocationTypes
  import opened AllocationLedger
  import opened AllocationBooks
  import opened AllocationSettle
  import opened AllocationVotes
  import opened AllocationOps
  import opened AllocationBlocks
  import opened AllocationRun
  import Sums

  // ---------------------------------------------------------------- weighing an unissued option

  function AppendMany(l: Ledger, s: StreamId, n: nat, now: nat): Ledger {
    if n == 0 then l else AppendOption(AppendMany(l, s, n - 1, now), s, Address, "", "", now)
  }

  lemma AppendFrame(l: Ledger, s: StreamId, now: nat)
    ensures var m := AppendOption(l, s, Address, "", "", now);
      && m.At(s).seqNo == l.At(s).seqNo + 1 && m.At(s).voters == l.At(s).voters && m.At(s).epoch == l.At(s).epoch
      && m.At(s).options ==
        l.At(s).options[l.At(s).seqNo + 1 := AllocationOption(Address, "", "", 0, 0, l.At(s).index, false)]
  {
    hide SetOption;
    var st := l.At(s);
    var o := AllocationOption(Address, "", "", 0, 0, st.index, false);
    SetOptionFrame(l.With(s, st.(seqNo := st.seqNo + 1)), s, st.seqNo + 1, o, now);
  }

  lemma {:induction false} AppendManyFrame(l: Ledger, s: StreamId, n: nat, now: nat)
    ensures var m := AppendMany(l, s, n, now);
      m.At(s).seqNo == l.At(s).seqNo + n && m.At(s).voters == l.At(s).voters && m.At(s).epoch == l.At(s).epoch
  {
    hide AppendOption;
    if n > 0 {
      AppendManyFrame(l, s, n - 1, now);
      AppendFrame(AppendMany(l, s, n - 1, now), s, now);
    }
  }

  lemma {:induction false} AppendManyInv(l: Ledger, s: StreamId, n: nat, now: nat)
    requires Inv(l)
    ensures Inv(AppendMany(l, s, n, now))
  {
    hide Inv, AppendOption;
    if n > 0 {
      AppendManyInv(l, s, n - 1, now);
      AppendOptionInv(AppendMany(l, s, n - 1, now), s, Address, "", "", now);
    }
  }

  lemma PositivePart(ws: seq<Contribution>, c: Contribution)
    requires NonNegative(ws) && c in ws
    ensures ContributionTo(ws, c.option) >= c.amount
  {
    var i :| 0 <= i < |ws| && ws[i] == c;
    PrefixHas(ws, i + 1, c);
  }

  lemma {:induction false} PrefixHas(ws: seq<Contribution>, n: nat, c: Contribution)
    requires NonNegative(ws) && 0 < n <= |ws| && ws[n - 1] == c
    ensures ContributionTo(ws, c.option) >= c.amount
    decreases |ws|
  {
    var front := ws[..|ws| - 1];
    if n == |ws| {
      ContributionToNonNegative(front, c.option);
    } else {
      PrefixHas(front, n, c);
      assert ws[|ws| - 1] in ws;
    }
  }

  lemma FiledWeighted(l: Ledger, s: StreamId, key: VoterKey, ws: seq<Contribution>, now: nat)
    requires ws != []
    ensures var m := WriteWeightedVoter(l, s, key, ws, now).At(s);
      && key in m.voters && m.voters[key].optionWeights == ws && m.voters[key].epoch == m.epoch == l.At(s).epoch
      && m.seqNo == l.At(s).seqNo && m.voters == l.At(s).voters[key := m.voters[key]]
  {
    hide AddContributions, LiveSum, Negated;
    var st := l.At(s);
    var l1 := l.With(s, st.(lapses := Unqueued(st, key)));
    var off := Negated(Previous(st, key));
    AddContributionsFrame(l1, s, off, now);
    AddContributionsFrame(AddContributions(l1, s, off, now), s, ws, now);
  }

  lemma FiledSupport(voters: map<VoterKey, Voter>, epoch: nat, key: VoterKey, id: int)
    requires key in voters && voters[key].epoch == epoch
    requires forall k | k in voters :: NonNegative(Contributions(voters[k]))
    ensures Support(voters, epoch, id) >= ContributionTo(Contributions(voters[key]), id)
  {
    forall k | k in voters.Keys ensures SupportTerms(voters, epoch, id)(k) >= 0 {
      ContributionToNonNegative(Contributions(voters[k]), id);
    }
    Sums.TermBound(voters.Keys, key, SupportTerms(voters, epoch, id));
  }

  /** Once the option a voter weighed too early is issued, its weight and its support
      disagree. */
  lemma UnissuedBreaks(l: Ledger, s: StreamId, key: VoterKey, ws: seq<Contribution>, c: Contribution, now: nat)
    requires Inv(l) && NonNegative(ws) && c in ws && c.amount > 0 && c.option > l.At(s).seqNo
    ensures !Supported(AppendMany(WriteWeightedVoter(l, s, key, ws, now), s, c.option - l.At(s).seqNo, now).At(s))
  {
    hide WriteWeightedVoter, AppendOption, Support, ContributionTo;
    var m := WriteWeightedVoter(l, s, key, ws, now);
    FiledWeighted(l, s, key, ws, now);
    var n := c.option - l.At(s).seqNo;
    var before := AppendMany(m, s, n - 1, now);
    AppendManyFrame(m, s, n - 1, now);
    AppendFrame(before, s, now);
    var st := AppendOption(before, s, Address, "", "", now).At(s);
    assert AppendMany(m, s, n, now).At(s) == st;
    assert Votes(l.At(s));
    FiledSupport(st.voters, st.epoch, key, c.option);
    PositivePart(ws, c);
    assert Live(st.options, c.option) && st.options[c.option].amount == 0;
  }

  /** A weighted voter leaves every later state's weights supported if and only if each
      option it puts weight on has been issued. */
  lemma WeightedVoterExact(l: Ledger, s: StreamId, key: VoterKey, ws: seq<Contribution>, now: nat)
    requires Inv(l) && NonNegative(ws)
    ensures (forall n: nat ::
      Supported(AppendMany(SetWeightedVoterSettled(l, s, key, ws, now).ledger, s, n, now).At(s)))
            <==> Issued(Positive(ws), l.At(s).seqNo)
  {
    hide WriteWeightedVoter, AppendMany, Supported, Inv, Positive;
    var ps := Positive(ws);
    var m := WriteWeightedVoter(l, s, key, ps, now);
    if Issued(ps, l.At(s).seqNo) {
      WriteWeightedInv(l, s, key, ps, now);
      forall n: nat ensures Supported(AppendMany(m, s, n, now).At(s)) {
        AppendManyInv(m, s, n, now);
        InvSupported(AppendMany(m, s, n, now), s);
      }
    } else {
      var c :| c in ps && c.option > l.At(s).seqNo;
      UnissuedBreaks(l, s, key, ps, c, now);
      var n: nat := c.option - l.At(s).seqNo;
      assert SetWeightedVoterSettled(l, s, key, ws, now).ledger == m;
      assert !Supported(AppendMany(SetWeightedVoterSettled(l, s, key, ws, now).ledger, s, n, now).At(s));
    }
  }

  /** The same over every run: after a weighted voter is filed, each live option carries its
      voters' weight in every state of every admissible run if and only if each option it
      puts weight on has been issued. */
  lemma WeightedVoterRuns(l: Ledger, s: StreamId, key: VoterKey, ws: seq<Contribution>, now: nat)
    requires Inv(l) && NonNegative(ws)
    ensures var m := SetWeightedVoterSettled(l, s, key, ws, now).ledger;
      (forall calls, n: nat | n <= |calls| && AdmissibleRun(m, calls) :: Supported(After(m, calls, n).At(s)))
      <==> Issued(Positive(ws), l.At(s).seqNo)
  {
    hide Inv, Supported, Positive, After, AdmissibleRun, WriteWeightedVoter, AppendMany;
    var m := SetWeightedVoterSettled(l, s, key, ws, now).ledger;
    if Issued(Positive(ws), l.At(s).seqNo) {
      SetWeightedVoterInv(l, s, key, ws, now);
      forall calls, n: nat | n <= |calls| && AdmissibleRun(m, calls) ensures Supported(After(m, calls, n).At(s)) {
        RunInv(m, calls, n);
        InvSupported(After(m, calls, n), s);
      }
    } else {
      WeightedVoterExact(l, s, key, ws, now);
      var n: nat :| !Supported(AppendMany(m, s, n, now).At(s));
      var calls := Additions(s, n, now);
      AppendManyRuns(m, s, n, n, now);
      assert n <= |calls| && AdmissibleRun(m, calls) && !Supported(After(m, calls, n).At(s));
    }
  }

  /** n calls that each add an option. */
  function Additions(s: StreamId, n: nat, now: nat): seq<(Op, nat)> {
    seq(n, _ => (AddOption(s, Address, "", ""), now))
  }

  lemma {:induction false} AppendManyRuns(l: Ledger, s: StreamId, n: nat, k: nat, now: nat)
    requires k <= n
    ensures After(l, Additions(s, n, now), k) == AppendMany(l, s, k, now) && AdmissibleRun(l, Additions(s, n, now))
  {
    hide AppendOption;
    if k > 0 {
      AppendManyRuns(l, s, n, k - 1, now);
    }
  }

  lemma InvSupported(l: Ledger, s: StreamId)
    requires Inv(l)
    ensures Supported(l.At(s))
  {
    assert Votes(l.At(s));
  }

  /** The smallest such run: weigh option 1 before it exists, add it, withdraw the vote.
      The total is clamped to zero, the sum goes negative, and the chain halts. */
  lemma UnissuedHalts(now: nat)
    ensures var l0 := Ledger(EMPTY_STREAM, EMPTY_STREAM, 0, 0, {}, 0, []);
      var l1 := SetWeightedVoterSettled(l0, Groundworks, 7, [Contribution(1, 5)], now).ledger;
      var l2 := AppendOption(l1, Groundworks, Address, "", "", now);
      var l3 := SetWeightedVoterSettled(l2, Groundworks, 7, [], now);
      l3.Done? && l3.ledger.groundworks.total == 0 && l3.ledger.groundworks.summed == -5 && Halts(l3.ledger)
  {
    hide SetOption, AppendOption, AddContributions, WriteWeightedVoter;
    var l0 := Ledger(EMPTY_STREAM, EMPTY_STREAM, 0, 0, {}, 0, []);
    var ws := [Contribution(1, 5)];
    assert ws[..0] == [] && Positive(ws) == ws;
    var l1 := SetWeightedVoterSettled(l0, Groundworks, 7, ws, now).ledger;
    FiledEarly(l0, ws, now);
    var l2 := AppendOption(l1, Groundworks, Address, "", "", now);
    AppendFrame(l1, Groundworks, now);
    AppendSummed(l1, now);
    TakenOff(l2, ws, now);
  }

  /** Weight on an option that does not exist is stored and counted nowhere. */
  lemma FiledEarly(l: Ledger, ws: seq<Contribution>, now: nat)
    requires ws == [Contribution(1, 5)] && l.groundworks == EMPTY_STREAM
    ensures var m := WriteWeightedVoter(l, Groundworks, 7, ws, now).groundworks;
      && 7 in m.voters && m.voters[7].optionWeights == ws && m.voters[7].epoch == m.epoch
      && m.options == map[] && m.total == 0 && m.summed == 0 && m.seqNo == 0
  {
    assert Negated([]) == [] && ws[..0] == [];
    assert AddContributions(l, Groundworks, [], now) == l;
    assert AddContributions(l, Groundworks, ws, now) == l;
    assert LiveSum(map[], ws) == 0;
  }

  lemma AppendSummed(l: Ledger, now: nat)
    requires l.groundworks.options == map[]
    ensures var m := AppendOption(l, Groundworks, Address, "", "", now).groundworks;
      m.summed == l.groundworks.summed && m.total == l.groundworks.total
  {
    hide SetOption;
    var st := l.groundworks;
    SetOptionFrame(l.With(Groundworks, st.(seqNo := st.seqNo + 1)), Groundworks, st.seqNo + 1,
                   AllocationOption(Address, "", "", 0, 0, st.index, false), now);
  }

  lemma TakenOff(l: Ledger, ws: seq<Contribution>, now: nat)
    requires ws == [Contribution(1, 5)] && Live(l.groundworks.options, 1) && 7 in l.groundworks.voters
    requires l.groundworks.voters[7].optionWeights == ws && l.groundworks.voters[7].epoch == l.groundworks.epoch
    ensures var m := WriteWeightedVoter(l, Groundworks, 7, [], now).groundworks;
      m.summed == l.groundworks.summed - 5 && m.total == Clamped(l.groundworks.total - 5)
  {
    hide AddContributions;
    var st := l.groundworks;
    var off := Negated(ws);
    assert off == [Contribution(1, -5)] && off[..0] == [];
    var l1 := l.With(Groundworks, st.(lapses := Unqueued(st, 7)));
    AddContributionsFrame(l1, Groundworks, off, now);
    AddContributionsFrame(AddContributions(l1, Groundworks, off, now), Groundworks, [], now);
    assert LiveSum(st.options, off) == -5 && LiveSum(st.options, []) == 0;
  }

  // ---------------------------------------------------------------- emission

  predicate Nondecreasing(times: seq<int>) {
    forall i, j | 0 <= i < j < |times| :: times[i] <= times[j]
  }

  /** The emission minted by settling at each of a list of times in turn. */
  function MintedOver(times: seq<int>): int
    requires Nondecreasing(times)
  {
    if |times| < 2 then 0 else MintedOver(times[..|times| - 1]) + Reward(times[|times| - 2], times[|times| - 1])
  }

  /** A stream emits one coin of a million units a second. */
  lemma EmissionRate(from: int, seconds: nat)
    ensures Reward(from, from + seconds * 1_000_000_000) == seconds * 1_000_000
  {
    assert EMISSION_PER_SECOND * (seconds * 1_000_000_000) == NANOS_PER_SECOND * (seconds * 1_000_000);
  }

  /** n settlements over an interval mint the emission of the whole interval, short by
      less than n units and never over. */
  lemma {:induction false} EmissionBounds(times: seq<int>)
    requires |times| >= 1 && Nondecreasing(times)
    ensures var due := EMISSION_PER_SECOND * (times[|times| - 1] - times[0]); var n := |times| - 1;
      && NANOS_PER_SECOND * MintedOver(times) <= due
      && (n > 0 ==> due < NANOS_PER_SECOND * (MintedOver(times) + n))
  {
    if |times| > 1 {
      EmissionBounds(times[..|times| - 1]);
    }
  }

  /** Settling a stream at each of the times in turn. */
  function SettleAll(l: Ledger, s: StreamId, times: seq<int>): Ledger {
    if times == [] then l else SettleTo(SettleAll(l, s, times[..|times| - 1]), s, times[|times| - 1])
  }

  lemma SettleMints(l: Ledger, s: StreamId, now: int)
    requires 0 < l.At(s).lastUpkeep <= now && l.At(s).total > 0
    ensures SettleTo(l, s, now).held == l.held + Reward(l.At(s).lastUpkeep, now)
    ensures SettleTo(l, s, now).At(s).lastUpkeep == now && SettleTo(l, s, now).At(s).total == l.At(s).total
  {
  }

  /** A stream with weight mints exactly MintedOver its settlement times. */
  lemma {:induction false} SettleAllMints(l: Ledger, s: StreamId, times: seq<int>)
    requires l.At(s).total > 0 && l.At(s).lastUpkeep > 0 && Nondecreasing([l.At(s).lastUpkeep] + times)
    ensures var m := SettleAll(l, s, times); var all := [l.At(s).lastUpkeep] + times;
      && m.held == l.held + MintedOver(all)
      && m.At(s).total == l.At(s).total
      && m.At(s).lastUpkeep == all[|times|]
  {
    hide SettleTo, Reward;
    var all := [l.At(s).lastUpkeep] + times;
    if times != [] {
      var front := times[..|times| - 1];
      assert all[..|all| - 1] == [l.At(s).lastUpkeep] + front;
      SettleAllMints(l, s, front);
      assert all[0] <= all[|all| - 2] <= all[|all| - 1];
      SettleMints(SettleAll(l, s, front), s, times[|times| - 1]);
    }
  }

  // ---------------------------------------------------------------- laziness

  /** Settling an option at each of a list of index values in turn. */
  function SettleEach(o: AllocationOption, indexes: seq<int>): AllocationOption {
    if indexes == [] then o else SettleOption(SettleEach(o, indexes[..|indexes| - 1]), indexes[|indexes| - 1])
  }

  lemma {:induction false} EachFrame(o: AllocationOption, indexes: seq<int>)
    ensures var e := SettleEach(o, indexes);
      && e.amount == o.amount && e.lastIndex == (if indexes == [] then o.lastIndex else indexes[|indexes| - 1])
  {
    if indexes != [] {
      EachFrame(o, indexes[..|indexes| - 1]);
    }
  }

  lemma FloorsAdd(a: int, b: int, p: int)
    requires a >= 0 && b >= 0 && p > 0
    ensures a / p + b / p <= (a + b) / p <= a / p + b / p + 1
  {
    var q, r := a / p, a % p;
    var q', r' := b / p, b % p;
    assert a + b == p * (q + q') + (r + r');
    DivideShift(q + q', r + r', p);
  }

  lemma DivideShift(q: int, r: int, p: int)
    requires p > 0 && 0 <= r < 2 * p
    ensures q <= (p * q + r) / p <= q + 1
  {
    var n := (p * q + r) / p;
    ScaledBounds(p * q + r, p);
    assert p * (n + 1) == p * n + p && p * (q + 2) == p * q + 2 * p;
    CancelLess(p, q, n + 1);
    CancelLess(p, n, q + 2);
  }

  lemma CancelLess(p: int, x: int, y: int)
    requires p > 0 && p * x < p * y
    ensures x < y
  {
  }

  lemma ScaledBounds(a: int, p: int)
    requires p > 0
    ensures p * (a / p) <= a < p * (a / p) + p
  {
  }

  lemma SettledAccrued(o: AllocationOption, index: int)
    requires o.amount >= 0 && o.lastIndex <= index
    ensures o.amount * (index - o.lastIndex) >= 0
    ensures SettleOption(o, index).accrued == o.accrued + o.amount * (index - o.lastIndex) / PRECISION
  {
    ProductNonNegative(o.amount, index - o.lastIndex);
  }

  /** Settling once over k advances collects at least what settling at each would, and
      at most k - 1 units more. */
  lemma {:induction false} LazyCollects(o: AllocationOption, indexes: seq<int>)
    requires indexes != [] && o.amount >= 0 && Nondecreasing([o.lastIndex] + indexes)
    ensures var eager := SettleEach(o, indexes).accrued; var lazy := SettleOption(o, indexes[|indexes| - 1]).accrued;
      eager <= lazy <= eager + |indexes| - 1
  {
    hide SettleOption;
    var all := [o.lastIndex] + indexes;
    var last := indexes[|indexes| - 1];
    var front := indexes[..|indexes| - 1];
    assert all[0] <= all[|all| - 1];
    SettledAccrued(o, last);
    if front != [] {
      assert all[..|all| - 1] == [o.lastIndex] + front;
      LazyCollects(o, front);
      EachFrame(o, front);
      var mid := front[|front| - 1];
      assert mid == all[|all| - 2] && last == all[|all| - 1] && all[0] <= mid <= last;
      SettledAccrued(o, mid);
      SettledAccrued(SettleEach(o, front), last);
      Sums.Distribute(o.amount, mid - o.lastIndex, last - mid);
      FloorsAdd(o.amount * (mid - o.lastIndex), o.amount * (last - mid), PRECISION);
    } else {
      assert SettleEach(o, front) == o;
    }
  }
}
