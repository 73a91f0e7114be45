/** The allocation keeper: the module's collections, updated in place. */
module AllocationKeeper {
  import opened AllocationTypes
  import opened AllocationLedger
  import opened AllocationBooks
  import opened AllocationSettle
  import opened AllocationVotes
  import opened AllocationOps
  import opened AllocationPayments
  import opened AllocationBlocks
  import Orders
  import Sums

  /** The stored totals against what they should equal. */
  datatype SolvencyReport = SolvencyReport(accrued: int, residue: int, held: int, short: int, surplus: int)

  /** The positive weights of a list and their sum; refused on a negative one and, when
      asked, on a repeated option. */
  method CollectWeights(weights: seq<Contribution>, distinct: bool) returns (ok: bool, ws: seq<Contribution>, sum: int)
    ensures ok <==> NonNegative(weights) && (distinct ==> DistinctOptions(weights))
    ensures ok ==> ws == Positive(weights) && sum == Total(ws)
  {
    hide Total;
    ok := true;
    var seen: set<int> := {};
    for i := 0 to |weights|
      invariant forall j | 0 <= j < i :: weights[j].amount >= 0 && weights[j].option in seen
      invariant forall x | x in seen :: exists j | 0 <= j < i :: weights[j].option == x
      invariant distinct ==> forall j, k | 0 <= j < k < i :: weights[j].option != weights[k].option
    {
      if weights[i].amount < 0 || (distinct && weights[i].option in seen) {
        assert weights[i] in weights;
        return false, [], 0;
      }
      seen := seen + {weights[i].option};
    }
    ws, sum := SumPositive(weights);
  }

  method SumPositive(weights: seq<Contribution>) returns (ws: seq<Contribution>, sum: int)
    ensures ws == Positive(weights) && sum == Total(ws)
  {
    ws, sum := [], 0;
    for i := 0 to |weights|
      invariant ws == Positive(weights[..i]) && sum == Total(ws)
    {
      assert weights[..i + 1][..i] == weights[..i];
      if weights[i].amount > 0 {
        assert (ws + [weights[i]])[..|ws|] == ws;
        ws, sum := ws + [weights[i]], sum + weights[i].amount;
      }
    }
    assert weights[..|weights|] == weights;
  }

  /** The first entries of the removal schedule due by `now`, at most `limit` of them. */
  method CollectDue(queue: set<(int, StreamId, int)>, now: int, limit: nat) returns (due: seq<(int, StreamId, int)>)
    ensures due == TakeDue(queue, now, limit)
  {
    hide FirstEntry, DueQueue, TakeDue;
    due := [];
    var rest := queue;
    assert [] + TakeDue(queue, now, limit) == TakeDue(queue, now, limit);
    while |due| < limit && DueQueue(rest, now) != {}
      invariant |due| <= limit
      invariant due + TakeDue(rest, now, limit - |due|) == TakeDue(queue, now, limit)
      decreases limit - |due|
    {
      var e := FirstEntry(DueQueue(rest, now));
      TakeDueStep(rest, now, limit - |due|);
      ghost var tail := TakeDue(rest - {e}, now, limit - |due| - 1);
      assert due + ([e] + tail) == (due + [e]) + tail;
      due, rest := due + [e], rest - {e};
    }
    TakeDueEnd(rest, now, limit - |due|);
  }

  method WalkAmounts(options: map<int, AllocationOption>) returns (sum: int)
    ensures sum == Weight(options)
  {
    sum := 0;
    var rest := options.Keys;
    while rest != {}
      invariant rest <= options.Keys
      invariant sum + Sums.Sum(rest, Amounts(options)) == Weight(options)
    {
      var id := Orders.Least(rest);
      Sums.Pick(rest, id, Amounts(options));
      sum, rest := sum + options[id].amount, rest - {id};
    }
  }

  method WalkBalances(options: map<int, AllocationOption>) returns (sum: int)
    ensures sum == Accrued(options)
  {
    sum := 0;
    var rest := options.Keys;
    while rest != {}
      invariant rest <= options.Keys
      invariant sum + Sums.Sum(rest, Accruals(options)) == Accrued(options)
    {
      var id := Orders.Least(rest);
      Sums.Pick(rest, id, Accruals(options));
      sum, rest := sum + options[id].accrued, rest - {id};
    }
  }

  lemma RetireNone(s: StreamId, now: nat)
    ensures forall l :: RetireAll(l, s, [], now) == l
  {
  }

  lemma RetireStep(l: Ledger, s: StreamId, ids: seq<int>, i: nat, now: nat)
    requires i < |ids|
    ensures RetireAll(l, s, ids[..i + 1], now) ==
      AllocationLedger.RetireOption(RetireAll(l, s, ids[..i], now), s, ids[i], now)
  {
    assert ids[..i + 1][..i] == ids[..i];
  }

  /** An interval too short for one unit of emission moves the cursor alone. */
  lemma NoReward(l: Ledger, s: StreamId, now: int)
    requires Minted(l, s, now) && Reward(l.At(s).lastUpkeep, now) <= 0
    ensures var st := l.At(s);
      AllocationLedger.SettleTo(l, s, now) == l.With(s, st.(lastUpkeep := now)).(
        history := l.history + [Settled(s, st.lastUpkeep, now, Reward(st.lastUpkeep, now), CountedLeases(st))])
  {
    hide CountedLeases;
    NoEmission(l.At(s).lastUpkeep, now, l.At(s).total);
  }

  lemma NoEmission(from: int, to: int, total: int)
    requires from <= to && Reward(from, to) <= 0 && total > 0
    ensures Reward(from, to) == 0 && 0 * PRECISION / total == 0 && CeilQuo(0 * total, PRECISION) == 0
  {
  }

  class Keeper {
    var caretaker: Stream
    var groundworks: Stream
    var summedAccrued: int
    var residue: int
    var pruneQueue: set<(int, StreamId, int)>
    var held: int
    ghost var history: seq<Event>

    ghost function View(): Ledger
      reads this
    {
      Ledger(caretaker, groundworks, summedAccrued, residue, pruneQueue, held, history)
    }

    function At(s: StreamId): Stream
      reads this
    {
      if s == Caretaker then caretaker else groundworks
    }

    constructor (l: Ledger)
      ensures View() == l
    {
      caretaker, groundworks := l.caretaker, l.groundworks;
      summedAccrued, residue, pruneQueue, held := l.summedAccrued, l.residue, l.pruneQueue, l.held;
      history := l.history;
    }

    method Put(s: StreamId, st: Stream)
      modifies this`caretaker, this`groundworks
      ensures View() == old(View()).With(s, st)
    {
      if s == Caretaker {
        caretaker := st;
      } else {
        groundworks := st;
      }
    }

    // ------------------------------------------------------------ options

    method RefreshPruneSchedule(s: StreamId, id: int, o: AllocationOption, now: nat)
      modifies this
      ensures View() == AllocationLedger.RefreshPruneSchedule(old(View()), s, id, o, now)
    {
      var st := At(s);
      var scheduled := id in st.pruneDue;
      if Prunable(o) {
        if scheduled {
          return;
        }
        var at := now / NANOS_PER_SECOND + OPTION_IDLE_GRACE;
        Put(s, st.(pruneDue := st.pruneDue[id := at]));
        pruneQueue := pruneQueue + {(at, s, id)};
        return;
      }
      if !scheduled {
        return;
      }
      pruneQueue := pruneQueue - {(st.pruneDue[id], s, id)};
      Put(s, st.(pruneDue := st.pruneDue - {id}));
    }

    method SetOption(s: StreamId, id: int, o: AllocationOption, now: nat)
      modifies this
      ensures View() == AllocationLedger.SetOption(old(View()), s, id, o, now)
    {
      hide AllocationLedger.RefreshPruneSchedule;
      var st := At(s);
      var prev, prevAccrued := 0, 0;
      if id in st.options {
        prev, prevAccrued := st.options[id].amount, st.options[id].accrued;
      }
      if o.amount - prev != 0 {
        st := st.(summed := st.summed + (o.amount - prev));
      }
      if o.accrued - prevAccrued != 0 {
        summedAccrued := summedAccrued + (o.accrued - prevAccrued);
      }
      Put(s, st.(options := st.options[id := o]));
      history := history + [Wrote(Seconds(now), s, id, o)];
      RefreshPruneSchedule(s, id, o, now);
    }

    method AppendOption(s: StreamId, kind: Kind, recipient: string, claimer: string, now: nat) returns (id: int)
      modifies this
      ensures View() == AllocationLedger.AppendOption(old(View()), s, kind, recipient, claimer, now)
      ensures id == old(At(s)).seqNo + 1
      ensures old(Inv(View())) ==> Inv(View())
    {
      hide Inv;
      if Inv(View()) {
        AppendOptionInv(View(), s, kind, recipient, claimer, now);
      }
      id := At(s).seqNo + 1;
      Put(s, At(s).(seqNo := id));
      var o := AllocationOption(kind, recipient, claimer, 0, 0, At(s).index, false);
      SetOption(s, id, o, now);
      if kind == Integrated {
        Put(s, At(s).(integrated := At(s).integrated + {id}));
      }
    }

    // ------------------------------------------------------------ settling

    method MintEmission(reward: int, collectable: int)
      modifies this`held, this`residue
      ensures View() == AllocationLedger.MintEmission(old(View()), reward, collectable)
    {
      held := held + reward;
      var dust := reward - collectable;
      if dust <= 0 {
        return;
      }
      residue := residue + dust;
    }

    method SettleTo(s: StreamId, now: int)
      modifies this
      ensures View() == AllocationLedger.SettleTo(old(View()), s, now)
    {
      var last := At(s).lastUpkeep;
      if last != 0 && now <= last {
        return;
      }
      if last != 0 {
        var total := At(s).total;
        if total > 0 {
          var reward := EMISSION_PER_SECOND * (now - last) / NANOS_PER_SECOND;
          history := history + [Settled(s, last, now, reward, CountedLeases(At(s)))];
          if reward > 0 {
            var delta := reward * PRECISION / total;
            Put(s, At(s).(index := At(s).index + delta));
            MintEmission(reward, CeilQuo(delta * total, PRECISION));
          } else {
            NoReward(old(View()), s, now);
          }
        } else {
          history := history + [Idled(s, last, now)];
        }
      }
      Put(s, At(s).(lastUpkeep := now));
    }

    /** The earliest lease due at or before second t, if any. */
    method NextLapse(s: StreamId, t: int) returns (next: int, found: bool)
      ensures found <==> DueTimes(At(s), t) != {}
      ensures found ==> next == Orders.Least(DueTimes(At(s), t))
    {
      var due := DueTimes(At(s), t);
      found := due != {};
      next := if found then Orders.Least(due) else 0;
    }

    method HeldTarget(s: StreamId, now: nat) returns (at: int)
      ensures at == AllocationLedger.HeldTarget(At(s), now)
    {
      var t, ok := NextLapse(s, now / NANOS_PER_SECOND);
      if !ok {
        return now;
      }
      if t * NANOS_PER_SECOND < now {
        return t * NANOS_PER_SECOND;
      }
      return now;
    }

    method AdvanceTo(s: StreamId, now: nat)
      modifies this
      ensures View() == AllocationLedger.AdvanceTo(old(View()), s, now)
      ensures old(Inv(View())) ==> Inv(View())
    {
      hide Inv;
      if Inv(View()) {
        AdvanceInv(View(), s, now);
      }
      var at: int := now;
      if At(s).lastUpkeep != 0 {
        at := HeldTarget(s, now);
      }
      SettleTo(s, at);
    }

    method AdvanceIndexTo(s: StreamId, t: nat, now: nat)
      modifies this
      ensures View() == AllocationLedger.AdvanceIndexTo(old(View()), s, t, now)
      ensures old(Inv(View())) ==> Inv(View())
    {
      hide Inv;
      if Inv(View()) {
        AdvanceIndexToInv(View(), s, t, now);
      }
      var at := t * NANOS_PER_SECOND;
      if t > now / NANOS_PER_SECOND {
        at := now;
      }
      if At(s).lastUpkeep == 0 || at <= At(s).lastUpkeep {
        return;
      }
      AdvanceTo(s, at);
    }

    // ------------------------------------------------------------ votes

    method ApplyContributions(s: StreamId, cs: seq<Contribution>, sign: int, total: int, now: nat) returns (moved: int)
      requires sign == 1 || sign == -1
      modifies this
      ensures var signed := if sign == 1 then cs else Negated(cs);
        && View() == AddContributions(old(View()), s, signed, now)
        && moved == total + LiveSum(old(At(s)).options, signed)
    {
      hide AllocationLedger.SetOption, SettleOption;
      ghost var l := View();
      ghost var signed := if sign == 1 then cs else Negated(cs);
      moved := total;
      for i := 0 to |cs|
        invariant View() == AddContributions(l, s, signed[..i], now)
        invariant moved == total + LiveSum(l.At(s).options, signed[..i])
      {
        assert signed[..i + 1][..i] == signed[..i];
        AddContributionsFrame(l, s, signed[..i], now);
        var c := cs[i];
        if c.option in At(s).options && !At(s).options[c.option].removed {
          var o := SettleOption(At(s).options[c.option], At(s).index);
          moved := moved + sign * c.amount;
          SetOption(s, c.option, o.(amount := o.amount + sign * c.amount), now);
        }
      }
      assert signed[..|cs|] == signed;
    }

    /** Takes the stored record's lease off the queue; a replay keeps that lease. */
    method UnfileLease(s: StreamId, key: VoterKey, rec: Voter) returns (filed: Voter, off: seq<Contribution>)
      modifies this
      ensures var st := old(At(s));
        && View() == old(View()).With(s, st.(lapses := Unqueued(st, key)))
        && filed == rec.(expiresAt := LeaseOf(st, key, rec))
        && off == Previous(st, key)
    {
      hide Contributions;
      var st := At(s);
      filed, off := rec, [];
      if key in st.voters {
        var stored := st.voters[key];
        if stored.expiresAt != 0 {
          Put(s, st.(lapses := st.lapses - {(stored.expiresAt, key)}));
        }
        if stored.epoch == st.epoch {
          if rec.expiresAt == 0 {
            filed := filed.(expiresAt := stored.expiresAt);
          }
          off := Contributions(stored);
        }
      }
    }

    method WriteVoter(s: StreamId, key: VoterKey, rec: Voter, add: seq<Contribution>, keep: bool, now: nat)
      modifies this
      ensures View() == AllocationLedger.WriteVoter(old(View()), s, key, rec, add, keep, now)
    {
      hide AddContributions, Previous, Negated, Unqueued, LeaseOf, LiveSum;
      var st := At(s);
      var filed, off := UnfileLease(s, key, rec);
      ghost var l1 := View();
      var total := ApplyContributions(s, off, -1, st.total, now);
      AddContributionsFrame(l1, s, Negated(off), now);
      LiveSumAgrees(At(s).options, st.options, add);
      total := ApplyContributions(s, add, 1, total, now);
      if total < 0 {
        total := 0;
      }
      if !keep {
        Put(s, At(s).(total := total, voters := At(s).voters - {key}));
        return;
      }
      filed := filed.(epoch := st.epoch);
      Put(s, At(s).(
        total := total,
        voters := At(s).voters[key := filed],
        lapses := if filed.expiresAt != 0 then At(s).lapses + {(filed.expiresAt, key)} else At(s).lapses));
    }

    method ResyncVoterAt(s: StreamId, key: VoterKey, shares: seq<Share>, weight: int, expiresAt: int, now: nat)
      modifies this
      ensures View() == AllocationLedger.ResyncVoterAt(old(View()), s, key, shares, weight, expiresAt, now)
      ensures old(Inv(View())) && weight >= 0 ==> Inv(View())
    {
      hide Inv;
      if Inv(View()) && weight >= 0 {
        ResyncVoterAtInv(View(), s, key, shares, weight, expiresAt, now);
      }
      hide AllocationLedger.WriteVoter;
      var kept := ExistingSplitOf(s, shares);
      var rec := Voter(kept, [], weight, expiresAt, 0);
      WriteVoter(s, key, rec, SplitContributions(kept, weight), kept != [] && weight > 0, now);
    }

    method ExistingSplitOf(s: StreamId, shares: seq<Share>) returns (kept: seq<Share>)
      ensures kept == ExistingSplit(At(s).options, shares)
    {
      kept := [];
      for i := 0 to |shares|
        invariant kept == ExistingSplit(At(s).options, shares[..i])
      {
        assert shares[..i + 1][..i] == shares[..i];
        if shares[i].option in At(s).options {
          kept := kept + [shares[i]];
        }
      }
      assert shares[..|shares|] == shares;
    }

    method ResyncVoterKeep(s: StreamId, key: VoterKey, shares: seq<Share>, weight: int, keepZero: bool, now: nat)
      modifies this
      ensures View() == AllocationLedger.ResyncVoterKeep(old(View()), s, key, shares, weight, keepZero, now)
      ensures old(Inv(View())) && weight >= 0 ==> Inv(View())
    {
      hide Inv;
      if Inv(View()) && weight >= 0 {
        ResyncVoterKeepInv(View(), s, key, shares, weight, keepZero, now);
      }
      hide AllocationLedger.WriteVoter, AllocationLedger.ResyncVoterAt;
      if !keepZero || weight > 0 {
        ResyncVoterAt(s, key, shares, weight, 0, now);
        return;
      }
      var kept := ExistingSplitOf(s, shares);
      WriteVoter(s, key, Voter(kept, [], 0, 0, 0), [], kept != [], now);
    }

    /** Checks a split entry by entry; the running sum is a 64-bit word. */
    method ValidateSplit(s: StreamId, shares: seq<Share>) returns (ok: bool)
      ensures ok <==> ValidSplit(At(s).options, shares)
    {
      if |shares| > MAX_VOTER_OPTIONS {
        return false;
      }
      var seen: set<int> := {};
      var sum := 0;
      for i := 0 to |shares|
        invariant forall j | 0 <= j < i :: 1 <= shares[j].percent <= 100 && Live(At(s).options, shares[j].option)
        invariant forall j, k | 0 <= j < k < i :: shares[j].option != shares[k].option
        invariant seen == set j | 0 <= j < i :: shares[j].option
        invariant sum == ShareSum(shares[..i]) <= 100 * i
      {
        var w := shares[i];
        assert shares[..i + 1][..i] == shares[..i];
        if w.percent == 0 || w.percent > 100 {
          return false;
        }
        if w.option in seen {
          return false;
        }
        seen := seen + {w.option};
        if w.option !in At(s).options || At(s).options[w.option].removed {
          return false;
        }
        sum := (sum + w.percent) % 0x1_0000_0000_0000_0000;
      }
      assert shares[..|shares|] == shares;
      return shares == [] || sum == 100;
    }

    method SetVoterSplit(s: StreamId, key: VoterKey, shares: seq<Share>, weight: int, now: nat) returns (ok: bool)
      modifies this
      ensures var r := AllocationLedger.SetVoterSplit(old(View()), s, key, shares, weight, now);
        ok == r.Done? && View() == if ok then r.ledger else old(View())
      ensures old(Inv(View())) ==> Inv(View())
    {
      hide Inv;
      if Inv(View()) {
        SetVoterSplitInv(View(), s, key, shares, weight, now);
      }
      hide AllocationLedger.ResyncVoterAt, AllocationLedger.AdvanceTo, ValidSplit;
      ok := ValidateSplit(s, shares);
      if !ok || (shares != [] && weight <= 0) {
        return false;
      }
      AdvanceTo(s, now);
      ResyncVoterAt(s, key, shares, weight, 0, now);
    }

    method ApplySplit(s: StreamId, key: VoterKey, shares: seq<Share>, weight: int, leaseSeconds: nat,
                      now: nat) returns (ok: bool)
      modifies this
      ensures var r := AllocationLedger.ApplySplit(old(View()), s, key, shares, weight, leaseSeconds, now);
        ok == r.Done? && View() == if ok then r.ledger else old(View())
      ensures old(Inv(View())) ==> Inv(View())
    {
      hide Inv;
      ghost var l := View();
      hide AllocationLedger.ResyncVoterAt, AllocationLedger.AdvanceTo, ValidSplit;
      ok := ValidateSplit(s, shares);
      if !ok || (shares != [] && weight <= 0) {
        return false;
      }
      AdvanceTo(s, now);
      var expiresAt := 0;
      if s == Groundworks && shares != [] {
        expiresAt := now / NANOS_PER_SECOND + leaseSeconds;
      }
      ResyncVoterAt(s, key, shares, weight, expiresAt, now);
      if Inv(l) {
        ApplySplitInv(l, s, key, shares, weight, leaseSeconds, now);
      }
    }

    method ResyncVoter(s: StreamId, key: VoterKey, weight: int, now: nat)
      modifies this
      ensures View() == AllocationLedger.ResyncVoter(old(View()), s, key, weight, now)
      ensures old(Inv(View())) && weight >= 0 ==> Inv(View())
    {
      hide Inv;
      if Inv(View()) && weight >= 0 {
        ResyncVoterInv(View(), s, key, weight, now);
      }
      hide AllocationLedger.ResyncVoterAt, AllocationLedger.AdvanceTo;
      AdvanceTo(s, now);
      if key !in At(s).voters {
        return;
      }
      var v := At(s).voters[key];
      if v.epoch != At(s).epoch {
        Put(s, At(s).(voters := At(s).voters - {key}));
        return;
      }
      if v.optionWeights != [] {
        return;
      }
      ResyncVoterAt(s, key, v.percentages, weight, 0, now);
    }

    method ResyncFromBonded(key: VoterKey, bonded: int, bondLeft: bool, now: nat)
      modifies this
      ensures View() == AllocationLedger.ResyncFromBonded(old(View()), key, bonded, bondLeft, now)
      ensures old(Inv(View())) ==> Inv(View())
    {
      hide Inv;
      if Inv(View()) {
        ResyncFromBondedInv(View(), key, bonded, bondLeft, now);
      }
      hide AllocationLedger.ResyncVoterKeep, AllocationLedger.AdvanceTo;
      AdvanceTo(Groundworks, now);
      if key !in At(Groundworks).voters {
        return;
      }
      var v := At(Groundworks).voters[key];
      if v.epoch != At(Groundworks).epoch {
        Put(Groundworks, At(Groundworks).(voters := At(Groundworks).voters - {key}));
        return;
      }
      var weight := bonded;
      if weight < 0 {
        weight := 0;
      }
      ResyncVoterKeep(Groundworks, key, v.percentages, weight, bondLeft, now);
    }

    method WriteWeightedVoter(s: StreamId, key: VoterKey, ws: seq<Contribution>, sum: int, now: nat)
      requires sum == Total(ws)
      modifies this
      ensures View() == AllocationLedger.WriteWeightedVoter(old(View()), s, key, ws, now)
    {
      hide AllocationLedger.WriteVoter, Total;
      WriteVoter(s, key, Voter([], ws, sum, 0, 0), ws, ws != [], now);
    }

    method SetWeightedVoter(s: StreamId, key: VoterKey, weights: seq<Contribution>, now: nat) returns (ok: bool)
      modifies this
      ensures var r := AllocationLedger.SetWeightedVoter(old(View()), s, key, weights, now);
        ok == r.Done? && View() == if ok then r.ledger else old(View())
      ensures old(Inv(View())) && Issued(Positive(weights), old(At(s)).seqNo) ==> Inv(View())
    {
      hide Inv;
      if Inv(View()) && Issued(Positive(weights), At(s).seqNo) {
        SetWeightedVoterInv(View(), s, key, weights, now);
      }
      hide AllocationLedger.WriteWeightedVoter, AllocationLedger.AdvanceTo, NonNegative, DistinctOptions, Positive,
        Total;
      var ws, sum;
      ok, ws, sum := CollectWeights(weights, true);
      if !ok {
        return;
      }
      AdvanceTo(s, now);
      WriteWeightedVoter(s, key, ws, sum, now);
    }

    method SetWeightedVoterSettled(s: StreamId, key: VoterKey, weights: seq<Contribution>, now: nat) returns (ok: bool)
      modifies this
      ensures var r := AllocationLedger.SetWeightedVoterSettled(old(View()), s, key, weights, now);
        ok == r.Done? && View() == if ok then r.ledger else old(View())
      ensures old(Inv(View())) && Issued(Positive(weights), old(At(s)).seqNo) ==> Inv(View())
    {
      hide Inv;
      if Inv(View()) && Issued(Positive(weights), At(s).seqNo) {
        SetWeightedVoterInv(View(), s, key, weights, now);
      }
      hide AllocationLedger.WriteWeightedVoter, NonNegative, DistinctOptions, Positive, Total;
      var ws, sum;
      ok, ws, sum := CollectWeights(weights, false);
      if ok {
        WriteWeightedVoter(s, key, ws, sum, now);
      }
    }

    method ClearVoter(s: StreamId, key: VoterKey, now: nat)
      modifies this
      ensures View() == AllocationLedger.ClearVoter(old(View()), s, key, now)
      ensures old(Inv(View())) ==> Inv(View())
    {
      hide Inv;
      ResyncVoterAt(s, key, [], 0, 0, now);
    }

    method MoveVoter(s: StreamId, from: VoterKey, to: VoterKey, now: nat)
      modifies this
      ensures View() == AllocationLedger.MoveVoter(old(View()), s, from, to, now)
      ensures old(Inv(View())) ==> Inv(View())
    {
      hide Inv;
      if Inv(View()) {
        MoveVoterInv(View(), s, from, to, now);
      }
      hide AllocationLedger.ResyncVoterAt, AllocationLedger.AdvanceTo;
      AdvanceTo(s, now);
      if from !in At(s).voters {
        return;
      }
      var v := At(s).voters[from];
      var epoch := At(s).epoch;
      ResyncVoterAt(s, from, [], 0, 0, now);
      if v.epoch != epoch {
        return;
      }
      ResyncVoterAt(s, to, v.percentages, v.weight, 0, now);
    }

    // ------------------------------------------------------------ paying out

    method PayOut(amount: int) returns (ok: bool)
      modifies this`held
      ensures var r := AllocationLedger.PayOut(old(View()), amount);
        ok == r.Done? && View() == if ok then r.ledger else old(View())
    {
      if amount <= 0 {
        return true;
      }
      if held < amount {
        return false;
      }
      held := held - amount;
      return true;
    }

    method DrawFromOption(s: StreamId, id: int, ppm: int, now: nat) returns (drawn: int)
      modifies this
      ensures (View(), drawn) == AllocationLedger.DrawFromOption(old(View()), s, id, ppm, now)
      ensures old(Inv(View())) && ppm <= PPM_DENOMINATOR ==>
        Inv(View()) && 0 <= drawn <= held && Inv(View().(held := held - drawn))
    {
      hide AllocationLedger.SetOption, SettleOption, Inv;
      if Inv(View()) && ppm <= PPM_DENOMINATOR {
        DrawInv(View(), s, id, ppm, now);
      }
      if id !in At(s).options {
        return 0;
      }
      var o := SettleOption(At(s).options[id], At(s).index);
      drawn := Quo(o.accrued * ppm, PPM_DENOMINATOR);
      if drawn > 0 {
        o := o.(accrued := o.accrued - drawn);
      } else {
        drawn := 0;
      }
      SetOption(s, id, o, now);
    }

    /** Restores the fields of a discarded transaction. */
    method Rollback(c: Stream, g: Stream, accrued: int, dust: int, queue: set<(int, StreamId, int)>, coins: int,
                    ghost past: seq<Event>)
      modifies this
      ensures View() == Ledger(c, g, accrued, dust, queue, coins, past)
    {
      caretaker, groundworks, summedAccrued, residue, pruneQueue, held := c, g, accrued, dust, queue, coins;
      history := past;
    }

    /** A registration's reward: settles, draws and pays; a refusal is rolled back. */
    method DrawAndPay(s: StreamId, id: int, ppm: int, now: nat) returns (ok: bool)
      modifies this
      ensures var r := AllocationLedger.DrawAndPay(old(View()), s, id, ppm, now);
        ok == r.Done? && View() == if ok then r.ledger else old(View())
      ensures old(Inv(View())) && ppm <= PPM_DENOMINATOR ==> ok && Inv(View())
    {
      hide Inv, AllocationLedger.AdvanceTo, AllocationLedger.DrawFromOption;
      if Inv(View()) && ppm <= PPM_DENOMINATOR {
        DrawAndPayInv(View(), s, id, ppm, now);
      }
      var c, g, accrued, dust, queue, coins := caretaker, groundworks, summedAccrued, residue, pruneQueue, held;
      ghost var past := history;
      AdvanceTo(s, now);
      var drawn := DrawFromOption(s, id, ppm, now);
      ok := PayOut(drawn);
      if !ok {
        Rollback(c, g, accrued, dust, queue, coins, past);
      }
    }

    /** Pays an option's whole balance to its recipient; a refusal is rolled back. */
    method ClaimAllocation(s: StreamId, id: int, caller: string, now: nat) returns (ok: bool, paid: int)
      modifies this
      ensures var r := AllocationLedger.ClaimAllocation(old(View()), s, id, caller, now);
        && ok == r.Done? && View() == (if ok then r.ledger else old(View()))
        && (ok ==> paid == AllocationLedger.AdvanceTo(old(View()), s, now).held - held)
      ensures old(Inv(View())) ==> Inv(View()) && ok == Claimable(old(At(s)), id, caller)
    {
      hide AllocationLedger.SetOption, SettleOption, AllocationLedger.AdvanceTo, Inv;
      if Inv(View()) {
        ClaimInv(View(), s, id, caller, now);
      }
      var c, g, accrued, dust, queue, coins := caretaker, groundworks, summedAccrued, residue, pruneQueue, held;
      ghost var past := history;
      if id !in At(s).options || At(s).options[id].kind != Address {
        return false, 0;
      }
      var stored := At(s).options[id];
      if stored.claimer != "" && stored.claimer != caller {
        return false, 0;
      }
      AdvanceTo(s, now);
      ghost var l1 := View();
      var o := SettleOption(stored, At(s).index);
      paid := 0;
      if o.accrued > 0 {
        ok := PayOut(o.accrued);
        if !ok {
          Rollback(c, g, accrued, dust, queue, coins, past);
          return;
        }
        paid := o.accrued;
        o := o.(accrued := 0);
      }
      ghost var l2 := View();
      SetOption(s, id, o, now);
      SetOptionFrame(l2, s, id, o, now);
      ok := true;
    }

    method SweepResidue(sinkWorks: bool)
      modifies this`held, this`residue
      ensures View() == AllocationLedger.SweepResidue(old(View()), sinkWorks)
      ensures old(Inv(View())) ==> Inv(View())
    {
      hide Inv;
      if Inv(View()) {
        SweepResidueInv(View(), sinkWorks);
      }
      var amount := residue;
      if amount <= 0 {
        return;
      }
      if sinkWorks {
        held := held - amount;
        residue := 0;
      }
    }

    // ------------------------------------------------------------ reset, strike, prune

    method RetireOption(s: StreamId, id: int, now: nat)
      modifies this
      ensures View() == AllocationLedger.RetireOption(old(View()), s, id, now)
    {
      hide AllocationLedger.SetOption, SettleOption;
      if id in At(s).options {
        var o := SettleOption(At(s).options[id], At(s).index);
        SetOption(s, id, o.(amount := 0), now);
      }
    }

    method ResetAllocations(s: StreamId, now: nat) returns (epoch: nat)
      modifies this
      ensures View() == AllocationLedger.ResetAllocations(old(View()), s, now)
      ensures epoch == At(s).epoch
      ensures old(Inv(View())) ==> Inv(View())
    {
      hide Inv;
      ghost var l := View();
      hide AllocationLedger.RetireOption, AllocationLedger.AdvanceTo, Orders.Ascending, RetireAll;
      RetireNone(s, now);
      AdvanceTo(s, now);
      ghost var l1 := View();
      var ids := Orders.Ascending(At(s).options.Keys);
      for i := 0 to |ids|
        invariant View() == RetireAll(l1, s, ids[..i], now)
      {
        RetireStep(l1, s, ids, i, now);
        RetireOption(s, ids[i], now);
      }
      assert ids[..|ids|] == ids;
      epoch := At(s).epoch + 1;
      Put(s, At(s).(total := 0, epoch := epoch));
      if Inv(l) {
        ResetInv(l, s, now);
      }
    }

    /** Strikes an option and burns its balance; a refusal is rolled back. */
    method RemoveGroundworksOption(id: int, now: nat) returns (ok: bool)
      modifies this
      ensures var r := AllocationLedger.RemoveGroundworksOption(old(View()), id, now);
        ok == r.Done? && View() == if ok then r.ledger else old(View())
      ensures old(Inv(View())) ==> ok && Inv(View())
    {
      hide AllocationLedger.SetOption, SettleOption, AllocationLedger.AdvanceTo, Inv;
      if Inv(View()) {
        StrikeInv(View(), id, now);
      }
      var c, g, accrued, dust, queue, coins := caretaker, groundworks, summedAccrued, residue, pruneQueue, held;
      ghost var past := history;
      if id !in groundworks.options || groundworks.options[id].removed {
        return true;
      }
      var stored := groundworks.options[id];
      AdvanceTo(Groundworks, now);
      var o := SettleOption(stored, groundworks.index);
      var forfeited, weight := o.accrued, o.amount;
      SetOption(Groundworks, id, o.(removed := true, amount := 0, accrued := 0), now);
      if weight > 0 {
        Put(Groundworks, groundworks.(total := groundworks.total - weight));
      }
      if o.kind == Integrated {
        Put(Groundworks, groundworks.(integrated := groundworks.integrated - {id}));
      }
      ok := PayOut(forfeited);
      if !ok {
        Rollback(c, g, accrued, dust, queue, coins, past);
      }
    }

    method PruneOption(s: StreamId, id: int) returns (ok: bool)
      modifies this
      ensures var r := AllocationLedger.PruneOption(old(View()), s, id);
        ok == r.Done? && View() == if ok then r.ledger else old(View())
    {
      var st := At(s);
      if id !in st.options || !Prunable(st.options[id]) {
        return true;
      }
      var forfeited := st.options[id].accrued;
      if forfeited > 0 && held < forfeited {
        return false;
      }
      Put(s, st.(options := st.options - {id}, integrated := st.integrated - {id}));
      if forfeited > 0 {
        summedAccrued := summedAccrued - forfeited;
        held := held - forfeited;
      }
      return true;
    }

    method PruneEntry(t: int, s: StreamId, id: int)
      modifies this
      ensures View() == AllocationLedger.PruneEntry(old(View()), (t, s, id))
    {
      hide AllocationLedger.PruneOption;
      pruneQueue := pruneQueue - {(t, s, id)};
      Put(s, At(s).(pruneDue := At(s).pruneDue - {id}));
      var _ := PruneOption(s, id);
    }

    method SweepPrunableOptions(now: nat)
      modifies this
      ensures View() == AllocationBlocks.SweepPrunableOptions(old(View()), now)
      ensures old(Inv(View())) ==> Inv(View())
    {
      hide Inv;
      hide AllocationLedger.PruneEntry, TakeDue;
      ghost var l := View();
      var due := CollectDue(pruneQueue, now / NANOS_PER_SECOND, OPTION_PRUNE_SWEEP_LIMIT);
      for i := 0 to |due|
        invariant View() == PruneEntries(l, due[..i])
      {
        assert due[..i + 1][..i] == due[..i];
        var (t, s, id) := due[i];
        PruneEntry(t, s, id);
      }
      assert due[..|due|] == due;
      if Inv(l) {
        SweepPrunableInv(l, now);
      }
    }

    // ------------------------------------------------------------ leases

    method Lapse(s: StreamId, t: int, now: nat)
      modifies this
      ensures View() == LapseKeys(old(View()), s, t, Orders.Ascending(DueKeys(old(At(s)), t)), now)
    {
      hide AllocationLedger.WriteVoter, Orders.Ascending, DueKeys;
      ghost var l := View();
      var due := Orders.Ascending(DueKeys(At(s), t));
      for i := 0 to |due|
        invariant View() == LapseKeys(l, s, t, due[..i], now)
      {
        assert due[..i + 1][..i] == due[..i];
        var key := due[i];
        Put(s, At(s).(lapses := At(s).lapses - {(t, key)}));
        if key in At(s).voters {
          var v := At(s).voters[key];
          if v.expiresAt <= t && v.epoch == At(s).epoch {
            WriteVoter(s, key, Voter([], [], 0, 0, 0), [], false, now);
          }
        }
      }
      assert due[..|due|] == due;
    }

    /** Retires, in time order, every lease due by the block time; a lease left behind
        at a second already retired would be an error, and never is. */
    method SweepLapses(s: StreamId, now: nat) returns (ok: bool)
      modifies this
      ensures ok
      ensures View() == AllocationBlocks.SweepLapses(old(View()), s, now)
      ensures old(Inv(View())) ==> Inv(View())
    {
      hide Inv;
      if Inv(View()) {
        SweepLapsesInv(View(), s, now);
      }
      hide AllocationLedger.SettleTo, LapseKeys;
      ghost var l := View();
      var limit := now / NANOS_PER_SECOND;
      var prev, started := 0, false;
      while true
        invariant AllocationBlocks.SweepLapses(View(), s, now) == AllocationBlocks.SweepLapses(l, s, now)
        invariant started ==> forall e | e in At(s).lapses && e.0 <= limit :: prev < e.0
        decreases |DueEntries(At(s), limit)|
      {
        var next, found := NextLapse(s, limit);
        if !found {
          break;
        }
        ghost var l1 := View();
        FewerDue(l1, s, limit, now);
        LapseAtQueue(l1, s, next, now);
        assert next in DueTimes(At(s), limit);
        if started && next <= prev {
          return false;
        }
        prev, started := next, true;
        var at := next * NANOS_PER_SECOND;
        if At(s).lastUpkeep != 0 && at > At(s).lastUpkeep {
          SettleTo(s, at);
        }
        Lapse(s, next, now);
        forall e | e in At(s).lapses && e.0 <= limit ensures prev < e.0 {
          assert e in l1.At(s).lapses && e.0 in DueTimes(l1.At(s), limit);
        }
      }
      SettleTo(s, now);
      ok := true;
    }

    // ------------------------------------------------------------ blocks

    /** Settles one integrated option and books what its handler moved out. */
    method ResolveOne(s: StreamId, id: int, reports: map<int, int>, now: nat)
      modifies this
      ensures View() == AllocationLedger.ResolveOne(old(View()), s, id, reports, now)
    {
      hide AllocationLedger.SetOption, SettleOption;
      if id !in At(s).options {
        Put(s, At(s).(integrated := At(s).integrated - {id}));
        return;
      }
      var o := SettleOption(At(s).options[id], At(s).index);
      if o.accrued > 0 && id in reports {
        var resolved := reports[id];
        if 0 <= resolved <= o.accrued {
          held := held - resolved;
          o := o.(accrued := o.accrued - resolved);
        }
      }
      SetOption(s, id, o, now);
    }

    method ResolveIntegrated(s: StreamId, reports: map<int, int>, now: nat)
      modifies this
      ensures View() == AllocationBlocks.ResolveIntegrated(old(View()), s, reports, now)
      ensures old(Inv(View())) ==> Inv(View())
    {
      hide Inv;
      ghost var l := View();
      hide AllocationLedger.ResolveOne, AllocationBlocks.SweepLapses;
      var _ := SweepLapses(s, now);
      ghost var l1 := View();
      var ids := Orders.Ascending(At(s).integrated);
      for i := 0 to |ids|
        invariant View() == ResolveAll(l1, s, ids[..i], reports, now)
      {
        assert ids[..i + 1][..i] == ids[..i];
        ResolveOne(s, ids[i], reports, now);
      }
      assert ids[..|ids|] == ids;
      if Inv(l) {
        ResolveIntegratedInv(l, s, reports, now);
      }
    }

    method BeginBlocker(caretakerReports: map<int, int>, groundworksReports: map<int, int>, now: nat)
      modifies this
      ensures View() == BeginBlock(old(View()), caretakerReports, groundworksReports, now)
      ensures old(Inv(View())) ==> Inv(View())
    {
      hide Inv;
      if Inv(View()) {
        BeginBlockInv(View(), caretakerReports, groundworksReports, now);
      }
      hide AllocationBlocks.ResolveIntegrated, AllocationBlocks.SweepPrunableOptions;
      ResolveIntegrated(Caretaker, caretakerReports, now);
      ResolveIntegrated(Groundworks, groundworksReports, now);
      SweepPrunableOptions(now);
    }

    method ResyncSlashed(vals: seq<Slashed>, now: nat)
      modifies this
      ensures View() == AllocationBlocks.ResyncSlashed(old(View()), vals, now)
      ensures old(Inv(View())) ==> Inv(View())
    {
      hide Inv;
      if Inv(View()) {
        ResyncSlashedInv(View(), vals, now);
      }
      hide AllocationLedger.ResyncFromBonded;
      ghost var l := View();
      for i := 0 to |vals|
        invariant View() == AllocationBlocks.ResyncSlashed(l, vals[..i], now)
      {
        assert vals[..i + 1][..i] == vals[..i];
        ResyncFromBonded(vals[i].key, vals[i].weight, vals[i].bondLeft, now);
      }
      assert vals[..|vals|] == vals;
    }

    /** The end of a block: it fails, and the chain halts, exactly in a halting state. */
    method EndBlocker(vals: seq<Slashed>, sinkWorks: bool, now: nat) returns (ok: bool)
      modifies this
      ensures View() == EndBlock(old(View()), vals, sinkWorks, now) && ok == !Halts(View())
      ensures old(Inv(View())) ==> ok && Inv(View())
    {
      hide Inv, AllocationBlocks.ResyncSlashed, AllocationLedger.SweepResidue, Halts;
      ResyncSlashed(vals, now);
      SweepResidue(sinkWorks);
      ok := AssertHotInvariants();
    }

    // ------------------------------------------------------------ the checks

    /** Sums a stream's options by walking them. */
    method CheckStreamWeight(s: StreamId) returns (declared: int, summed: int)
      ensures declared == At(s).total && summed == Weight(At(s).options)
    {
      declared := At(s).total;
      summed := WalkAmounts(At(s).options);
    }

    /** Sums every option's balance in both streams by walking them. */
    method WalkAccrued() returns (sum: int)
      ensures sum == Accrued(caretaker.options) + Accrued(groundworks.options)
    {
      var c := WalkBalances(caretaker.options);
      var g := WalkBalances(groundworks.options);
      sum := c + g;
    }

    method CheckSolvency() returns (r: SolvencyReport)
      ensures r.held == held && r.accrued == summedAccrued && r.residue == residue
      ensures r.short >= 0 && r.surplus >= 0 && r.short * r.surplus == 0
      ensures r.held + r.short == r.accrued + r.residue + r.surplus
    {
      var owed := summedAccrued + residue;
      r := SolvencyReport(summedAccrued, residue, held, 0, 0);
      if held < owed {
        r := r.(short := owed - held);
      } else if held > owed {
        r := r.(surplus := held - owed);
      }
    }

    /** The end-of-block check. It passes in every state that satisfies the invariant. */
    method AssertHotInvariants() returns (ok: bool)
      ensures ok <==> !Halts(View())
      ensures Inv(View()) ==> ok
    {
      hide Inv;
      if Inv(View()) {
        NoHalt(View());
      }
      var r := CheckSolvency();
      if r.short > 0 {
        return false;
      }
      if caretaker.total != caretaker.summed || groundworks.total != groundworks.summed {
        return false;
      }
      return true;
    }

    /** The exhaustive check: it walks the options instead of trusting the running sums,
        and passes in every state that satisfies the invariant. */
    method AssertInvariants() returns (ok: bool)
      ensures ok <==>
        && (forall s :: At(s).total == At(s).summed == Weight(At(s).options))
        && summedAccrued == Accrued(caretaker.options) + Accrued(groundworks.options)
        && held >= summedAccrued + residue
      ensures Inv(View()) ==> ok
    {
      hide Weight, Accrued, Votes, Idle, Schedule, Slack;
      if Inv(View()) {
        NoHalt(View());
      }
      var declared, summed := CheckStreamWeight(Caretaker);
      assert At(Caretaker) == caretaker && At(Groundworks) == groundworks;
      if declared != summed || caretaker.summed != summed {
        return false;
      }
      declared, summed := CheckStreamWeight(Groundworks);
      if declared != summed || groundworks.summed != summed {
        return false;
      }
      var walked := WalkAccrued();
      var r := CheckSolvency();
      return summedAccrued == walked && r.short == 0;
    }
  }
}
