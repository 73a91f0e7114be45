/** The votes this chain's own callers file: leased exactly on Groundworks, within bounds.
    A run of such calls always exports a file that validates. */
module AllocationFiling {
  import opened AllocationTypes
  import opened AllocationLedger
  import opened AllocationBooks
  import opened AllocationSettle
  import opened AllocationVotes
  import opened AllocationOps
  import opened AllocationBlocks
  import opened AllocationRun
  import opened AllocationGenesis
  import opened AllocationExport
  import Orders

  // ---------------------------------------------------------------- filed votes

  predicate SharesBounded(shares: seq<Share>) {
    (forall i | 0 <= i < |shares| :: shares[i].percent <= 100) && ShareSum(shares) <= 100
  }

  predicate VoterFiled(s: StreamId, v: Voter) {
    && SharesBounded(v.percentages) && v.expiresAt >= 0
    && (v.expiresAt != 0 ==> s == Groundworks && v.optionWeights == [])
    && (s == Groundworks && v.optionWeights == [] && v.percentages != [] ==> v.expiresAt != 0)
    && (v.optionWeights != [] ==>
          && v.percentages == [] && DistinctOptions(v.optionWeights) && Total(v.optionWeights) == v.weight
          && forall i | 0 <= i < |v.optionWeights| :: v.optionWeights[i].amount > 0)
  }

  ghost predicate StreamFiled(s: StreamId, st: Stream) {
    && (forall k | k in st.voters :: VoterFiled(s, st.voters[k]))
    && (forall id | id in st.options && st.options[id].removed :: s == Groundworks)
  }

  ghost predicate Filed(l: Ledger) {
    StreamFiled(Caretaker, l.caretaker) && StreamFiled(Groundworks, l.groundworks)
  }

  lemma {:induction false} ExistingBounded(options: map<int, AllocationOption>, shares: seq<Share>)
    requires SharesBounded(shares)
    ensures SharesBounded(ExistingSplit(options, shares))
      && ShareSum(ExistingSplit(options, shares)) <= ShareSum(shares)
  {
    if shares != [] {
      var front := shares[..|shares| - 1];
      ExistingBounded(options, front);
      var kept := ExistingSplit(options, shares);
      if shares[|shares| - 1].option in options {
        assert kept[..|kept| - 1] == ExistingSplit(options, front);
      }
    }
  }

  lemma {:induction false} KeptDistinct(options: map<int, AllocationOption>, ws: seq<Contribution>)
    requires DistinctOptions(ws) && forall i | 0 <= i < |ws| :: ws[i].amount > 0
    ensures var kept := KeptWeights(options, ws);
      DistinctOptions(kept) && forall i | 0 <= i < |kept| :: kept[i].amount > 0
  {
    if ws != [] {
      var front := ws[..|ws| - 1];
      KeptDistinct(options, front);
      var r := KeptWeights(options, front);
      forall i | 0 <= i < |r| ensures r[i].option != ws[|ws| - 1].option {
        assert r[i] in r;
        var j :| 0 <= j < |front| && front[j] == r[i];
      }
    }
  }

  /** A filed vote is one the import rules allow. */
  lemma FiledExportable(s: StreamId, options: map<int, AllocationOption>, v: Voter)
    requires VoterFiled(s, v) && Exported(options, v)
    ensures VoterExportable(s, options, v)
  {
    hide ShareSum, DistinctOptions, Total;
    ExistingBounded(options, v.percentages);
    if v.optionWeights != [] {
      KeptDistinct(options, v.optionWeights);
      if |KeptWeights(options, v.optionWeights)| == |v.optionWeights| {
        KeptAll(options, v.optionWeights);
      }
    }
  }

  // ---------------------------------------------------------------- the writers

  lemma SameFiled(l: Ledger, m: Ledger, s: StreamId)
    requires Filed(l) && m.At(Other(s)) == l.At(Other(s))
    requires forall k | k in m.At(s).voters :: k in l.At(s).voters && m.At(s).voters[k] == l.At(s).voters[k]
    requires forall id | id in m.At(s).options && m.At(s).options[id].removed ::
      s == Groundworks || (id in l.At(s).options && l.At(s).options[id].removed)
    ensures Filed(m)
  {
    hide VoterFiled;
    assert StreamFiled(s, l.At(s)) && StreamFiled(Other(s), l.At(Other(s)));
    assert StreamFiled(s, m.At(s)) && StreamFiled(Other(s), m.At(Other(s)));
  }

  lemma SetOptionFiled(l: Ledger, s: StreamId, id: int, o: AllocationOption, now: nat)
    requires Filed(l) && (o.removed ==> s == Groundworks || (id in l.At(s).options && l.At(s).options[id].removed))
    ensures Filed(SetOption(l, s, id, o, now))
  {
    hide Filed, SetOption;
    SetOptionFrame(l, s, id, o, now);
    SameFiled(l, SetOption(l, s, id, o, now), s);
  }

  lemma SettleToFiled(l: Ledger, s: StreamId, now: int)
    requires Filed(l)
    ensures Filed(SettleTo(l, s, now))
  {
    hide Filed, SettleTo;
    SettleToFrame(l, s, now);
    SameFiled(l, SettleTo(l, s, now), s);
  }

  lemma AdvanceFiled(l: Ledger, s: StreamId, now: nat)
    requires Filed(l)
    ensures Filed(AdvanceTo(l, s, now)) && OnlySettled(l, AdvanceTo(l, s, now), s)
  {
    hide Filed, SettleTo, HeldTarget;
    SettleToFiled(l, s, if l.At(s).lastUpkeep != 0 then HeldTarget(l.At(s), now) else now);
    SettleToFrame(l, s, if l.At(s).lastUpkeep != 0 then HeldTarget(l.At(s), now) else now);
  }

  lemma AddContributionsFiled(l: Ledger, s: StreamId, cs: seq<Contribution>, now: nat)
    requires Filed(l)
    ensures Filed(AddContributions(l, s, cs, now)) && SameVotes(l.At(s), AddContributions(l, s, cs, now).At(s))
  {
    hide Filed, AddContributions;
    AddContributionsFrame(l, s, cs, now);
    SameFiled(l, AddContributions(l, s, cs, now), s);
  }

  lemma WriteVoterFiled(l: Ledger, s: StreamId, key: VoterKey, rec: Voter, add: seq<Contribution>, keep: bool, now: nat)
    requires Filed(l)
    requires keep ==> VoterFiled(s, rec.(expiresAt := LeaseOf(l.At(s), key, rec), epoch := l.At(s).epoch))
    ensures Filed(WriteVoter(l, s, key, rec, add, keep, now))
  {
    hide AddContributions, VoterFiled, LiveSum, Negated, Previous, Unqueued, LeaseOf;
    var st := l.At(s);
    var off := Negated(Previous(st, key));
    var l1 := l.With(s, st.(lapses := Unqueued(st, key)));
    SameFiled(l, l1, s);
    AddContributionsFiled(l1, s, off, now);
    var l2 := AddContributions(l1, s, off, now);
    AddContributionsFiled(l2, s, add, now);
    var l3 := AddContributions(l2, s, add, now);
    var m := WriteVoter(l, s, key, rec, add, keep, now);
    assert StreamFiled(s, l3.At(s)) && StreamFiled(Other(s), l3.At(Other(s)));
    assert StreamFiled(s, m.At(s)) && m.At(Other(s)) == l3.At(Other(s));
  }

  /** The lease a split filed at expiresAt ends up with is one its stream allows. */
  predicate LeaseFits(s: StreamId, st: Stream, key: VoterKey, expiresAt: int) {
    var lease := if expiresAt == 0 && key in st.voters && st.voters[key].epoch == st.epoch then st.voters[key].expiresAt
                 else expiresAt;
    lease >= 0 && (lease != 0 <==> s == Groundworks)
  }

  lemma ResyncVoterAtFiled(l: Ledger, s: StreamId, key: VoterKey, shares: seq<Share>, weight: int, expiresAt: int,
                           now: nat)
    requires Filed(l) && SharesBounded(shares) && (shares != [] ==> LeaseFits(s, l.At(s), key, expiresAt))
    ensures Filed(ResyncVoterAt(l, s, key, shares, weight, expiresAt, now))
  {
    hide Filed, WriteVoter, ShareSum;
    ExistingBounded(l.At(s).options, shares);
    var kept := ExistingSplit(l.At(s).options, shares);
    assert kept != [] ==> kept[0] in shares;
    WriteVoterFiled(l, s, key, Voter(kept, [], weight, expiresAt, 0), SplitContributions(kept, weight),
                    kept != [] && weight > 0, now);
  }

  lemma StoredFiled(l: Ledger, s: StreamId, key: VoterKey)
    requires Filed(l) && key in l.At(s).voters
    ensures VoterFiled(s, l.At(s).voters[key])
  {
    assert StreamFiled(s, l.At(s));
  }

  /** A stored split replayed at its own key keeps its lease. */
  lemma ReplayFits(l: Ledger, s: StreamId, key: VoterKey)
    requires Filed(l) && key in l.At(s).voters && l.At(s).voters[key].epoch == l.At(s).epoch
    ensures var v := l.At(s).voters[key];
      SharesBounded(v.percentages) && (v.percentages != [] ==> LeaseFits(s, l.At(s), key, 0))
  {
    hide Filed;
    StoredFiled(l, s, key);
  }

  lemma DropFiled(l: Ledger, s: StreamId, key: VoterKey)
    requires Filed(l)
    ensures Filed(DropVoter(l, s, key))
  {
    hide Filed;
    SameFiled(l, DropVoter(l, s, key), s);
  }

  lemma ResyncVoterFiled(l: Ledger, s: StreamId, key: VoterKey, weight: int, now: nat)
    requires Filed(l)
    ensures Filed(ResyncVoter(l, s, key, weight, now))
  {
    hide Filed, AdvanceTo, ResyncVoterAt, SharesBounded, LeaseFits;
    AdvanceFiled(l, s, now);
    var l1 := AdvanceTo(l, s, now);
    DropFiled(l1, s, key);
    if key in l1.At(s).voters && l1.At(s).voters[key].epoch == l1.At(s).epoch {
      ReplayFits(l1, s, key);
      ResyncVoterAtFiled(l1, s, key, l1.At(s).voters[key].percentages, weight, 0, now);
    }
  }

  lemma ResyncFromBondedFiled(l: Ledger, key: VoterKey, weight: int, bondLeft: bool, now: nat)
    requires Filed(l)
    ensures Filed(ResyncFromBonded(l, key, weight, bondLeft, now))
  {
    hide Filed, AdvanceTo, ResyncVoterAt, WriteVoter, ShareSum;
    AdvanceFiled(l, Groundworks, now);
    var l1 := AdvanceTo(l, Groundworks, now);
    var st := l1.groundworks;
    DropFiled(l1, Groundworks, key);
    if key in st.voters && st.voters[key].epoch == st.epoch {
      var v := st.voters[key];
      ReplayFits(l1, Groundworks, key);
      ResyncVoterAtFiled(l1, Groundworks, key, v.percentages, Clamped(weight), 0, now);
      ExistingBounded(st.options, v.percentages);
      var kept := ExistingSplit(st.options, v.percentages);
      assert kept != [] ==> kept[0] in v.percentages;
      WriteVoterFiled(l1, Groundworks, key, Voter(kept, [], 0, 0, 0), [], kept != [], now);
    }
  }

  lemma {:induction false} ResyncSlashedFiled(l: Ledger, vals: seq<Slashed>, now: nat)
    requires Filed(l)
    ensures Filed(ResyncSlashed(l, vals, now))
  {
    hide Filed, ResyncFromBonded;
    if vals != [] {
      var v := vals[|vals| - 1];
      ResyncSlashedFiled(l, vals[..|vals| - 1], now);
      ResyncFromBondedFiled(ResyncSlashed(l, vals[..|vals| - 1], now), v.key, v.weight, v.bondLeft, now);
    }
  }

  lemma ValidBounded(options: map<int, AllocationOption>, shares: seq<Share>)
    requires ValidSplit(options, shares)
    ensures SharesBounded(shares)
  {
    if shares == [] {
      assert ShareSum(shares) == 0;
    }
  }

  lemma {:induction false} PositiveDistinct(ws: seq<Contribution>)
    requires DistinctOptions(ws)
    ensures DistinctOptions(Positive(ws)) && forall i | 0 <= i < |Positive(ws)| :: Positive(ws)[i].amount > 0
  {
    if ws != [] {
      var front := ws[..|ws| - 1];
      PositiveDistinct(front);
      var r := Positive(front);
      forall i | 0 <= i < |r| ensures r[i].option != ws[|ws| - 1].option {
        assert r[i] in r;
        var j :| 0 <= j < |front| && front[j] == r[i];
      }
      assert Positive(ws) == if ws[|ws| - 1].amount > 0 then r + [ws[|ws| - 1]] else r;
    }
  }

  /** A key that holds no lease in the current epoch. */
  predicate Unleased(st: Stream, key: VoterKey) {
    key in st.voters && st.voters[key].epoch == st.epoch ==> st.voters[key].expiresAt == 0
  }

  lemma WeightedFiled(l: Ledger, s: StreamId, key: VoterKey, ws: seq<Contribution>, now: nat)
    requires Filed(l) && DistinctOptions(ws) && Unleased(l.At(s), key)
    ensures Filed(WriteWeightedVoter(l, s, key, Positive(ws), now))
  {
    hide Filed, WriteVoter, Total, DistinctOptions, Positive;
    PositiveDistinct(ws);
    var ps := Positive(ws);
    assert ShareSum([]) == 0;
    WriteVoterFiled(l, s, key, Voter([], ps, Total(ps), 0, 0), ps, ps != [], now);
  }

  lemma MoveVoterFiled(l: Ledger, from: VoterKey, to: VoterKey, now: nat)
    requires Filed(l)
    ensures Filed(MoveVoter(l, Caretaker, from, to, now))
  {
    hide Filed, AdvanceTo, ResyncVoterAt, ShareSum;
    AdvanceFiled(l, Caretaker, now);
    var l1 := AdvanceTo(l, Caretaker, now);
    if from in l1.caretaker.voters {
      var v := l1.caretaker.voters[from];
      StoredFiled(l1, Caretaker, from);
      NoShares();
      ResyncVoterAtFiled(l1, Caretaker, from, [], 0, 0, now);
      var l2 := ClearVoter(l1, Caretaker, from, now);
      if to in l2.caretaker.voters {
        StoredFiled(l2, Caretaker, to);
      }
      ResyncVoterAtFiled(l2, Caretaker, to, v.percentages, v.weight, 0, now);
    }
  }

  lemma AppendOptionFiled(l: Ledger, s: StreamId, kind: Kind, recipient: string, claimer: string, now: nat)
    requires Filed(l)
    ensures Filed(AppendOption(l, s, kind, recipient, claimer, now))
  {
    hide Filed, SetOption;
    var st := l.At(s);
    var l1 := l.With(s, st.(seqNo := st.seqNo + 1));
    SameFiled(l, l1, s);
    var o := AllocationOption(kind, recipient, claimer, 0, 0, st.index, false);
    SetOptionFiled(l1, s, st.seqNo + 1, o, now);
    var l2 := SetOption(l1, s, st.seqNo + 1, o, now);
    SameFiled(l2, AppendOption(l, s, kind, recipient, claimer, now), s);
  }

  lemma CoinsFiled(l: Ledger, m: Ledger)
    requires Filed(l) && m.caretaker == l.caretaker && m.groundworks == l.groundworks
    ensures Filed(m)
  {
  }

  lemma SettledFlag(o: AllocationOption, index: int)
    ensures SettleOption(o, index).removed == o.removed
  {
  }

  lemma DrawAndPayFiled(l: Ledger, s: StreamId, id: int, ppm: int, now: nat)
    requires Filed(l)
    ensures var r := DrawAndPay(l, s, id, ppm, now); r.Done? ==> Filed(r.ledger)
  {
    hide Filed, SetOption, AdvanceTo, SettleOption, Drawn;
    AdvanceFiled(l, s, now);
    var l1 := AdvanceTo(l, s, now);
    var (l2, d) := DrawFromOption(l1, s, id, ppm, now);
    if id in l1.At(s).options {
      var o := SettleOption(l1.At(s).options[id], l1.At(s).index);
      SettledFlag(l1.At(s).options[id], l1.At(s).index);
      SetOptionFiled(l1, s, id, o.(accrued := o.accrued - d), now);
    }
    var r := PayOut(l2, d);
    if r.Done? {
      CoinsFiled(l2, r.ledger);
    }
  }

  lemma ClaimFiled(l: Ledger, s: StreamId, id: int, caller: string, now: nat)
    requires Filed(l)
    ensures var r := ClaimAllocation(l, s, id, caller, now); r.Done? ==> Filed(r.ledger)
  {
    hide Filed, SetOption, AdvanceTo, SettleOption;
    if Claimable(l.At(s), id, caller) {
      AdvanceFiled(l, s, now);
      var l1 := AdvanceTo(l, s, now);
      var o := SettleOption(l.At(s).options[id], l1.At(s).index);
      SettledFlag(l.At(s).options[id], l1.At(s).index);
      var paid := PayOut(l1, o.accrued);
      if paid.Done? {
        CoinsFiled(l1, paid.ledger);
        SetOptionFiled(paid.ledger, s, id, if o.accrued > 0 then o.(accrued := 0) else o, now);
      }
    }
  }

  lemma {:induction false} RetireAllFiled(l: Ledger, s: StreamId, ids: seq<int>, now: nat)
    requires Filed(l)
    ensures Filed(RetireAll(l, s, ids, now))
  {
    hide Filed, SetOption, SettleOption;
    if ids != [] {
      RetireAllFiled(l, s, ids[..|ids| - 1], now);
      var m, id := RetireAll(l, s, ids[..|ids| - 1], now), ids[|ids| - 1];
      if id in m.At(s).options {
        SettledFlag(m.At(s).options[id], m.At(s).index);
        SetOptionFiled(m, s, id, SettleOption(m.At(s).options[id], m.At(s).index).(amount := 0), now);
      }
    }
  }

  lemma ResetFiled(l: Ledger, s: StreamId, now: nat)
    requires Filed(l)
    ensures Filed(ResetAllocations(l, s, now))
  {
    hide Filed, RetireAll, AdvanceTo, Orders.Ascending;
    AdvanceFiled(l, s, now);
    var l1 := AdvanceTo(l, s, now);
    RetireAllFiled(l1, s, Orders.Ascending(l1.At(s).options.Keys), now);
    SameFiled(RetireAll(l1, s, Orders.Ascending(l1.At(s).options.Keys), now), ResetAllocations(l, s, now), s);
  }

  lemma StrikeFiled(l: Ledger, id: int, now: nat)
    requires Filed(l)
    ensures var r := RemoveGroundworksOption(l, id, now); r.Done? ==> Filed(r.ledger)
  {
    hide Filed, SetOption, AdvanceTo, SettleOption;
    var r := RemoveGroundworksOption(l, id, now);
    if id in l.groundworks.options && !l.groundworks.options[id].removed && r.Done? {
      AdvanceFiled(l, Groundworks, now);
      var l1 := AdvanceTo(l, Groundworks, now);
      var o := SettleOption(l.groundworks.options[id], l1.groundworks.index).(removed := true, amount := 0,
        accrued := 0);
      SetOptionFiled(l1, Groundworks, id, o, now);
      SameFiled(SetOption(l1, Groundworks, id, o, now), r.ledger, Groundworks);
    }
  }

  // ---------------------------------------------------------------- the start of a block

  lemma {:induction false} LapseKeysFiled(l: Ledger, s: StreamId, t: int, keys: seq<VoterKey>, now: nat)
    requires Filed(l)
    ensures Filed(LapseKeys(l, s, t, keys, now))
  {
    hide Filed, WriteVoter;
    if keys != [] {
      LapseKeysFiled(l, s, t, keys[..|keys| - 1], now);
      var m, key := LapseKeys(l, s, t, keys[..|keys| - 1], now), keys[|keys| - 1];
      var m1 := m.With(s, m.At(s).(lapses := m.At(s).lapses - {(t, key)}));
      SameFiled(m, m1, s);
      WriteVoterFiled(m1, s, key, Voter([], [], 0, 0, 0), [], false, now);
    }
  }

  lemma {:induction false} SweepLapsesFiled(l: Ledger, s: StreamId, now: nat)
    requires Filed(l)
    ensures Filed(SweepLapses(l, s, now))
    decreases |DueEntries(l.At(s), Seconds(now))|
  {
    hide Filed, SettleTo, LapseKeys, Orders.Ascending;
    var due := DueTimes(l.At(s), Seconds(now));
    if due == {} {
      SettleToFiled(l, s, now);
    } else {
      FewerDue(l, s, Seconds(now), now);
      var t := Orders.Least(due);
      SettleToFiled(l, s, t * NANOS_PER_SECOND);
      var at := t * NANOS_PER_SECOND;
      var l1 := if l.At(s).lastUpkeep != 0 && at > l.At(s).lastUpkeep then SettleTo(l, s, at) else l;
      LapseKeysFiled(l1, s, t, Orders.Ascending(DueKeys(l1.At(s), t)), now);
      SweepLapsesFiled(LapseAt(l, s, t, now), s, now);
    }
  }

  lemma {:induction false} ResolveAllFiled(l: Ledger, s: StreamId, ids: seq<int>, reports: map<int, int>, now: nat)
    requires Filed(l)
    ensures Filed(ResolveAll(l, s, ids, reports, now))
  {
    hide Filed, SetOption, SettleOption;
    if ids != [] {
      ResolveAllFiled(l, s, ids[..|ids| - 1], reports, now);
      var m, id := ResolveAll(l, s, ids[..|ids| - 1], reports, now), ids[|ids| - 1];
      if id in m.At(s).options {
        var o := SettleOption(m.At(s).options[id], m.At(s).index);
        SettledFlag(m.At(s).options[id], m.At(s).index);
        var r := Resolved(reports, id, o.accrued);
        CoinsFiled(m, m.(held := m.held - r));
        SetOptionFiled(m.(held := m.held - r), s, id, o.(accrued := o.accrued - r), now);
      } else {
        SameFiled(m, ResolveAll(l, s, ids, reports, now), s);
      }
    }
  }

  lemma {:induction false} PruneEntriesFiled(l: Ledger, es: seq<(int, StreamId, int)>)
    requires Filed(l)
    ensures Filed(PruneEntries(l, es))
  {
    hide Filed;
    if es != [] {
      var m, e := PruneEntries(l, es[..|es| - 1]), es[|es| - 1];
      PruneEntriesFiled(l, es[..|es| - 1]);
      SameFiled(m, PruneEntry(m, e), e.1);
    }
  }

  lemma BeginBlockFiled(l: Ledger, c: map<int, int>, g: map<int, int>, now: nat)
    requires Filed(l)
    ensures Filed(BeginBlock(l, c, g, now))
  {
    hide Filed, SweepLapses, ResolveAll, PruneEntries, Orders.Ascending, TakeDue;
    SweepLapsesFiled(l, Caretaker, now);
    var l1 := SweepLapses(l, Caretaker, now);
    ResolveAllFiled(l1, Caretaker, Orders.Ascending(l1.caretaker.integrated), c, now);
    var l2 := ResolveIntegrated(l, Caretaker, c, now);
    SweepLapsesFiled(l2, Groundworks, now);
    var l3 := SweepLapses(l2, Groundworks, now);
    ResolveAllFiled(l3, Groundworks, Orders.Ascending(l3.groundworks.integrated), g, now);
    var l4 := ResolveIntegrated(l2, Groundworks, g, now);
    PruneEntriesFiled(l4, TakeDue(l4.pruneQueue, Seconds(now), OPTION_PRUNE_SWEEP_LIMIT));
  }

  // ---------------------------------------------------------------- runs

  /** How this chain's own callers use the keeper: unleased splits and moves are Caretaker
      matters, a Groundworks lease ends at a positive time, and weighted voters have distinct
      options and keys of their own. */
  predicate Customary(l: Ledger, op: Op, now: nat) {
    match op
    case VoterSplit(s, _, shares, _) => s == Caretaker || shares == []
    case Split(s, _, shares, _, lease) => s == Groundworks && shares != [] ==> Seconds(now) + lease > 0
    case Move(s, _, _) => s == Caretaker
    case Weighted(s, key, ws) => Unleased(l.At(s), key)
    case WeightedSettled(s, key, ws) => Unleased(l.At(s), key) && DistinctOptions(ws)
    case _ => true
  }

  lemma SplitFiled(l: Ledger, s: StreamId, key: VoterKey, shares: seq<Share>, weight: int, lease: int, now: nat)
    requires Filed(l) && ValidSplit(l.At(s).options, shares)
    requires shares != [] ==> lease >= 0 && (lease != 0 <==> s == Groundworks)
    ensures Filed(ResyncVoterAt(AdvanceTo(l, s, now), s, key, shares, weight, lease, now))
  {
    hide Filed, AdvanceTo, ResyncVoterAt, ValidSplit, ShareSum;
    AdvanceFiled(l, s, now);
    var l1 := AdvanceTo(l, s, now);
    ValidBounded(l.At(s).options, shares);
    if key in l1.At(s).voters {
      StoredFiled(l1, s, key);
    }
    ResyncVoterAtFiled(l1, s, key, shares, weight, lease, now);
  }

  lemma StepFiled(l: Ledger, op: Op, now: nat)
    requires Filed(l) && Customary(l, op, now)
    ensures Filed(Step(l, op, now))
  {
    hide Filed, AdvanceTo, AppendOption, ResyncVoterAt, ResyncVoter, ResyncFromBonded, WriteWeightedVoter, MoveVoter,
      DrawAndPay, ClaimAllocation, ResetAllocations, RemoveGroundworksOption, ResyncSlashed, BeginBlock, ValidSplit,
      Positive, DistinctOptions, ShareSum;
    match op
    case Advance(s) => AdvanceFiled(l, s, now);
    case AdvanceUntil(s, t) => AdvanceFiled(l, s, if t > Seconds(now) then now else t * NANOS_PER_SECOND);
    case AddOption(s, kind, recipient, claimer) => AppendOptionFiled(l, s, kind, recipient, claimer, now);
    case VoterSplit(s, key, shares, weight) =>
      if ValidSplit(l.At(s).options, shares) {
        SplitFiled(l, s, key, shares, weight, 0, now);
      }
    case Split(s, key, shares, weight, lease) =>
      if ValidSplit(l.At(s).options, shares) {
        SplitFiled(l, s, key, shares, weight, if s == Groundworks && shares != [] then Seconds(now) + lease else 0,
          now);
      }
    case Resync(s, key, weight) => ResyncVoterFiled(l, s, key, weight, now);
    case Bonded(key, weight, bondLeft) => ResyncFromBondedFiled(l, key, weight, bondLeft, now);
    case Weighted(s, key, ws) =>
      AdvanceFiled(l, s, now);
      if DistinctOptions(ws) {
        WeightedFiled(AdvanceTo(l, s, now), s, key, ws, now);
      }
    case WeightedSettled(s, key, ws) => WeightedFiled(l, s, key, ws, now);
    case Clear(s, key) =>
      NoShares();
      ResyncVoterAtFiled(l, s, key, [], 0, 0, now);
    case Move(s, from, to) => MoveVoterFiled(l, from, to, now);
    case Draw(s, id, ppm) => DrawAndPayFiled(l, s, id, ppm, now);
    case ClaimBalance(s, id, caller) => ClaimFiled(l, s, id, caller, now);
    case Reset(s) => ResetFiled(l, s, now);
    case Strike(id) => StrikeFiled(l, id, now);
    case Begin(c, g) => BeginBlockFiled(l, c, g, now);
    case End(vals, sinkWorks) =>
      ResyncSlashedFiled(l, vals, now);
      CoinsFiled(ResyncSlashed(l, vals, now), Step(l, op, now));
  }

  lemma NoShares()
    ensures ShareSum([]) == 0
  {
  }

  ghost predicate CustomaryRun(l: Ledger, calls: seq<(Op, nat)>) {
    forall i | 0 <= i < |calls| :: Customary(After(l, calls, i), calls[i].0, calls[i].1)
  }

  lemma {:induction false} RunFiled(l: Ledger, calls: seq<(Op, nat)>, n: nat)
    requires Filed(l) && CustomaryRun(l, calls) && n <= |calls|
    ensures Filed(After(l, calls, n))
  {
    hide Filed, Step, Customary;
    if n > 0 {
      RunFiled(l, calls, n - 1);
      StepFiled(After(l, calls, n - 1), calls[n - 1].0, calls[n - 1].1);
    }
  }

  lemma FiledStream(s: StreamId, st: Stream)
    requires StreamFiled(s, st)
    ensures StreamExportable(s, st)
  {
    hide VoterFiled, VoterExportable, Exported;
    forall k | k in st.voters && Exported(st.options, st.voters[k])
      ensures VoterExportable(s, st.options, st.voters[k]) {
      FiledExportable(s, st.options, st.voters[k]);
    }
  }

  lemma FreshFiled(seed: int, residue: int, held: int, now: nat)
    ensures Filed(Fresh(seed, residue, held, now))
  {
    hide Filed, AppendOption, SetOption;
    var l0 := EmptyLedger(residue, held);
    assert Filed(l0) by { EmptyFiled(residue, held); }
    AppendOptionFiled(l0, Caretaker, Integrated, "", "", now);
    var l1 := AppendOption(l0, Caretaker, Integrated, "", "", now);
    if seed > 0 && 1 in l1.caretaker.options {
      SetOptionFiled(l1, Caretaker, 1, l1.caretaker.options[1].(accrued := seed), now);
    }
    var l2 := if seed > 0 && 1 in l1.caretaker.options
      then SetOption(l1, Caretaker, 1, l1.caretaker.options[1].(accrued := seed), now) else l1;
    AppendOptionFiled(l2, Groundworks, Integrated, "", "", now);
    AppendOptionFiled(AppendOption(l2, Groundworks, Integrated, "", "", now), Groundworks, Integrated, "", "", now);
  }

  lemma EmptyFiled(residue: int, held: int)
    ensures Filed(EmptyLedger(residue, held))
  {
  }

  /** Whatever the chain's own callers do from a fresh genesis, its export validates and is
      imported again. */
  lemma RunExports(gs: GenesisState, held: int, start: nat, calls: seq<(Op, nat)>, n: nat, now: nat)
    requires gs.streams == [] && InitGenesis(gs, held, start).Done? && n <= |calls|
    requires AdmissibleRun(InitGenesis(gs, held, start).ledger, calls)
    requires CustomaryRun(InitGenesis(gs, held, start).ledger, calls)
    ensures var m := After(InitGenesis(gs, held, start).ledger, calls, n);
      Valid(Export(m)) && InitGenesis(Export(m), m.held, now) == Done(Reimported(m, now))
  {
    hide Inv, After, AdmissibleRun, CustomaryRun, Fresh, Export, Reimported, StreamExportable, StreamFiled;
    var l := InitGenesis(gs, held, start).ledger;
    FreshFunded(gs.seed, gs.residue, held, start);
    FreshInv(gs.seed, gs.residue, held, start);
    FreshFiled(gs.seed, gs.residue, held, start);
    RunInv(l, calls, n);
    RunFiled(l, calls, n);
    var m := After(l, calls, n);
    FiledStream(Caretaker, m.caretaker);
    FiledStream(Groundworks, m.groundworks);
    ExportValidExact(m);
    ExportIsAccepted(m, now);
  }
}
