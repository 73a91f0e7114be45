/** Every call is fair: entitlements fall only where they are paid, and over every run coins,
    residue and entitlements balance. */
module AllocationFairness {
  import opened AllocationTypes
  import opened AllocationLedger
  import opened AllocationBooks
  import opened AllocationSettle
  import opened AllocationVotes
  import opened AllocationOps
  import opened AllocationPayments
  import opened AllocationBlocks
  import opened AllocationRun
  import opened AllocationEarnings
  import Onward = AllocationOnward
  import Orders
  import Sums

  // ---------------------------------------------------------------- calls that pay nobody

  lemma AdvanceFair(l: Ledger, s: StreamId, now: nat)
    requires Inv(l)
    ensures Fair(l, AdvanceTo(l, s, now), {})
  {
    hide SettleTo, Fair, Inv;
    SettleFair(l, s, if l.At(s).lastUpkeep != 0 then HeldTarget(l.At(s), now) else now);
  }

  lemma SameFair(l: Ledger)
    ensures Fair(l, l, {})
  {
    FairStill(l, l);
  }

  lemma {:induction false} AddContributionsFair(l: Ledger, s: StreamId, cs: seq<Contribution>, now: nat)
    ensures Fair(l, AddContributions(l, s, cs, now), {})
  {
    hide SetOption, Fair, SettleOption;
    if cs == [] {
      SameFair(l);
    } else {
      var front, c := cs[..|cs| - 1], cs[|cs| - 1];
      AddContributionsFair(l, s, front, now);
      var m := AddContributions(l, s, front, now);
      if Live(m.At(s).options, c.option) {
        var o := SettleOption(m.At(s).options[c.option], m.At(s).index);
        SettledDue(m.At(s).options[c.option], m.At(s).index, o.amount + c.amount, o.accrued);
        assert o.(amount := o.amount + c.amount, accrued := o.accrued) == o.(amount := o.amount + c.amount);
        LevelWrite(m, s, c.option, o.(amount := o.amount + c.amount), now);
        FreeThen(l, m, AddContributions(l, s, cs, now));
      }
    }
  }

  /** A change of votes, queue and totals alone. */
  lemma VotesFair(l: Ledger, m: Ledger, s: StreamId)
    requires m == l.With(s, l.At(s).(voters := m.At(s).voters, lapses := m.At(s).lapses, total := m.At(s).total,
                                     epoch := m.At(s).epoch, integrated := m.At(s).integrated))
    ensures Fair(l, m, {})
  {
    hide Fair;
    forall s' ensures m.At(s').options == l.At(s').options && m.At(s').index == l.At(s').index
                      && m.At(s').seqNo == l.At(s').seqNo
    {
      assert s' == s || s' == Other(s);
    }
    FairStill(l, m);
  }

  lemma WriteVoterFair(l: Ledger, s: StreamId, key: VoterKey, rec: Voter, add: seq<Contribution>, keep: bool, now: nat)
    ensures Fair(l, WriteVoter(l, s, key, rec, add, keep, now), {})
  {
    hide AddContributions, Fair, LiveSum, Negated, Previous, Unqueued, LeaseOf;
    var st := l.At(s);
    var off := Negated(Previous(st, key));
    var l1 := l.With(s, st.(lapses := Unqueued(st, key)));
    var l2 := AddContributions(l1, s, off, now);
    var l3 := AddContributions(l2, s, add, now);
    VotesFair(l, l1, s);
    AddContributionsFair(l1, s, off, now);
    AddContributionsFair(l2, s, add, now);
    VotesFair(l3, WriteVoter(l, s, key, rec, add, keep, now), s);
    FreeThen(l, l1, l2);
    FreeThen(l, l2, l3);
    FreeThen(l, l3, WriteVoter(l, s, key, rec, add, keep, now));
  }

  lemma ResyncVoterAtFair(l: Ledger, s: StreamId, key: VoterKey, shares: seq<Share>, weight: int, expiresAt: int,
                          now: nat)
    ensures Fair(l, ResyncVoterAt(l, s, key, shares, weight, expiresAt, now), {})
  {
    hide WriteVoter, Fair;
    var kept := ExistingSplit(l.At(s).options, shares);
    WriteVoterFair(l, s, key, Voter(kept, [], weight, expiresAt, 0), SplitContributions(kept, weight),
                   kept != [] && weight > 0, now);
  }

  lemma ResyncVoterFair(l: Ledger, s: StreamId, key: VoterKey, weight: int, now: nat)
    requires Inv(l)
    ensures Fair(l, ResyncVoter(l, s, key, weight, now), {})
  {
    hide ResyncVoterAt, AdvanceTo, Fair, Inv;
    AdvanceFair(l, s, now);
    var l1 := AdvanceTo(l, s, now);
    var st := l1.At(s);
    VotesFair(l1, DropVoter(l1, s, key), s);
    FreeThen(l, l1, DropVoter(l1, s, key));
    if key in st.voters {
      ResyncVoterAtFair(l1, s, key, st.voters[key].percentages, weight, 0, now);
      FreeThen(l, l1, ResyncVoterAt(l1, s, key, st.voters[key].percentages, weight, 0, now));
    }
  }

  lemma ResyncFromBondedFair(l: Ledger, key: VoterKey, weight: int, bondLeft: bool, now: nat)
    requires Inv(l)
    ensures Fair(l, ResyncFromBonded(l, key, weight, bondLeft, now), {})
  {
    hide ResyncVoterAt, WriteVoter, AdvanceTo, Fair, Inv, ExistingSplit;
    AdvanceFair(l, Groundworks, now);
    var l1 := AdvanceTo(l, Groundworks, now);
    var st := l1.At(Groundworks);
    VotesFair(l1, DropVoter(l1, Groundworks, key), Groundworks);
    FreeThen(l, l1, DropVoter(l1, Groundworks, key));
    if key in st.voters && st.voters[key].epoch == st.epoch {
      var v := st.voters[key];
      var kept := ExistingSplit(st.options, v.percentages);
      ResyncVoterAtFair(l1, Groundworks, key, v.percentages, Clamped(weight), 0, now);
      WriteVoterFair(l1, Groundworks, key, Voter(kept, [], 0, 0, 0), [], kept != [], now);
      FreeThen(l, l1, ResyncVoterKeep(l1, Groundworks, key, v.percentages, Clamped(weight), bondLeft, now));
    }
  }

  lemma {:induction false} ResyncSlashedFair(l: Ledger, vals: seq<Slashed>, now: nat)
    requires Inv(l)
    ensures Fair(l, ResyncSlashed(l, vals, now), {})
  {
    hide ResyncFromBonded, Fair, Inv;
    if vals == [] {
      SameFair(l);
    } else {
      var front, v := vals[..|vals| - 1], vals[|vals| - 1];
      var m := ResyncSlashed(l, front, now);
      ResyncSlashedFair(l, front, now);
      ResyncSlashedInv(l, front, now);
      ResyncFromBondedFair(m, v.key, v.weight, v.bondLeft, now);
      FreeThen(l, m, ResyncSlashed(l, vals, now));
    }
  }

  /** A split or a weighted vote is filed after an advance, or not at all. */
  lemma FilingFair(l: Ledger, s: StreamId, key: VoterKey, shares: seq<Share>, ws: seq<Contribution>, weight: int,
                   lease: int, now: nat)
    requires Inv(l)
    ensures Fair(l, ResyncVoterAt(AdvanceTo(l, s, now), s, key, shares, weight, lease, now), {})
    ensures Fair(l, WriteWeightedVoter(AdvanceTo(l, s, now), s, key, ws, now), {})
    ensures Fair(l, WriteWeightedVoter(l, s, key, ws, now), {})
  {
    hide ResyncVoterAt, AdvanceTo, WriteVoter, Fair, Total, Inv;
    AdvanceFair(l, s, now);
    var l1 := AdvanceTo(l, s, now);
    var rec := Voter([], ws, Total(ws), 0, 0);
    ResyncVoterAtFair(l1, s, key, shares, weight, lease, now);
    FreeThen(l, l1, ResyncVoterAt(l1, s, key, shares, weight, lease, now));
    WriteVoterFair(l1, s, key, rec, ws, ws != [], now);
    FreeThen(l, l1, WriteVoter(l1, s, key, rec, ws, ws != [], now));
    WriteVoterFair(l, s, key, rec, ws, ws != [], now);
  }

  lemma MoveVoterFair(l: Ledger, s: StreamId, from: VoterKey, to: VoterKey, now: nat)
    requires Inv(l)
    ensures Fair(l, MoveVoter(l, s, from, to, now), {})
  {
    hide ResyncVoterAt, AdvanceTo, Fair, Inv;
    AdvanceFair(l, s, now);
    var l1 := AdvanceTo(l, s, now);
    if from in l1.At(s).voters {
      var v := l1.At(s).voters[from];
      ResyncVoterAtFair(l1, s, from, [], 0, 0, now);
      var l2 := ClearVoter(l1, s, from, now);
      FreeThen(l, l1, l2);
      ResyncVoterAtFair(l2, s, to, v.percentages, v.weight, 0, now);
      FreeThen(l, l2, ResyncVoterAt(l2, s, to, v.percentages, v.weight, 0, now));
    }
  }

  lemma {:induction false} RetireAllFair(l: Ledger, s: StreamId, ids: seq<int>, now: nat)
    ensures Fair(l, RetireAll(l, s, ids, now), {})
  {
    hide SetOption, SettleOption, Fair;
    if ids == [] {
      SameFair(l);
    } else {
      var m, id := RetireAll(l, s, ids[..|ids| - 1], now), ids[|ids| - 1];
      RetireAllFair(l, s, ids[..|ids| - 1], now);
      if id in m.At(s).options {
        var o := SettleOption(m.At(s).options[id], m.At(s).index);
        SettledDue(m.At(s).options[id], m.At(s).index, 0, o.accrued);
        assert o.(amount := 0, accrued := o.accrued) == o.(amount := 0);
        LevelWrite(m, s, id, o.(amount := 0), now);
        FreeThen(l, m, RetireAll(l, s, ids, now));
      }
    }
  }

  lemma ResetFair(l: Ledger, s: StreamId, now: nat)
    requires Inv(l)
    ensures Fair(l, ResetAllocations(l, s, now), {})
  {
    hide RetireAll, AdvanceTo, Orders.Ascending, Fair, Inv;
    AdvanceFair(l, s, now);
    var l1 := AdvanceTo(l, s, now);
    var ids := Orders.Ascending(l1.At(s).options.Keys);
    RetireAllFair(l1, s, ids, now);
    var l2 := RetireAll(l1, s, ids, now);
    FreeThen(l, l1, l2);
    VotesFair(l2, ResetAllocations(l, s, now), s);
    FreeThen(l, l2, ResetAllocations(l, s, now));
  }

  lemma AppendOptionFair(l: Ledger, s: StreamId, kind: Kind, recipient: string, claimer: string, now: nat)
    requires Inv(l)
    ensures Fair(l, AppendOption(l, s, kind, recipient, claimer, now), {})
  {
    hide SetOption, Fair, Books, Slack, Votes, LeasesRespected;
    var st := l.At(s);
    var id := st.seqNo + 1;
    var o := AllocationOption(kind, recipient, claimer, 0, 0, st.index, false);
    var l1 := l.With(s, st.(seqNo := id));
    NewOption(l, s, id);
    NumberedFair(l, s, id);
    FreshWrite(l1, s, id, o, now);
    var l2 := SetOption(l1, s, id, o, now);
    FreeThen(l, l1, l2);
    VotesFair(l2, AppendOption(l, s, kind, recipient, claimer, now), s);
    FreeThen(l, l2, AppendOption(l, s, kind, recipient, claimer, now));
  }

  lemma NumberedFair(l: Ledger, s: StreamId, seqNo: nat)
    requires seqNo >= l.At(s).seqNo
    ensures Fair(l, l.With(s, l.At(s).(seqNo := seqNo)), {})
  {
    hide Owed;
    var m := l.With(s, l.At(s).(seqNo := seqNo));
    OwedSame(l.caretaker, m.caretaker);
    OwedSame(l.groundworks, m.groundworks);
    forall s', id ensures Due(m.At(s'), id) == Due(l.At(s'), id) {
      assert s' == s || s' == Other(s);
    }
  }

  /** A new option is entitled to nothing yet. */
  lemma FreshWrite(l: Ledger, s: StreamId, id: int, o: AllocationOption, now: nat)
    requires id !in l.At(s).options && o.amount == 0 && o.accrued == 0
    ensures Fair(l, SetOption(l, s, id, o, now), {})
  {
    hide SetOption, Owed, Rounds, Slots;
    var m := SetOption(l, s, id, o, now);
    SetOptionFrame(l, s, id, o, now);
    WriteOwed(l, m, s, id, o);
    WrittenRounds(l, s, id, o, now);
    WrittenEarns(l, m, s, id, o, {});
    assert l.At(Other(s)) == m.At(Other(s));
  }

  lemma SweepResidueFair(l: Ledger, sinkWorks: bool)
    ensures Fair(l, SweepResidue(l, sinkWorks), {})
  {
    hide Fair;
    FairStill(l, SweepResidue(l, sinkWorks));
  }

  // ---------------------------------------------------------------- calls that pay

  lemma DrawAndPayFair(l: Ledger, s: StreamId, id: int, ppm: int, now: nat)
    requires Inv(l)
    ensures var r := DrawAndPay(l, s, id, ppm, now); r.Done? ==> Fair(l, r.ledger, {(s, id)})
  {
    hide SetOption, AdvanceTo, SettleOption, Drawn, Fair, Inv;
    AdvanceFair(l, s, now);
    var l1 := AdvanceTo(l, s, now);
    var (l2, d) := DrawFromOption(l1, s, id, ppm, now);
    var r := PayOut(l2, d);
    if r.Done? {
      if id in l1.At(s).options {
        var o := SettleOption(l1.At(s).options[id], l1.At(s).index);
        SettledDue(l1.At(s).options[id], l1.At(s).index, o.amount, o.accrued - d);
        PayingWrite(l1, s, id, o.(accrued := o.accrued - d), d, now);
        WrittenRecord(l1, s, id, o.(accrued := o.accrued - d), now);
        DrawnPositive(o, ppm);
        assert r.ledger == l2.(held := l2.held - d);
      } else {
        SameFair(l1);
      }
      PaidLast(l, l1, r.ledger, s, id);
    }
  }

  lemma DrawnPositive(o: AllocationOption, ppm: int)
    ensures Drawn(o, ppm) >= 0
  {
  }

  /** An advance, then a call that pays at most one option. */
  lemma PaidLast(l: Ledger, m: Ledger, n: Ledger, s: StreamId, id: int)
    requires Fair(l, m, {}) && (Fair(m, n, {}) || Fair(m, n, {(s, id)}))
    ensures Fair(l, n, {(s, id)})
  {
    hide Balances, Due;
    BalancesThen(l, m, n);
  }

  lemma ClaimFair(l: Ledger, s: StreamId, id: int, caller: string, now: nat)
    requires Inv(l)
    ensures var r := ClaimAllocation(l, s, id, caller, now); r.Done? ==> Fair(l, r.ledger, {(s, id)})
  {
    hide SetOption, AdvanceTo, SettleOption, Fair, Inv, SameFace;
    var r := ClaimAllocation(l, s, id, caller, now);
    if r.Done? {
      AdvanceFair(l, s, now);
      AdvanceInv(l, s, now);
      var l1 := AdvanceTo(l, s, now);
      var o := SettleOption(l1.At(s).options[id], l1.At(s).index);
      var d := if o.accrued > 0 then o.accrued else 0;
      var n := o.(accrued := o.accrued - d);
      SettledDue(l1.At(s).options[id], l1.At(s).index, o.amount, o.accrued - d);
      PayingWrite(l1, s, id, n, d, now);
      HeldCommutes(l1, s, id, n, d, now);
      assert l1.(held := l1.held - 0) == l1;
      assert r.ledger == SetOption(l1, s, id, n, now).(held := l1.held - d);
      PaidLast(l, l1, r.ledger, s, id);
    }
  }

  lemma StrikeFair(l: Ledger, id: int, now: nat)
    requires Inv(l)
    ensures var r := RemoveGroundworksOption(l, id, now); r.Done? ==> Fair(l, r.ledger, {(Groundworks, id)})
  {
    hide SetOption, AdvanceTo, SettleOption, Fair, Inv;
    var r := RemoveGroundworksOption(l, id, now);
    SameFair(l);
    PaidLast(l, l, l, Groundworks, id);
    if id in l.groundworks.options && !l.groundworks.options[id].removed && r.Done? {
      AdvanceFair(l, Groundworks, now);
      AdvanceInv(l, Groundworks, now);
      var l1 := AdvanceTo(l, Groundworks, now);
      assert l1.groundworks == l1.At(Groundworks) && l1.groundworks.options == l.groundworks.options;
      var o := SettleOption(l1.groundworks.options[id], l1.groundworks.index);
      var n := o.(removed := true, amount := 0, accrued := 0);
      SettledBalance(l1, Groundworks, id);
      StruckDue(l1.groundworks.options[id], l1.groundworks.index);
      PayingWrite(l1, Groundworks, id, n, o.accrued, now);
      var l2 := SetOption(l1, Groundworks, id, n, now);
      WrittenRecord(l1, Groundworks, id, n, now);
      var l3 := l2.(held := l2.held - o.accrued);
      PaidLast(l, l1, l3, Groundworks, id);
      VotesFair(l3, r.ledger, Groundworks);
      FairThen(l, l3, r.ledger, {(Groundworks, id)}, {});
      assert {(Groundworks, id)} + {} == {(Groundworks, id)};
    }
  }

  lemma StruckDue(o: AllocationOption, index: int)
    ensures var n := SettleOption(o, index).(removed := true, amount := 0, accrued := 0);
      SettleOption(n, index).accrued == 0 && SameFace(o, n)
  {
  }

  // ---------------------------------------------------------------- the start of a block

  lemma {:induction false} LapseKeysFair(l: Ledger, s: StreamId, t: int, keys: seq<VoterKey>, now: nat)
    ensures Fair(l, LapseKeys(l, s, t, keys, now), {})
  {
    hide WriteVoter, Fair;
    if keys == [] {
      SameFair(l);
    } else {
      var m, key := LapseKeys(l, s, t, keys[..|keys| - 1], now), keys[|keys| - 1];
      LapseKeysFair(l, s, t, keys[..|keys| - 1], now);
      var m1 := m.With(s, m.At(s).(lapses := m.At(s).lapses - {(t, key)}));
      VotesFair(m, m1, s);
      FreeThen(l, m, m1);
      WriteVoterFair(m1, s, key, Voter([], [], 0, 0, 0), [], false, now);
      FreeThen(l, m1, WriteVoter(m1, s, key, Voter([], [], 0, 0, 0), [], false, now));
    }
  }

  lemma LapseAtFair(l: Ledger, s: StreamId, t: int, now: nat)
    requires Inv(l)
    ensures Fair(l, LapseAt(l, s, t, now), {})
  {
    hide SettleTo, LapseKeys, Orders.Ascending, Fair, Inv;
    var at := t * NANOS_PER_SECOND;
    SameFair(l);
    SettleFair(l, s, at);
    var l1 := if l.At(s).lastUpkeep != 0 && at > l.At(s).lastUpkeep then SettleTo(l, s, at) else l;
    LapseKeysFair(l1, s, t, Orders.Ascending(DueKeys(l1.At(s), t)), now);
    FreeThen(l, l1, LapseAt(l, s, t, now));
  }

  lemma {:induction false} SweepLapsesFair(l: Ledger, s: StreamId, now: nat)
    requires Inv(l)
    ensures Fair(l, SweepLapses(l, s, now), {})
    decreases |DueEntries(l.At(s), Seconds(now))|
  {
    hide SettleTo, LapseAt, Fair, Inv;
    var due := DueTimes(l.At(s), Seconds(now));
    if due == {} {
      SettleFair(l, s, now);
    } else {
      var t := Orders.Least(due);
      FewerDue(l, s, Seconds(now), now);
      var m := LapseAt(l, s, t, now);
      forall e | e in l.At(s).lapses && e.0 <= Seconds(now) ensures t <= e.0 {
        assert e.0 in due;
      }
      LapseAtInv(l, s, t, Seconds(now), now);
      LapseAtFair(l, s, t, now);
      SweepLapsesFair(m, s, now);
      FreeThen(l, m, SweepLapses(m, s, now));
    }
  }

  function Each(s: StreamId, ids: seq<int>): set<(StreamId, int)> {
    set id | id in ids :: (s, id)
  }

  lemma ResolveOneFair(l: Ledger, s: StreamId, id: int, reports: map<int, int>, now: nat)
    ensures Fair(l, ResolveOne(l, s, id, reports, now), {}) || Fair(l, ResolveOne(l, s, id, reports, now), {(s, id)})
  {
    hide SetOption, SettleOption, Fair;
    var st, m := l.At(s), ResolveOne(l, s, id, reports, now);
    if id in st.options {
      var o := SettleOption(st.options[id], st.index);
      var r := Resolved(reports, id, o.accrued);
      SettledDue(st.options[id], st.index, o.amount, o.accrued - r);
      PayingWrite(l, s, id, o.(accrued := o.accrued - r), r, now);
      HeldCommutes(l, s, id, o.(accrued := o.accrued - r), r, now);
    } else {
      VotesFair(l, m, s);
    }
  }

  lemma {:induction false} ResolveAllFair(l: Ledger, s: StreamId, ids: seq<int>, reports: map<int, int>, now: nat)
    ensures Fair(l, ResolveAll(l, s, ids, reports, now), Each(s, ids))
  {
    hide ResolveOne, Fair;
    if ids == [] {
      SameFair(l);
      assert Each(s, ids) == {};
    } else {
      var front, id := ids[..|ids| - 1], ids[|ids| - 1];
      var m := ResolveAll(l, s, front, reports, now);
      ResolveAllFair(l, s, front, reports, now);
      ResolveOneFair(m, s, id, reports, now);
      var p := if Fair(m, ResolveOne(m, s, id, reports, now), {}) then {} else {(s, id)};
      FairThen(l, m, ResolveOne(m, s, id, reports, now), Each(s, front), p);
      assert Each(s, ids) == Each(s, front) + {(s, id)};
      MorePaid(l, ResolveAll(l, s, ids, reports, now), Each(s, front) + p, Each(s, ids));
    }
  }

  lemma MorePaid(l: Ledger, m: Ledger, p: set<(StreamId, int)>, q: set<(StreamId, int)>)
    requires Fair(l, m, p) && p <= q
    ensures Fair(l, m, q)
  {
    hide Balances, Due;
  }

  /** All that is not handled by a module keeps what it earned. */
  ghost predicate Unhandled(l: Ledger, m: Ledger) {
    && Balances(l, m)
    && forall s, id | id in l.At(s).options ::
         && id in m.At(s).options && SameFace(l.At(s).options[id], m.At(s).options[id])
         && (l.At(s).options[id].kind != Integrated ==> Due(m.At(s), id) >= Due(l.At(s), id))
  }

  lemma UnhandledThen(l: Ledger, m: Ledger, n: Ledger)
    requires Unhandled(l, m) && Unhandled(m, n)
    ensures Unhandled(l, n)
  {
    hide Balances, Due;
    BalancesThen(l, m, n);
  }

  lemma ResolveIntegratedFair(l: Ledger, s: StreamId, reports: map<int, int>, now: nat)
    requires Inv(l)
    ensures Unhandled(l, ResolveIntegrated(l, s, reports, now))
  {
    hide SweepLapses, ResolveAll, Fair, Balances, Due, Books, Slack, LeasesRespected, Supported, LeasesQueued, VoterOk;
    SweepLapsesFair(l, s, now);
    SweepLapsesInv(l, s, now);
    var l1 := SweepLapses(l, s, now);
    var ids := Orders.Ascending(l1.At(s).integrated);
    ResolveAllFair(l1, s, ids, reports, now);
    var m := ResolveIntegrated(l, s, reports, now);
    FairThen(l, l1, m, {}, Each(s, ids));
    FairUnhandled(l, m, l1, {} + Each(s, ids));
    assert Votes(l1.At(s));
    HandledKinds(l, l1, s, ids);
  }

  lemma HandledKinds(l: Ledger, l1: Ledger, s: StreamId, ids: seq<int>)
    requires Fair(l, l1, {}) && HandlerSet(l1.At(s)) && forall id | id in ids :: id in l1.At(s).integrated
    ensures forall s', id | id in l.At(s').options && (s', id) in Each(s, ids) ::
      l.At(s').options[id].kind == Integrated
  {
    hide Balances, Due;
  }

  lemma FairUnhandled(l: Ledger, m: Ledger, l1: Ledger, paid: set<(StreamId, int)>)
    requires Fair(l, m, paid)
    ensures (forall s, id | id in l.At(s).options && (s, id) in paid :: l.At(s).options[id].kind == Integrated) ==>
      Unhandled(l, m)
  {
    hide Balances, Due;
  }

  // ---------------------------------------------------------------- prunes

  /** A pruned option takes out of what is owed exactly its balance, which is burned. */
  lemma PrunedBalances(l: Ledger, m: Ledger, s: StreamId, id: int)
    requires Pruned(l, m, s, id) && l.At(s).options[id].amount == 0
    ensures Balances(l, m)
  {
    var a, b := l.At(s), m.At(s);
    assert b.options.Keys == a.options.Keys - {id};
    Sums.Drop(a.options.Keys, id, Dues(a), Dues(b));
    assert Due(a, id) == a.options[id].accrued;
    assert m.At(Other(s)) == l.At(Other(s));
  }

  lemma {:induction false} PruneEntriesBalance(l: Ledger, es: seq<(int, StreamId, int)>)
    requires Inv(l)
    requires forall e | e in es :: e in l.pruneQueue
    requires forall i, j | 0 <= i < j < |es| :: es[i] != es[j]
    ensures Balances(l, PruneEntries(l, es))
  {
    hide Inv, Pruned, PruneEntry, Balances;
    if es == [] {
      SameFair(l);
    } else {
      var front, e := es[..|es| - 1], es[|es| - 1];
      PruneEntriesBalance(l, front);
      PruneEntriesInv(l, front);
      assert e in es && e !in front;
      var m := PruneEntries(l, front);
      PruneEntryInv(m, e);
      DeadAmount(m, e);
      PrunedBalances(m, PruneEntry(m, e), e.1, e.2);
      BalancesThen(l, m, PruneEntry(m, e));
    }
  }

  lemma DeadAmount(l: Ledger, e: (int, StreamId, int))
    requires Inv(l) && e in l.pruneQueue
    ensures e.2 in l.At(e.1).options && l.At(e.1).options[e.2].amount == 0
  {
    ScheduledIsDead(l, e);
  }

  /** The sweep leaves every option that stays exactly as it was. */
  lemma SweepPrunableFair(l: Ledger, now: nat)
    requires Inv(l)
    ensures var m := SweepPrunableOptions(l, now);
      && Balances(l, m)
      && forall s, id | id in m.At(s).options ::
           id in l.At(s).options && SameFace(l.At(s).options[id], m.At(s).options[id])
           && Due(m.At(s), id) == Due(l.At(s), id)
  {
    hide Inv, PruneEntries, Balances, IdleSince, TakeDue;
    var es := TakeDue(l.pruneQueue, Seconds(now), OPTION_PRUNE_SWEEP_LIMIT);
    Onward.Taken(l.pruneQueue, Seconds(now), OPTION_PRUNE_SWEEP_LIMIT);
    PruneEntriesBalance(l, es);
    Onward.SweepRemovesIdle(l, now);
    var m := SweepPrunableOptions(l, now);
    forall s, id | id in m.At(s).options ensures
      id in l.At(s).options && SameFace(l.At(s).options[id], m.At(s).options[id])
      && Due(m.At(s), id) == Due(l.At(s), id)
    {
      assert Onward.SweptStream(l.At(s), m.At(s));
    }
  }

  // ---------------------------------------------------------------- calls and runs

  /** The call pays the option, or may: it draws on it, claims it, strikes it, or asks the
      module that handles it. */
  predicate Pays(l: Ledger, op: Op, s: StreamId, id: int) {
    match op
    case Draw(s', id', _) => s == s' && id == id'
    case ClaimBalance(s', id', _) => s == s' && id == id'
    case Strike(id') => s == Groundworks && id == id'
    case Begin(_, _) => id in l.At(s).options && l.At(s).options[id].kind == Integrated
    case _ => false
  }

  lemma BeginFair(l: Ledger, c: map<int, int>, g: map<int, int>, now: nat)
    requires Inv(l)
    ensures var m := BeginBlock(l, c, g, now);
      && Balances(l, m)
      && forall s, id | id in l.At(s).options && id in m.At(s).options ::
           SameFace(l.At(s).options[id], m.At(s).options[id])
           && (l.At(s).options[id].kind != Integrated ==> Due(m.At(s), id) >= Due(l.At(s), id))
  {
    hide Inv, ResolveIntegrated, SweepPrunableOptions, Balances, Due;
    var l1 := ResolveIntegrated(l, Caretaker, c, now);
    ResolveIntegratedFair(l, Caretaker, c, now);
    ResolveIntegratedInv(l, Caretaker, c, now);
    var l2 := ResolveIntegrated(l1, Groundworks, g, now);
    ResolveIntegratedFair(l1, Groundworks, g, now);
    ResolveIntegratedInv(l1, Groundworks, g, now);
    UnhandledThen(l, l1, l2);
    SweepPrunableFair(l2, now);
    BalancesThen(l, l2, SweepPrunableOptions(l2, now));
  }

  /** No call lowers an entitlement but one that pays it, and every call keeps coins, residue
      and entitlements in balance, up to the rounding of its settlements. */
  lemma StepFair(l: Ledger, op: Op, now: nat)
    requires Inv(l)
    ensures var m := Step(l, op, now);
      && Balances(l, m)
      && forall s, id | id in l.At(s).options && id in m.At(s).options ::
           SameFace(l.At(s).options[id], m.At(s).options[id])
           && (!Pays(l, op, s, id) ==> Due(m.At(s), id) >= Due(l.At(s), id))
  {
    hide Balances, Due, AdvanceTo, AppendOption, ResyncVoterAt, ResyncVoter, ResyncFromBonded, WriteWeightedVoter,
      MoveVoter, DrawAndPay, ClaimAllocation, ResetAllocations, RemoveGroundworksOption, ResyncSlashed, SweepResidue,
      ValidSplit, Positive, Inv, BeginBlock;
    SameFair(l);
    match op
    case Advance(s) => AdvanceFair(l, s, now);
    case AdvanceUntil(s, t) => AdvanceFair(l, s, if t > Seconds(now) then now else t * NANOS_PER_SECOND);
    case AddOption(s, kind, recipient, claimer) => AppendOptionFair(l, s, kind, recipient, claimer, now);
    case VoterSplit(s, key, shares, weight) => FilingFair(l, s, key, shares, [], weight, 0, now);
    case Split(s, key, shares, weight, lease) =>
      FilingFair(l, s, key, shares, [], weight,
        if s == Groundworks && shares != [] then Seconds(now) + lease else 0, now);
    case Resync(s, key, weight) => ResyncVoterFair(l, s, key, weight, now);
    case Bonded(key, weight, bondLeft) => ResyncFromBondedFair(l, key, weight, bondLeft, now);
    case Weighted(s, key, ws) => FilingFair(l, s, key, [], Positive(ws), 0, 0, now);
    case WeightedSettled(s, key, ws) => FilingFair(l, s, key, [], Positive(ws), 0, 0, now);
    case Clear(s, key) => ResyncVoterAtFair(l, s, key, [], 0, 0, now);
    case Move(s, from, to) => MoveVoterFair(l, s, from, to, now);
    case Draw(s, id, ppm) => DrawAndPayFair(l, s, id, ppm, now);
    case ClaimBalance(s, id, caller) => ClaimFair(l, s, id, caller, now);
    case Reset(s) => ResetFair(l, s, now);
    case Strike(id) => StrikeFair(l, id, now);
    case Begin(c, g) => BeginFair(l, c, g, now);
    case End(vals, sinkWorks) =>
      ResyncSlashedFair(l, vals, now);
      SweepResidueFair(ResyncSlashed(l, vals, now), sinkWorks);
      FreeThen(l, ResyncSlashed(l, vals, now), Step(l, op, now));
  }

  /** Over any run, the coins beyond residue and entitlements change by no more than one unit
      an option issued and settlement. */
  lemma {:induction false} RunBalances(l: Ledger, calls: seq<(Op, nat)>, n: nat)
    requires Inv(l) && AdmissibleRun(l, calls) && n <= |calls|
    ensures Balances(l, After(l, calls, n))
  {
    hide Inv, Step, Balances;
    if n == 0 {
      SameFair(l);
    } else {
      var m := After(l, calls, n - 1);
      RunBalances(l, calls, n - 1);
      RunInv(l, calls, n - 1);
      StepFair(m, calls[n - 1].0, calls[n - 1].1);
      BalancesThen(l, m, After(l, calls, n));
    }
  }

  lemma StepEarns(l: Ledger, op: Op, now: nat, s: StreamId, id: int)
    requires Inv(l) && id in l.At(s).options && id in Step(l, op, now).At(s).options && !Pays(l, op, s, id)
    ensures Due(Step(l, op, now).At(s), id) >= Due(l.At(s), id)
  {
    hide Inv, Step, Balances, Due, Pays, SameFace;
    StepFair(l, op, now);
  }

  /** An option is there throughout the first n calls, and none of them pays it. */
  ghost predicate Unpaid(l: Ledger, calls: seq<(Op, nat)>, n: nat, s: StreamId, id: int)
    requires n <= |calls|
  {
    && (forall i | 0 <= i <= n :: id in After(l, calls, i).At(s).options)
    && (forall i | 0 <= i < n :: !Pays(After(l, calls, i), calls[i].0, s, id))
  }

  lemma UnpaidBefore(l: Ledger, calls: seq<(Op, nat)>, n: nat, s: StreamId, id: int)
    requires 0 < n <= |calls| && Unpaid(l, calls, n, s, id)
    ensures Unpaid(l, calls, n - 1, s, id) && !Pays(After(l, calls, n - 1), calls[n - 1].0, s, id)
    ensures id in After(l, calls, n - 1).At(s).options && id in After(l, calls, n).At(s).options
  {
    hide After, Pays;
  }

  lemma NextCall(l: Ledger, calls: seq<(Op, nat)>, n: nat)
    requires 0 < n <= |calls|
    ensures After(l, calls, n) == Step(After(l, calls, n - 1), calls[n - 1].0, calls[n - 1].1)
  {
    hide Step;
  }

  lemma NoCalls(l: Ledger, calls: seq<(Op, nat)>)
    ensures After(l, calls, 0) == l
  {
    hide Step;
  }

  /** Over any run in which an option is there throughout and no call pays it, its
      entitlement never falls. */
  lemma {:induction false} RunEarns(l: Ledger, calls: seq<(Op, nat)>, n: nat, s: StreamId, id: int)
    requires Inv(l) && AdmissibleRun(l, calls) && n <= |calls| && Unpaid(l, calls, n, s, id)
    ensures Due(After(l, calls, n).At(s), id) >= Due(l.At(s), id)
  {
    hide Inv, Step, Due, Pays, AdmissibleRun, Unpaid, After;
    if n == 0 {
      NoCalls(l, calls);
    } else {
      UnpaidBefore(l, calls, n, s, id);
      RunEarns(l, calls, n - 1, s, id);
      RunInv(l, calls, n - 1);
      NextCall(l, calls, n);
      StepEarns(After(l, calls, n - 1), calls[n - 1].0, calls[n - 1].1, s, id);
    }
  }
}
