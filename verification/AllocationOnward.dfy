/** What every call does to a stream's clock, to the coins and to the slate: emission only
    for time spent over a weight, no coins but emission coming in, and no option removed but
    by the sweep of idle ones. */
module AllocationOnward {
  import opened AllocationTypes
  import opened AllocationLedger
  import opened AllocationBooks
  import opened AllocationSettle
  import opened AllocationVotes
  import opened AllocationOps
  import opened AllocationPayments
  import opened AllocationBlocks
  import opened AllocationRun
  import Orders

  // ---------------------------------------------------------------- histories

  /** What the settlements of a stream minted, the time they were over, and their number. */
  function Rewards(h: seq<Event>, s: StreamId): int {
    if h == [] then 0 else
    var e := h[|h| - 1];
    Rewards(h[..|h| - 1], s) + if e.Settled? && e.stream == s then e.reward else 0
  }

  function TimeWeighted(h: seq<Event>, s: StreamId): int {
    if h == [] then 0 else
    var e := h[|h| - 1];
    TimeWeighted(h[..|h| - 1], s) + if e.Settled? && e.stream == s then e.to - e.from else 0
  }

  /** The time that passed without a weight. */
  function TimeIdle(h: seq<Event>, s: StreamId): int {
    if h == [] then 0 else
    var e := h[|h| - 1];
    TimeIdle(h[..|h| - 1], s) + if e.Idled? && e.stream == s then e.to - e.from else 0
  }

  function Settles(h: seq<Event>, s: StreamId): nat {
    if h == [] then 0 else
    var e := h[|h| - 1];
    Settles(h[..|h| - 1], s) + if e.Settled? && e.stream == s then 1 else 0
  }

  /** Every settlement minted its own interval's emission. */
  ghost predicate Timed(h: seq<Event>) {
    forall e | e in h && e.Settled? :: e.from <= e.to && e.reward == Reward(e.from, e.to)
  }

  /** So the emission is that of the time spent over a weight, never over, and short of it
      by less than one unit a settlement. */
  lemma {:induction false} TimedBounds(h: seq<Event>, s: StreamId)
    requires Timed(h)
    ensures NANOS_PER_SECOND * Rewards(h, s) <= EMISSION_PER_SECOND * TimeWeighted(h, s)
    ensures EMISSION_PER_SECOND * TimeWeighted(h, s)
      <= NANOS_PER_SECOND * (Rewards(h, s) + Settles(h, s)) - Settles(h, s)
  {
    if h != [] {
      assert h[|h| - 1] in h;
      TimedBounds(h[..|h| - 1], s);
    }
  }

  // ---------------------------------------------------------------- the relations

  /** No cursor is before the epoch of time. */
  predicate Started(l: Ledger) {
    l.caretaker.lastUpkeep >= 0 && l.groundworks.lastUpkeep >= 0
  }

  /** A cursor only moves on, by the time settled over a weight and the time without one;
      the move that sets it is neither. */
  ghost predicate ClockAt(l: Ledger, m: Ledger, s: StreamId) {
    var weighted := TimeWeighted(m.history, s) - TimeWeighted(l.history, s);
    var idle := TimeIdle(m.history, s) - TimeIdle(l.history, s);
    var moved := m.At(s).lastUpkeep - l.At(s).lastUpkeep;
    && 0 <= l.At(s).lastUpkeep && 0 <= moved && 0 <= weighted && 0 <= idle
    && weighted + idle <= moved
    && (l.At(s).lastUpkeep > 0 ==> weighted + idle == moved)
  }

  /** Coins come in by emission alone. */
  ghost predicate Coins(l: Ledger, m: Ledger) {
    m.held - l.held <= Rewards(m.history, Caretaker) - Rewards(l.history, Caretaker)
                       + Rewards(m.history, Groundworks) - Rewards(l.history, Groundworks)
  }

  ghost predicate Clock(l: Ledger, m: Ledger) {
    && Coins(l, m)
    && (Started(l) ==>
      ClockAt(l, m, Caretaker) && ClockAt(l, m, Groundworks) && (Timed(l.history) ==> Timed(m.history)))
  }

  /** No option is gone. */
  ghost predicate Keeps(l: Ledger, m: Ledger) {
    l.caretaker.options.Keys <= m.caretaker.options.Keys && l.groundworks.options.Keys <= m.groundworks.options.Keys
  }

  ghost predicate Onward(l: Ledger, m: Ledger) {
    Clock(l, m) && Keeps(l, m)
  }

  lemma Then(l: Ledger, m: Ledger, n: Ledger)
    requires Onward(l, m) && Onward(m, n)
    ensures Onward(l, n)
  {
  }

  lemma ClockThen(l: Ledger, m: Ledger, n: Ledger)
    requires Clock(l, m) && Clock(m, n)
    ensures Clock(l, n)
  {
  }

  /** Nothing a clock or a slate shows was touched. */
  lemma Still(l: Ledger, m: Ledger)
    requires Keeps(l, m) && m.history == l.history && m.held <= l.held
    requires m.caretaker.lastUpkeep == l.caretaker.lastUpkeep && m.groundworks.lastUpkeep == l.groundworks.lastUpkeep
    ensures Onward(l, m)
  {
  }

  // ---------------------------------------------------------------- the writers

  lemma Appended(h: seq<Event>, e: Event, s: StreamId)
    ensures TimeWeighted(h + [e], s) == TimeWeighted(h, s) + if e.Settled? && e.stream == s then e.to - e.from else 0
    ensures TimeIdle(h + [e], s) == TimeIdle(h, s) + if e.Idled? && e.stream == s then e.to - e.from else 0
    ensures Rewards(h + [e], s) == Rewards(h, s) + if e.Settled? && e.stream == s then e.reward else 0
  {
    assert (h + [e])[..|h|] == h;
  }

  lemma SetOptionOnward(l: Ledger, s: StreamId, id: int, o: AllocationOption, now: nat)
    ensures Onward(l, SetOption(l, s, id, o, now))
  {
    hide SetOption, TimeWeighted, TimeIdle, Rewards;
    SetOptionFrame(l, s, id, o, now);
    Appended(l.history, Wrote(Seconds(now), s, id, o), Caretaker);
    Appended(l.history, Wrote(Seconds(now), s, id, o), Groundworks);
  }

  lemma SettleToOnward(l: Ledger, s: StreamId, now: int)
    requires now >= 0 || l.At(s).lastUpkeep != 0
    ensures Onward(l, SettleTo(l, s, now))
  {
    hide SettleTo, TimeWeighted, TimeIdle, Rewards, CountedLeases;
    SettleToFrame(l, s, now);
    var st := l.At(s);
    Moved(l, s, now);
    if 0 != st.lastUpkeep < now {
      Appended(l.history, Passing(st, s, now), Caretaker);
      Appended(l.history, Passing(st, s, now), Groundworks);
    }
  }

  /** How the interval up to a settlement is recorded. */
  function Passing(st: Stream, s: StreamId, now: int): Event
    requires st.lastUpkeep <= now
  {
    if st.total > 0 then Settled(s, st.lastUpkeep, now, Reward(st.lastUpkeep, now), CountedLeases(st))
    else Idled(s, st.lastUpkeep, now)
  }

  lemma Moved(l: Ledger, s: StreamId, now: int)
    ensures var m := SettleTo(l, s, now); var st := l.At(s); var e := 0 != st.lastUpkeep < now;
      && m.At(s).lastUpkeep == (if st.lastUpkeep != 0 && now <= st.lastUpkeep then st.lastUpkeep else now)
      && m.history == (if e then l.history + [Passing(st, s, now)] else l.history)
      && m.held == l.held + if e && st.total > 0 then Reward(st.lastUpkeep, now) else 0
  {
  }

  /** A settlement counts its whole interval as weighted when the stream has weight, and
      mints its emission; else it counts it as idle. */
  lemma SettleTime(l: Ledger, s: StreamId, now: int)
    requires 0 < l.At(s).lastUpkeep < now
    ensures var m := SettleTo(l, s, now); var moved := m.At(s).lastUpkeep - l.At(s).lastUpkeep;
      && TimeWeighted(m.history, s) - TimeWeighted(l.history, s) == (if l.At(s).total > 0 then moved else 0)
      && TimeIdle(m.history, s) - TimeIdle(l.history, s) == (if l.At(s).total > 0 then 0 else moved)
      && m.held - l.held == Rewards(m.history, s) - Rewards(l.history, s)
  {
    hide SettleTo, TimeWeighted, TimeIdle, Rewards, CountedLeases;
    Moved(l, s, now);
    Appended(l.history, Passing(l.At(s), s, now), s);
  }

  lemma AdvanceOnward(l: Ledger, s: StreamId, now: nat)
    ensures Onward(l, AdvanceTo(l, s, now))
  {
    hide SettleTo, Onward;
    if l.At(s).lastUpkeep != 0 {
      SettleToOnward(l, s, HeldTarget(l.At(s), now));
    } else {
      SettleToOnward(l, s, now);
    }
  }

  lemma AppendOptionOnward(l: Ledger, s: StreamId, kind: Kind, recipient: string, claimer: string, now: nat)
    ensures Onward(l, AppendOption(l, s, kind, recipient, claimer, now))
  {
    hide SetOption, Clock;
    var st := l.At(s);
    var id := st.seqNo + 1;
    var l1 := l.With(s, st.(seqNo := id));
    var l2 := SetOption(l1, s, id, AllocationOption(kind, recipient, claimer, 0, 0, st.index, false), now);
    Still(l, l1);
    SetOptionOnward(l1, s, id, AllocationOption(kind, recipient, claimer, 0, 0, st.index, false), now);
    Still(l2, AppendOption(l, s, kind, recipient, claimer, now));
    Then(l, l1, l2);
    Then(l, l2, AppendOption(l, s, kind, recipient, claimer, now));
  }

  lemma {:induction false} AddContributionsOnward(l: Ledger, s: StreamId, cs: seq<Contribution>, now: nat)
    ensures Onward(l, AddContributions(l, s, cs, now))
  {
    hide SetOption, Onward;
    if cs == [] {
      Unmoved(l);
    } else {
      var front, c := cs[..|cs| - 1], cs[|cs| - 1];
      AddContributionsOnward(l, s, front, now);
      var m := AddContributions(l, s, front, now);
      if Live(m.At(s).options, c.option) {
        var o := SettleOption(m.At(s).options[c.option], m.At(s).index);
        SetOptionOnward(m, s, c.option, o.(amount := o.amount + c.amount), now);
        Then(l, m, AddContributions(l, s, cs, now));
      }
    }
  }

  lemma Unmoved(l: Ledger)
    ensures Onward(l, l)
  {
  }

  lemma WriteVoterOnward(l: Ledger, s: StreamId, key: VoterKey, rec: Voter, add: seq<Contribution>, keep: bool,
                         now: nat)
    ensures Onward(l, WriteVoter(l, s, key, rec, add, keep, now))
  {
    hide AddContributions, Clock, LiveSum, Negated, Previous, Unqueued, LeaseOf;
    var st := l.At(s);
    var off := Negated(Previous(st, key));
    var l1 := l.With(s, st.(lapses := Unqueued(st, key)));
    var l2 := AddContributions(l1, s, off, now);
    var l3 := AddContributions(l2, s, add, now);
    Still(l, l1);
    AddContributionsOnward(l1, s, off, now);
    AddContributionsOnward(l2, s, add, now);
    Still(l3, WriteVoter(l, s, key, rec, add, keep, now));
    Then(l, l1, l2);
    Then(l, l2, l3);
    Then(l, l3, WriteVoter(l, s, key, rec, add, keep, now));
  }

  lemma ResyncVoterAtOnward(l: Ledger, s: StreamId, key: VoterKey, shares: seq<Share>, weight: int, expiresAt: int,
                            now: nat)
    ensures Onward(l, ResyncVoterAt(l, s, key, shares, weight, expiresAt, now))
  {
    hide WriteVoter, Onward;
    var kept := ExistingSplit(l.At(s).options, shares);
    WriteVoterOnward(l, s, key, Voter(kept, [], weight, expiresAt, 0), SplitContributions(kept, weight),
                     kept != [] && weight > 0, now);
  }

  lemma ResyncVoterOnward(l: Ledger, s: StreamId, key: VoterKey, weight: int, now: nat)
    ensures Onward(l, ResyncVoter(l, s, key, weight, now))
  {
    hide ResyncVoterAt, AdvanceTo, Clock;
    AdvanceOnward(l, s, now);
    var l1 := AdvanceTo(l, s, now);
    var st := l1.At(s);
    Still(l1, DropVoter(l1, s, key));
    Then(l, l1, DropVoter(l1, s, key));
    if key in st.voters {
      ResyncVoterAtOnward(l1, s, key, st.voters[key].percentages, weight, 0, now);
      Then(l, l1, ResyncVoterAt(l1, s, key, st.voters[key].percentages, weight, 0, now));
    }
  }

  lemma ResyncVoterKeepOnward(l: Ledger, s: StreamId, key: VoterKey, shares: seq<Share>, weight: int, keepZero: bool,
                              now: nat)
    ensures Onward(l, ResyncVoterKeep(l, s, key, shares, weight, keepZero, now))
  {
    hide ResyncVoterAt, WriteVoter, Onward;
    ResyncVoterAtOnward(l, s, key, shares, weight, 0, now);
    var kept := ExistingSplit(l.At(s).options, shares);
    WriteVoterOnward(l, s, key, Voter(kept, [], 0, 0, 0), [], kept != [], now);
  }

  lemma ResyncFromBondedOnward(l: Ledger, key: VoterKey, weight: int, bondLeft: bool, now: nat)
    ensures Onward(l, ResyncFromBonded(l, key, weight, bondLeft, now))
  {
    hide ResyncVoterKeep, AdvanceTo, Clock;
    AdvanceOnward(l, Groundworks, now);
    var l1 := AdvanceTo(l, Groundworks, now);
    var st := l1.At(Groundworks);
    Still(l1, DropVoter(l1, Groundworks, key));
    Then(l, l1, DropVoter(l1, Groundworks, key));
    if key in st.voters {
      var v := st.voters[key];
      ResyncVoterKeepOnward(l1, Groundworks, key, v.percentages, Clamped(weight), bondLeft, now);
      Then(l, l1, ResyncVoterKeep(l1, Groundworks, key, v.percentages, Clamped(weight), bondLeft, now));
    }
  }

  lemma {:induction false} ResyncSlashedOnward(l: Ledger, vals: seq<Slashed>, now: nat)
    ensures Onward(l, ResyncSlashed(l, vals, now))
  {
    hide ResyncFromBonded, Onward;
    if vals == [] {
      Unmoved(l);
    } else {
      var m, v := ResyncSlashed(l, vals[..|vals| - 1], now), vals[|vals| - 1];
      ResyncSlashedOnward(l, vals[..|vals| - 1], now);
      ResyncFromBondedOnward(m, v.key, v.weight, v.bondLeft, now);
      Then(l, m, ResyncSlashed(l, vals, now));
    }
  }

  /** A split or a weighted vote is filed after an advance, or not at all. */
  lemma FilingOnward(l: Ledger, s: StreamId, key: VoterKey, shares: seq<Share>, ws: seq<Contribution>, weight: int,
                     lease: int, now: nat)
    ensures Onward(l, ResyncVoterAt(AdvanceTo(l, s, now), s, key, shares, weight, lease, now))
    ensures Onward(l, WriteWeightedVoter(AdvanceTo(l, s, now), s, key, ws, now))
    ensures Onward(l, WriteWeightedVoter(l, s, key, ws, now))
  {
    hide ResyncVoterAt, AdvanceTo, WriteVoter, Onward, Total;
    AdvanceOnward(l, s, now);
    var l1 := AdvanceTo(l, s, now);
    var rec := Voter([], ws, Total(ws), 0, 0);
    ResyncVoterAtOnward(l1, s, key, shares, weight, lease, now);
    Then(l, l1, ResyncVoterAt(l1, s, key, shares, weight, lease, now));
    WriteVoterOnward(l1, s, key, rec, ws, ws != [], now);
    Then(l, l1, WriteVoter(l1, s, key, rec, ws, ws != [], now));
    WriteVoterOnward(l, s, key, rec, ws, ws != [], now);
  }

  lemma MoveVoterOnward(l: Ledger, s: StreamId, from: VoterKey, to: VoterKey, now: nat)
    ensures Onward(l, MoveVoter(l, s, from, to, now))
  {
    hide ResyncVoterAt, AdvanceTo, Onward;
    AdvanceOnward(l, s, now);
    var l1 := AdvanceTo(l, s, now);
    if from in l1.At(s).voters {
      var v := l1.At(s).voters[from];
      ResyncVoterAtOnward(l1, s, from, [], 0, 0, now);
      var l2 := ClearVoter(l1, s, from, now);
      Then(l, l1, l2);
      ResyncVoterAtOnward(l2, s, to, v.percentages, v.weight, 0, now);
      Then(l, l2, ResyncVoterAt(l2, s, to, v.percentages, v.weight, 0, now));
    }
  }

  lemma DrawAndPayOnward(l: Ledger, s: StreamId, id: int, ppm: int, now: nat)
    ensures var r := DrawAndPay(l, s, id, ppm, now); r.Done? ==> Onward(l, r.ledger)
  {
    hide SetOption, AdvanceTo, SettleOption, Drawn, Clock;
    AdvanceOnward(l, s, now);
    var l1 := AdvanceTo(l, s, now);
    var (l2, d) := DrawFromOption(l1, s, id, ppm, now);
    if id in l1.At(s).options {
      var o := SettleOption(l1.At(s).options[id], l1.At(s).index);
      SetOptionOnward(l1, s, id, o.(accrued := o.accrued - d), now);
    } else {
      Unmoved(l1);
    }
    Then(l, l1, l2);
    var r := PayOut(l2, d);
    if r.Done? {
      Still(l2, r.ledger);
      Then(l, l2, r.ledger);
    }
  }

  lemma ClaimOnward(l: Ledger, s: StreamId, id: int, caller: string, now: nat)
    ensures var r := ClaimAllocation(l, s, id, caller, now); r.Done? ==> Onward(l, r.ledger)
  {
    hide SetOption, AdvanceTo, SettleOption, Clock;
    if Claimable(l.At(s), id, caller) {
      AdvanceOnward(l, s, now);
      var l1 := AdvanceTo(l, s, now);
      var o := SettleOption(l.At(s).options[id], l1.At(s).index);
      var paid := PayOut(l1, o.accrued);
      if paid.Done? {
        Still(l1, paid.ledger);
        Then(l, l1, paid.ledger);
        var n := if o.accrued > 0 then o.(accrued := 0) else o;
        SetOptionOnward(paid.ledger, s, id, n, now);
        Then(l, paid.ledger, SetOption(paid.ledger, s, id, n, now));
      }
    }
  }

  lemma {:induction false} RetireAllOnward(l: Ledger, s: StreamId, ids: seq<int>, now: nat)
    ensures Onward(l, RetireAll(l, s, ids, now))
  {
    hide SetOption, SettleOption, Onward;
    if ids == [] {
      Unmoved(l);
    } else {
      var m, id := RetireAll(l, s, ids[..|ids| - 1], now), ids[|ids| - 1];
      RetireAllOnward(l, s, ids[..|ids| - 1], now);
      if id in m.At(s).options {
        SetOptionOnward(m, s, id, SettleOption(m.At(s).options[id], m.At(s).index).(amount := 0), now);
        Then(l, m, RetireAll(l, s, ids, now));
      }
    }
  }

  lemma ResetOnward(l: Ledger, s: StreamId, now: nat)
    ensures Onward(l, ResetAllocations(l, s, now))
  {
    hide RetireAll, AdvanceTo, Orders.Ascending, Clock;
    AdvanceOnward(l, s, now);
    var l1 := AdvanceTo(l, s, now);
    var ids := Orders.Ascending(l1.At(s).options.Keys);
    RetireAllOnward(l1, s, ids, now);
    var l2 := RetireAll(l1, s, ids, now);
    Then(l, l1, l2);
    Still(l2, ResetAllocations(l, s, now));
    Then(l, l2, ResetAllocations(l, s, now));
  }

  lemma StrikeOnward(l: Ledger, id: int, now: nat)
    ensures var r := RemoveGroundworksOption(l, id, now); r.Done? ==> Onward(l, r.ledger)
  {
    hide SetOption, AdvanceTo, SettleOption, Clock;
    Unmoved(l);
    var r := RemoveGroundworksOption(l, id, now);
    if id in l.groundworks.options && !l.groundworks.options[id].removed && r.Done? {
      AdvanceOnward(l, Groundworks, now);
      var l1 := AdvanceTo(l, Groundworks, now);
      var o := SettleOption(l.groundworks.options[id], l1.groundworks.index).(removed := true, amount := 0,
        accrued := 0);
      SetOptionOnward(l1, Groundworks, id, o, now);
      var l2 := SetOption(l1, Groundworks, id, o, now);
      Then(l, l1, l2);
      Still(l2, r.ledger);
      Then(l, l2, r.ledger);
    }
  }

  lemma SweepResidueOnward(l: Ledger, sinkWorks: bool)
    ensures Onward(l, SweepResidue(l, sinkWorks))
  {
    Still(l, SweepResidue(l, sinkWorks));
  }

  // ---------------------------------------------------------------- the start of a block

  lemma {:induction false} LapseKeysOnward(l: Ledger, s: StreamId, t: int, keys: seq<VoterKey>, now: nat)
    ensures Onward(l, LapseKeys(l, s, t, keys, now))
  {
    hide WriteVoter, Clock;
    if keys == [] {
      Unmoved(l);
    } else {
      var m, key := LapseKeys(l, s, t, keys[..|keys| - 1], now), keys[|keys| - 1];
      LapseKeysOnward(l, s, t, keys[..|keys| - 1], now);
      var m1 := m.With(s, m.At(s).(lapses := m.At(s).lapses - {(t, key)}));
      Still(m, m1);
      Then(l, m, m1);
      WriteVoterOnward(m1, s, key, Voter([], [], 0, 0, 0), [], false, now);
      Then(l, m1, WriteVoter(m1, s, key, Voter([], [], 0, 0, 0), [], false, now));
    }
  }

  lemma LapseAtOnward(l: Ledger, s: StreamId, t: int, now: nat)
    ensures Onward(l, LapseAt(l, s, t, now))
  {
    hide SettleTo, LapseKeys, Orders.Ascending, Onward;
    var at := t * NANOS_PER_SECOND;
    Unmoved(l);
    if l.At(s).lastUpkeep != 0 {
      SettleToOnward(l, s, at);
    }
    var l1 := if l.At(s).lastUpkeep != 0 && at > l.At(s).lastUpkeep then SettleTo(l, s, at) else l;
    LapseKeysOnward(l1, s, t, Orders.Ascending(DueKeys(l1.At(s), t)), now);
    Then(l, l1, LapseAt(l, s, t, now));
  }

  lemma {:induction false} SweepLapsesOnward(l: Ledger, s: StreamId, now: nat)
    ensures Onward(l, SweepLapses(l, s, now))
    decreases |DueEntries(l.At(s), Seconds(now))|
  {
    hide SettleTo, LapseAt, Onward;
    var due := DueTimes(l.At(s), Seconds(now));
    if due == {} {
      SettleToOnward(l, s, now);
    } else {
      FewerDue(l, s, Seconds(now), now);
      var m := LapseAt(l, s, Orders.Least(due), now);
      LapseAtOnward(l, s, Orders.Least(due), now);
      SweepLapsesOnward(m, s, now);
      Then(l, m, SweepLapses(m, s, now));
    }
  }

  lemma {:induction false} ResolveAllOnward(l: Ledger, s: StreamId, ids: seq<int>, reports: map<int, int>, now: nat)
    ensures Onward(l, ResolveAll(l, s, ids, reports, now))
  {
    hide SetOption, SettleOption, Clock;
    if ids == [] {
      Unmoved(l);
    } else {
      var m, id := ResolveAll(l, s, ids[..|ids| - 1], reports, now), ids[|ids| - 1];
      ResolveAllOnward(l, s, ids[..|ids| - 1], reports, now);
      var n := ResolveAll(l, s, ids, reports, now);
      if id in m.At(s).options {
        var o := SettleOption(m.At(s).options[id], m.At(s).index);
        var r := Resolved(reports, id, o.accrued);
        var m1 := m.(held := m.held - r);
        Still(m, m1);
        Then(l, m, m1);
        SetOptionOnward(m1, s, id, o.(accrued := o.accrued - r), now);
        Then(l, m1, n);
      } else {
        Still(m, n);
        Then(l, m, n);
      }
    }
  }

  lemma ResolveIntegratedOnward(l: Ledger, s: StreamId, reports: map<int, int>, now: nat)
    ensures Onward(l, ResolveIntegrated(l, s, reports, now))
  {
    hide SweepLapses, ResolveAll, Orders.Ascending, Onward;
    SweepLapsesOnward(l, s, now);
    var l1 := SweepLapses(l, s, now);
    ResolveAllOnward(l1, s, Orders.Ascending(l1.At(s).integrated), reports, now);
    Then(l, l1, ResolveIntegrated(l, s, reports, now));
  }

  // ---------------------------------------------------------------- the sweep of idle options

  /** What a sweep may do: remove options of the given entries, burning their balances. */
  ghost predicate Swept(l: Ledger, m: Ledger, es: seq<(int, StreamId, int)>) {
    && l.held - m.held == l.summedAccrued - m.summedAccrued >= 0
    && m.residue == l.residue && m.history == l.history
    && (forall s :: SweptStream(l.At(s), m.At(s)))
    && (forall s, id | id in l.At(s).options && id !in m.At(s).options :: exists e | e in es :: e.1 == s && e.2 == id)
  }

  /** Options may go; those that stay, the votes, the totals and the clock do not change. */
  ghost predicate SweptStream(a: Stream, b: Stream) {
    && b == a.(options := b.options, integrated := b.integrated, pruneDue := b.pruneDue)
    && b.options.Keys <= a.options.Keys && forall id | id in b.options :: b.options[id] == a.options[id]
  }

  lemma SweptMore(l: Ledger, m: Ledger, n: Ledger, es: seq<(int, StreamId, int)>, e: (int, StreamId, int))
    requires Swept(l, m, es) && Pruned(m, n, e.1, e.2) && m.At(e.1).options[e.2].accrued >= 0
    ensures Swept(l, n, es + [e])
  {
    var fs := es + [e];
    forall s, id | id in l.At(s).options && id !in n.At(s).options ensures exists f | f in fs :: f.1 == s && f.2 == id {
      if id in m.At(s).options {
        assert s == e.1 || s == Other(e.1);
        assert e in fs;
      } else {
        var f :| f in es && f.1 == s && f.2 == id;
        assert f in fs;
      }
    }
    forall s ensures SweptStream(l.At(s), n.At(s)) {
      assert SweptStream(l.At(s), m.At(s));
      assert s == e.1 || s == Other(e.1);
    }
  }

  lemma {:induction false} PruneEntriesSwept(l: Ledger, es: seq<(int, StreamId, int)>)
    requires Inv(l)
    requires forall e | e in es :: e in l.pruneQueue
    requires forall i, j | 0 <= i < j < |es| :: es[i] != es[j]
    ensures Swept(l, PruneEntries(l, es), es)
  {
    hide Inv, PruneEntry, Swept, Pruned;
    if es == [] {
      SweptNone(l);
    } else {
      var front, e := es[..|es| - 1], es[|es| - 1];
      assert forall x | x in front :: x in es;
      PruneEntriesSwept(l, front);
      PruneEntriesInv(l, front);
      var m := PruneEntries(l, front);
      assert e in es && e !in front;
      PruneEntryInv(m, e);
      PrunedBalance(m, PruneEntry(m, e), e.1, e.2);
      SweptMore(l, m, PruneEntry(m, e), front, e);
      assert front + [e] == es;
    }
  }

  lemma SweptNone(l: Ledger)
    ensures Swept(l, l, [])
  {
  }

  lemma PrunedBalance(l: Ledger, m: Ledger, s: StreamId, id: int)
    requires Inv(l) && Pruned(l, m, s, id)
    ensures id in l.At(s).options && l.At(s).options[id].accrued >= 0
  {
    SplitInv(l);
    StreamOptionOk(l.At(s), id);
  }

  /** The sweep removes only options idle for the whole grace period by the block's own
      clock, burns exactly what they had accrued, and moves no vote, total or cursor. */
  lemma SweepRemovesIdle(l: Ledger, now: nat)
    requires Inv(l)
    ensures var m := SweepPrunableOptions(l, now);
      && l.held - m.held == l.summedAccrued - m.summedAccrued >= 0
      && m.residue == l.residue && m.history == l.history
      && (forall s :: SweptStream(l.At(s), m.At(s)))
      && forall s, id | id in l.At(s).options && id !in m.At(s).options ::
           exists t | t <= Seconds(now) - OPTION_IDLE_GRACE :: IdleSince(m.history, s, id, t)
  {
    hide Inv, PruneEntries, SweptStream, IdleSince, TakeDue;
    var es := TakeDue(l.pruneQueue, Seconds(now), OPTION_PRUNE_SWEEP_LIMIT);
    Taken(l.pruneQueue, Seconds(now), OPTION_PRUNE_SWEEP_LIMIT);
    PruneEntriesSwept(l, es);
    var m := SweepPrunableOptions(l, now);
    forall s, id | id in l.At(s).options && id !in m.At(s).options
      ensures exists t | t <= Seconds(now) - OPTION_IDLE_GRACE :: IdleSince(m.history, s, id, t)
    {
      var e :| e in es && e.1 == s && e.2 == id;
      PruneEntryInv(l, e);
      assert IdleSince(m.history, s, id, e.0 - OPTION_IDLE_GRACE);
    }
  }

  lemma Taken(q: set<(int, StreamId, int)>, now: int, n: nat)
    ensures var es := TakeDue(q, now, n);
      (forall e | e in es :: e in q && e.0 <= now) && forall i, j | 0 <= i < j < |es| :: es[i] != es[j]
  {
  }

  lemma SweepClock(l: Ledger, now: nat)
    requires Inv(l)
    ensures Clock(l, SweepPrunableOptions(l, now))
  {
    hide Inv, SweepPrunableOptions, IdleSince;
    SweepRemovesIdle(l, now);
    var m := SweepPrunableOptions(l, now);
    assert SweptStream(l.At(Caretaker), m.At(Caretaker)) && SweptStream(l.At(Groundworks), m.At(Groundworks));
  }

  // ---------------------------------------------------------------- calls and runs

  lemma BeginBlockParts(l: Ledger, c: map<int, int>, g: map<int, int>, now: nat) returns (r: Ledger)
    requires Inv(l)
    ensures Onward(l, r) && Inv(r) && BeginBlock(l, c, g, now) == SweepPrunableOptions(r, now)
  {
    hide Inv, ResolveIntegrated, SweepPrunableOptions, Onward;
    ResolveIntegratedOnward(l, Caretaker, c, now);
    ResolveIntegratedInv(l, Caretaker, c, now);
    var l1 := ResolveIntegrated(l, Caretaker, c, now);
    ResolveIntegratedOnward(l1, Groundworks, g, now);
    ResolveIntegratedInv(l1, Groundworks, g, now);
    r := ResolveIntegrated(l1, Groundworks, g, now);
    Then(l, l1, r);
  }

  /** Every call but the start of a block keeps every option. */
  lemma StepOnward(l: Ledger, op: Op, now: nat)
    requires !op.Begin?
    ensures Onward(l, Step(l, op, now))
  {
    hide Onward, AdvanceTo, AppendOption, ResyncVoterAt, ResyncVoter, ResyncFromBonded, WriteWeightedVoter,
      MoveVoter, DrawAndPay, ClaimAllocation, ResetAllocations, RemoveGroundworksOption, ResyncSlashed, SweepResidue,
      ValidSplit, Positive;
    Unmoved(l);
    match op
    case Advance(s) => AdvanceOnward(l, s, now);
    case AdvanceUntil(s, t) => AdvanceOnward(l, s, if t > Seconds(now) then now else t * NANOS_PER_SECOND);
    case AddOption(s, kind, recipient, claimer) => AppendOptionOnward(l, s, kind, recipient, claimer, now);
    case VoterSplit(s, key, shares, weight) => FilingOnward(l, s, key, shares, [], weight, 0, now);
    case Split(s, key, shares, weight, lease) =>
      FilingOnward(l, s, key, shares, [], weight,
        if s == Groundworks && shares != [] then Seconds(now) + lease else 0, now);
    case Resync(s, key, weight) => ResyncVoterOnward(l, s, key, weight, now);
    case Bonded(key, weight, bondLeft) => ResyncFromBondedOnward(l, key, weight, bondLeft, now);
    case Weighted(s, key, ws) => FilingOnward(l, s, key, [], Positive(ws), 0, 0, now);
    case WeightedSettled(s, key, ws) => FilingOnward(l, s, key, [], Positive(ws), 0, 0, now);
    case Clear(s, key) => ResyncVoterAtOnward(l, s, key, [], 0, 0, now);
    case Move(s, from, to) => MoveVoterOnward(l, s, from, to, now);
    case Draw(s, id, ppm) => DrawAndPayOnward(l, s, id, ppm, now);
    case ClaimBalance(s, id, caller) => ClaimOnward(l, s, id, caller, now);
    case Reset(s) => ResetOnward(l, s, now);
    case Strike(id) => StrikeOnward(l, id, now);
    case End(vals, sinkWorks) =>
      ResyncSlashedOnward(l, vals, now);
      SweepResidueOnward(ResyncSlashed(l, vals, now), sinkWorks);
      Then(l, ResyncSlashed(l, vals, now), Step(l, op, now));
  }

  /** An option is removed only at the start of a block, after the whole grace period
      without a write that brought it back to life. */
  lemma RemovedWasIdle(l: Ledger, op: Op, now: nat, s: StreamId, id: int)
    requires Inv(l) && id in l.At(s).options && id !in Step(l, op, now).At(s).options
    ensures op.Begin?
    ensures exists t | t <= Seconds(now) - 30 * 24 * 60 * 60 :: IdleSince(Step(l, op, now).history, s, id, t)
  {
    hide Inv, Step, Clock, IdleSince, SweepPrunableOptions;
    if !op.Begin? {
      StepOnward(l, op, now);
    }
    BeginStep(l, op, now);
    var r := BeginBlockParts(l, op.caretakerReports, op.groundworksReports, now);
    SweepRemovesIdle(r, now);
  }

  lemma BeginStep(l: Ledger, op: Op, now: nat)
    ensures op.Begin? ==> Step(l, op, now) == BeginBlock(l, op.caretakerReports, op.groundworksReports, now)
  {
    hide AdvanceTo, AdvanceIndexTo, AppendOption, SetVoterSplit, ApplySplit, ResyncVoter, ResyncFromBonded,
      SetWeightedVoter, SetWeightedVoterSettled, ClearVoter, MoveVoter, DrawAndPay, ClaimAllocation, ResetAllocations,
      RemoveGroundworksOption, BeginBlock, EndBlock;
  }

  lemma StepClock(l: Ledger, op: Op, now: nat)
    requires Inv(l)
    ensures Clock(l, Step(l, op, now))
  {
    hide Inv, Step, Clock, SweepPrunableOptions, BeginBlock;
    if op.Begin? {
      BeginStep(l, op, now);
      var r := BeginBlockParts(l, op.caretakerReports, op.groundworksReports, now);
      SweepClock(r, now);
      ClockThen(l, r, Step(l, op, now));
    } else {
      StepOnward(l, op, now);
    }
  }

  lemma {:induction false} RunClock(l: Ledger, calls: seq<(Op, nat)>, n: nat)
    requires Inv(l) && AdmissibleRun(l, calls) && n <= |calls|
    ensures Clock(l, After(l, calls, n))
  {
    hide Inv, Step, AdmissibleRun;
    if n == 0 {
      Unmoved(l);
    } else {
      var m := After(l, calls, n - 1);
      RunClock(l, calls, n - 1);
      RunInv(l, calls, n - 1);
      StepClock(m, calls[n - 1].0, calls[n - 1].1);
      ClockThen(l, m, After(l, calls, n));
    }
  }

  /** Over any run, a stream mints for the time it was settled over a weight: never more
      than the emission of that time, short of it by less than one unit a settlement. That
      time is how far its cursor moved, less the time it had no weight. */
  lemma RunEmission(l: Ledger, calls: seq<(Op, nat)>, n: nat, s: StreamId)
    requires Inv(l) && AdmissibleRun(l, calls) && n <= |calls| && Started(l) && Timed(l.history)
    ensures var m := After(l, calls, n);
      && NANOS_PER_SECOND * Rewards(m.history, s) <= EMISSION_PER_SECOND * TimeWeighted(m.history, s)
      && EMISSION_PER_SECOND * TimeWeighted(m.history, s)
           <= NANOS_PER_SECOND * (Rewards(m.history, s) + Settles(m.history, s)) - Settles(m.history, s)
      && ClockAt(l, m, s)
  {
    hide Inv, After, AdmissibleRun, Rewards, TimeWeighted, Settles, Timed, ClockAt;
    RunClock(l, calls, n);
    TimedBounds(After(l, calls, n).history, s);
  }

  /** Over any run, the account holds no more than it did at the start and the emission
      since: nothing else comes in. */
  lemma RunCoins(l: Ledger, calls: seq<(Op, nat)>, n: nat)
    requires Inv(l) && AdmissibleRun(l, calls) && n <= |calls|
    ensures var m := After(l, calls, n);
      m.held - l.held <= Rewards(m.history, Caretaker) - Rewards(l.history, Caretaker)
                         + Rewards(m.history, Groundworks) - Rewards(l.history, Groundworks)
  {
    hide Inv, After, AdmissibleRun, Rewards;
    RunClock(l, calls, n);
  }
}
