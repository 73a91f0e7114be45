/** Every entry point that votes, settles, pays, resets or strikes keeps the invariant. */
module AllocationOps {
  import opened AllocationTypes
  import opened AllocationLedger
  import opened AllocationBooks
  import opened AllocationSettle
  import opened AllocationVotes
  import Sums

  // ---------------------------------------------------------------- settling

  lemma SettleInv(l: Ledger, s: StreamId, now: int)
    requires Inv(l)
    requires l.At(s).lastUpkeep != 0 ==> forall x | x in CountedLeases(l.At(s)) :: now <= x * NANOS_PER_SECOND
    ensures Inv(SettleTo(l, s, now))
    ensures OnlySettled(l, SettleTo(l, s, now), s)
    ensures Slack(SettleTo(l, s, now)) >= Slack(l)
  {
    hide Books, Slack, SettleTo, LeasesRespected;
    var m := SettleTo(l, s, now);
    TotalIsWeight(l, s);
    SettleToBooks(l, s, now);
    SettleToFrame(l, s, now);
    if l.At(s).lastUpkeep == 0 {
      QuietFrame(l, s, now);
    } else {
      SettleToLeases(l, s, now);
    }
    VotesKept(l.At(s), m.At(s));
    assert Votes(m.At(Other(s)));
  }

  lemma TotalIsWeight(l: Ledger, s: StreamId)
    requires Books(l) && Votes(l.At(s))
    ensures l.At(s).total == Weight(l.At(s).options)
  {
  }

  lemma SecondsBound(now: nat, x: int)
    requires x > Seconds(now)
    ensures x * NANOS_PER_SECOND > now
  {
  }

  /** A settle outside the sweep never passes the end of a counted lease. */
  lemma HeldTargetBeforeLeases(st: Stream, now: nat, x: int)
    requires LeasesQueued(st) && x in CountedLeases(st)
    ensures HeldTarget(st, now) <= x * NANOS_PER_SECOND
  {
    var k :| k in st.voters && st.voters[k].epoch == st.epoch && st.voters[k].expiresAt == x && x != 0;
    assert (x, k) in st.lapses;
    if x > Seconds(now) {
      SecondsBound(now, x);
    } else {
      assert (x, k).0 in DueTimes(st, Seconds(now));
    }
  }

  lemma AdvanceInv(l: Ledger, s: StreamId, now: nat)
    requires Inv(l)
    ensures Inv(AdvanceTo(l, s, now))
    ensures OnlySettled(l, AdvanceTo(l, s, now), s)
    ensures Slack(AdvanceTo(l, s, now)) >= Slack(l)
  {
    hide Books, Slack, LeasesRespected, SettleTo, OnlySettled;
    var st := l.At(s);
    assert Votes(st);
    if st.lastUpkeep != 0 {
      forall x | x in CountedLeases(st) ensures HeldTarget(st, now) <= x * NANOS_PER_SECOND {
        HeldTargetBeforeLeases(st, now, x);
      }
      SettleInv(l, s, HeldTarget(st, now));
    } else {
      SettleInv(l, s, now);
    }
  }

  lemma AdvanceIndexToInv(l: Ledger, s: StreamId, t: nat, now: nat)
    requires Inv(l)
    ensures Inv(AdvanceIndexTo(l, s, t, now))
  {
    hide Inv, AdvanceTo;
    var at := if t > Seconds(now) then now else t * NANOS_PER_SECOND;
    if !(l.At(s).lastUpkeep == 0 || at <= l.At(s).lastUpkeep) {
      AdvanceInv(l, s, at);
    }
  }

  // ---------------------------------------------------------------- votes

  lemma InvIsInvBut(l: Ledger, s: StreamId, key: VoterKey)
    requires Inv(l)
    ensures InvBut(l, s, key)
  {
  }

  lemma ExistingIssued(st: Stream, shares: seq<Share>, weight: int)
    requires StreamBooks(st)
    ensures Issued(SplitContributions(ExistingSplit(st.options, shares), weight), st.seqNo)
  {
    var kept := ExistingSplit(st.options, shares);
    forall c | c in SplitContributions(kept, weight) ensures c.option <= st.seqNo {
      var i :| 0 <= i < |kept| && c == SplitContributions(kept, weight)[i];
      assert kept[i] in kept;
    }
  }

  lemma SplitFiling(st: Stream, shares: seq<Share>, weight: int, expiresAt: int)
    requires StreamBooks(st) && weight >= 0
    ensures var kept := ExistingSplit(st.options, shares);
      Filing(Voter(kept, [], weight, expiresAt, 0), SplitContributions(kept, weight), kept != [] && weight > 0,
        st.seqNo)
  {
    var kept := ExistingSplit(st.options, shares);
    var add := SplitContributions(kept, weight);
    ExistingIssued(st, shares, weight);
    SplitNonNegative(kept, weight);
    if !(kept != [] && weight > 0) {
      forall id ensures ContributionTo(add, id) == 0 {
        AllZero(add, id);
      }
    }
  }

  lemma ResyncVoterAtInv(l: Ledger, s: StreamId, key: VoterKey, shares: seq<Share>, weight: int, expiresAt: int,
                         now: nat)
    requires Inv(l) && weight >= 0
    ensures Inv(ResyncVoterAt(l, s, key, shares, weight, expiresAt, now))
  {
    hide Slack, Votes, LeasesRespected, WriteVoter, StreamBooks, InvBut, Filing;
    InvIsInvBut(l, s, key);
    assert StreamBooks(l.At(s));
    SplitFiling(l.At(s), shares, weight, expiresAt);
    var kept := ExistingSplit(l.At(s).options, shares);
    WriteVoterInv(l, s, key, Voter(kept, [], weight, expiresAt, 0), SplitContributions(kept, weight),
      kept != [] && weight > 0, now);
  }

  lemma ZeroFiling(st: Stream, shares: seq<Share>)
    requires StreamBooks(st)
    ensures var kept := ExistingSplit(st.options, shares);
      Filing(Voter(kept, [], 0, 0, 0), [], kept != [], st.seqNo)
  {
    var kept := ExistingSplit(st.options, shares);
    var add := SplitContributions(kept, 0);
    ExistingIssued(st, shares, 0);
    SplitNonNegative(kept, 0);
    forall id ensures ContributionTo(add, id) == 0 {
      AllZero(add, id);
    }
  }

  lemma ResyncVoterKeepInv(l: Ledger, s: StreamId, key: VoterKey, shares: seq<Share>, weight: int, keepZero: bool,
                           now: nat)
    requires Inv(l) && weight >= 0
    ensures Inv(ResyncVoterKeep(l, s, key, shares, weight, keepZero, now))
  {
    hide Slack, Votes, LeasesRespected, WriteVoter, StreamBooks, InvBut, Filing, ResyncVoterAt;
    if !keepZero || weight > 0 {
      ResyncVoterAtInv(l, s, key, shares, weight, 0, now);
    } else {
      InvIsInvBut(l, s, key);
      assert StreamBooks(l.At(s));
      ZeroFiling(l.At(s), shares);
      var kept := ExistingSplit(l.At(s).options, shares);
      WriteVoterInv(l, s, key, Voter(kept, [], 0, 0, 0), [], kept != [], now);
    }
  }

  lemma EmptySplit(options: map<int, AllocationOption>, weight: int)
    ensures ExistingSplit(options, []) == [] && SplitContributions([], weight) == []
  {
  }

  /** Clearing a vote ignores the weight, so any weight will do. */
  lemma ClearInv(l: Ledger, s: StreamId, key: VoterKey, weight: int, expiresAt: int, now: nat)
    requires Inv(l)
    ensures Inv(ResyncVoterAt(l, s, key, [], weight, expiresAt, now))
  {
    hide Slack, Votes, LeasesRespected, WriteVoter, StreamBooks, InvBut;
    InvIsInvBut(l, s, key);
    EmptySplit(l.At(s).options, weight);
    WriteVoterInv(l, s, key, Voter([], [], weight, expiresAt, 0), [], false, now);
  }

  lemma SetVoterSplitInv(l: Ledger, s: StreamId, key: VoterKey, shares: seq<Share>, weight: int, now: nat)
    requires Inv(l)
    ensures var r := SetVoterSplit(l, s, key, shares, weight, now); r.Done? ==> Inv(r.ledger)
  {
    hide Inv, AdvanceTo, ResyncVoterAt, ValidSplit;
    AdvanceInv(l, s, now);
    if shares == [] {
      ClearInv(AdvanceTo(l, s, now), s, key, weight, 0, now);
    } else if weight > 0 {
      ResyncVoterAtInv(AdvanceTo(l, s, now), s, key, shares, weight, 0, now);
    }
  }

  lemma ApplySplitInv(l: Ledger, s: StreamId, key: VoterKey, shares: seq<Share>, weight: int, leaseSeconds: nat,
                      now: nat)
    requires Inv(l)
    ensures var r := ApplySplit(l, s, key, shares, weight, leaseSeconds, now); r.Done? ==> Inv(r.ledger)
  {
    hide Inv, AdvanceTo, ResyncVoterAt, ValidSplit;
    var lease := if s == Groundworks && shares != [] then Seconds(now) + leaseSeconds else 0;
    AdvanceInv(l, s, now);
    if shares == [] {
      ClearInv(AdvanceTo(l, s, now), s, key, weight, lease, now);
    } else if weight > 0 {
      ResyncVoterAtInv(AdvanceTo(l, s, now), s, key, shares, weight, lease, now);
    }
  }

  lemma DropStaleInv(l: Ledger, s: StreamId, key: VoterKey)
    requires Inv(l) && key in l.At(s).voters && l.At(s).voters[key].epoch != l.At(s).epoch
    ensures Inv(DropVoter(l, s, key))
  {
    hide Slack, Books, HandlerSet, LeasesRespected, Contributions, Support;
    var st, m := l.At(s), DropVoter(l, s, key);
    VotesOutsideBooks(l, m, s);
    assert Votes(st);
    HandlerSetSame(st, m.At(s));
    forall id | Live(m.At(s).options, id)
      ensures m.At(s).options[id].amount == Support(m.At(s).voters, m.At(s).epoch, id) {
      SupportDropped(st.voters, st.epoch, id, key);
    }
    assert Votes(m.At(Other(s)));
  }

  lemma ResyncVoterInv(l: Ledger, s: StreamId, key: VoterKey, weight: int, now: nat)
    requires Inv(l) && weight >= 0
    ensures Inv(ResyncVoter(l, s, key, weight, now))
  {
    hide Inv, AdvanceTo, ResyncVoterAt, DropVoter;
    AdvanceInv(l, s, now);
    var l1 := AdvanceTo(l, s, now);
    var st := l1.At(s);
    if key in st.voters {
      if st.voters[key].epoch != st.epoch {
        DropStaleInv(l1, s, key);
      } else if st.voters[key].optionWeights == [] {
        ResyncVoterAtInv(l1, s, key, st.voters[key].percentages, weight, 0, now);
      }
    }
  }

  lemma ResyncFromBondedInv(l: Ledger, key: VoterKey, weight: int, bondLeft: bool, now: nat)
    requires Inv(l)
    ensures Inv(ResyncFromBonded(l, key, weight, bondLeft, now))
  {
    hide Inv, AdvanceTo, ResyncVoterKeep, DropVoter;
    AdvanceInv(l, Groundworks, now);
    var l1 := AdvanceTo(l, Groundworks, now);
    var st := l1.At(Groundworks);
    if key in st.voters {
      if st.voters[key].epoch != st.epoch {
        DropStaleInv(l1, Groundworks, key);
      } else {
        ResyncVoterKeepInv(l1, Groundworks, key, st.voters[key].percentages, Clamped(weight), bondLeft, now);
      }
    }
  }

  lemma TotalNonNegative(ws: seq<Contribution>)
    requires NonNegative(ws)
    ensures Total(ws) >= 0
  {
  }

  /** A weighted voter keeps the invariant when every option it weighs was issued. */
  lemma WriteWeightedInv(l: Ledger, s: StreamId, key: VoterKey, ws: seq<Contribution>, now: nat)
    requires Inv(l) && NonNegative(ws) && Issued(ws, l.At(s).seqNo)
    ensures Inv(WriteWeightedVoter(l, s, key, ws, now))
  {
    hide Slack, Votes, LeasesRespected, WriteVoter, Books, InvBut;
    InvIsInvBut(l, s, key);
    TotalNonNegative(ws);
    WriteVoterInv(l, s, key, Voter([], ws, Total(ws), 0, 0), ws, ws != [], now);
  }

  lemma SetWeightedVoterInv(l: Ledger, s: StreamId, key: VoterKey, ws: seq<Contribution>, now: nat)
    requires Inv(l) && Issued(Positive(ws), l.At(s).seqNo)
    ensures var r := SetWeightedVoter(l, s, key, ws, now); r.Done? ==> Inv(r.ledger)
    ensures var r := SetWeightedVoterSettled(l, s, key, ws, now); r.Done? ==> Inv(r.ledger)
  {
    hide Inv, AdvanceTo, WriteWeightedVoter;
    AdvanceInv(l, s, now);
    var l1 := AdvanceTo(l, s, now);
    assert l1.At(s).seqNo == l.At(s).seqNo;
    WriteWeightedInv(l1, s, key, Positive(ws), now);
    WriteWeightedInv(l, s, key, Positive(ws), now);
  }

  lemma MoveVoterInv(l: Ledger, s: StreamId, from: VoterKey, to: VoterKey, now: nat)
    requires Inv(l)
    ensures Inv(MoveVoter(l, s, from, to, now))
  {
    hide Books, Slack, LeasesRespected, Supported, HandlerSet, LeasesQueued, AdvanceTo, ResyncVoterAt;
    AdvanceInv(l, s, now);
    assert Votes(l.At(s));
    var l1 := AdvanceTo(l, s, now);
    assert l1.At(s).voters == l.At(s).voters;
    if from in l1.At(s).voters {
      var v := l1.At(s).voters[from];
      ResyncVoterAtInv(l1, s, from, [], 0, 0, now);
      ResyncVoterAtInv(ClearVoter(l1, s, from, now), s, to, v.percentages, v.weight, 0, now);
    }
  }

  // ---------------------------------------------------------------- new options

  lemma UnissuedUnsupported(voters: map<VoterKey, Voter>, epoch: nat, seqNo: nat, id: int)
    requires forall k | k in voters :: VoterOk(voters[k], epoch, seqNo)
    requires id > seqNo
    ensures Support(voters, epoch, id) == 0
  {
    forall k | k in voters.Keys ensures SupportTerms(voters, epoch, id)(k) == 0 {
      UnnamedOption(Contributions(voters[k]), id);
    }
    Sums.Zero(voters.Keys, SupportTerms(voters, epoch, id));
  }

  lemma NewOptionVotes(st: Stream, m: Stream, id: int, o: AllocationOption)
    requires StreamBooks(st) && Votes(st) && id == st.seqNo + 1 == m.seqNo
    requires m.options == st.options[id := o] && o.amount == 0 && !o.removed
    requires m.total == st.total && m.summed == st.summed && m.voters == st.voters && m.epoch == st.epoch
      && m.lapses == st.lapses
    requires m.integrated == if o.kind == Integrated then st.integrated + {id} else st.integrated
    ensures Votes(m)
  {
    UnissuedUnsupported(st.voters, st.epoch, st.seqNo, id);
    forall i | Live(m.options, i) ensures m.options[i].amount == Support(m.voters, m.epoch, i) {
      assert i == id || Live(st.options, i);
    }
    assert id !in st.options;
  }

  lemma SequenceOutsideBooks(l: Ledger, s: StreamId, seqNo: nat)
    requires Books(l) && seqNo >= l.At(s).seqNo
    ensures Books(l.With(s, l.At(s).(seqNo := seqNo)))
    ensures Slack(l.With(s, l.At(s).(seqNo := seqNo))) == Slack(l)
  {
    hide Schedule, Idle, Weight, Accrued, Unsettled, OptionOk;
    var m := l.With(s, l.At(s).(seqNo := seqNo));
    SameSchedule(l, m, s);
    assert StreamBooks(l.At(s));
    assert StreamBooks(m.At(s)) && StreamBooks(m.At(Other(s)));
  }

  lemma AppendOptionInv(l: Ledger, s: StreamId, kind: Kind, recipient: string, claimer: string, now: nat)
    requires Inv(l)
    ensures Inv(AppendOption(l, s, kind, recipient, claimer, now))
    ensures l.At(s).seqNo + 1 !in l.At(s).options
  {
    hide Books, Slack, SetOption, LeasesRespected, Votes, Idle, Schedule;
    var st := l.At(s);
    var id := st.seqNo + 1;
    var o := AllocationOption(kind, recipient, claimer, 0, 0, st.index, false);
    var l1 := l.With(s, st.(seqNo := id));
    SequenceOutsideBooks(l, s, id);
    NewOption(l, s, id);
    var l2 := SetOption(l1, s, id, o, now);
    SetOptionFrame(l1, s, id, o, now);
    SetOptionBooks(l1, s, id, o, now);
    WroteKeepsLeases(l1.history, Wrote(Seconds(now), s, id, o));
    var m := AppendOption(l, s, kind, recipient, claimer, now);
    VotesOutsideBooks(l2, m, s);
    NewOptionVotes(st, m.At(s), id, o);
    assert Votes(m.At(Other(s)));
  }

  lemma NewOption(l: Ledger, s: StreamId, id: int)
    requires Books(l) && id > l.At(s).seqNo
    ensures StreamBooks(l.At(s)) && id !in l.At(s).options && l.At(s).index >= 0
  {
  }

  // ---------------------------------------------------------------- paying out

  /** Writing a record with the same weight, worth at most `freed` less than before,
      frees exactly that much slack. */
  lemma RewriteInv(l: Ledger, s: StreamId, id: int, o: AllocationOption, now: nat)
    requires Books(l) && LeasesRespected(l.history) && Votes(l.caretaker) && Votes(l.groundworks)
    requires id in l.At(s).options && OptionOk(o, l.At(s).index)
    requires o.amount == l.At(s).options[id].amount && o.kind == l.At(s).options[id].kind
      && o.removed == l.At(s).options[id].removed
    ensures var m := SetOption(l, s, id, o, now);
      && Books(m) && LeasesRespected(m.history) && Votes(m.caretaker) && Votes(m.groundworks)
      && Slack(m) == Slack(l) + Worth(l.At(s).options[id], l.At(s).index) - Worth(o, l.At(s).index)
      && m.held == l.held
  {
    hide Slack, Idle, Schedule, SetOption, LeasesRespected, Votes, Worth, Weight, Accrued;
    var m := SetOption(l, s, id, o, now);
    assert StreamBooks(l.At(s));
    SetOptionFrame(l, s, id, o, now);
    SetOptionBooks(l, s, id, o, now);
    WroteKeepsLeases(l.history, Wrote(Seconds(now), s, id, o));
    VotesKept(l.At(s), m.At(s));
    assert Votes(m.At(Other(s)));
  }

  lemma HeldOutsideBooks(l: Ledger, held: int)
    requires Books(l)
    ensures Books(l.(held := held))
    ensures Slack(l.(held := held)) == Slack(l) + PRECISION * (held - l.held)
  {
    hide Schedule, Idle, StreamBooks, StreamWorth, Accrued;
    SameSchedule(l, l.(held := held), Caretaker);
  }

  lemma StreamWorthNonNegative(st: Stream)
    requires StreamBooks(st)
    ensures StreamWorth(st) >= 0
  {
    forall k | k in st.options.Keys ensures Accruals(st.options)(k) >= 0 && Claims(st.options, st.index)(k) >= 0 {
      assert OptionOk(st.options[k], st.index);
      ProductNonNegative(st.options[k].amount, st.index - st.options[k].lastIndex);
    }
    Sums.NonNegative(st.options.Keys, Accruals(st.options));
    Sums.NonNegative(st.options.Keys, Claims(st.options, st.index));
  }

  /** The module can pay any amount its slack covers. */
  lemma SlackIsHeld(l: Ledger, amount: int)
    requires Books(l) && Slack(l) >= PRECISION * amount
    ensures l.held >= amount
  {
    StreamWorthNonNegative(l.caretaker);
    StreamWorthNonNegative(l.groundworks);
  }

  /** Taking d out of a settled option's balance frees slack worth d. */
  lemma WithdrawWorth(o: AllocationOption, index: int, d: int)
    requires OptionOk(o, index) && 0 <= d <= SettleOption(o, index).accrued
    ensures var n := SettleOption(o, index).(accrued := SettleOption(o, index).accrued - d);
      OptionOk(n, index) && Worth(o, index) - Worth(n, index) >= PRECISION * d
  {
    SettleOptionWorth(o, index);
  }

  lemma SplitInv(l: Ledger)
    requires Inv(l)
    ensures Books(l) && Slack(l) >= 0 && Votes(l.caretaker) && Votes(l.groundworks) && LeasesRespected(l.history)
    ensures StreamBooks(l.caretaker) && StreamBooks(l.groundworks)
  {
  }

  /** Settle an option, take d from it, and pay d out: the payment never overdraws. */
  lemma WithdrawInv(l: Ledger, s: StreamId, id: int, d: int, now: nat)
    requires Inv(l) && id in l.At(s).options && 0 <= d <= SettleOption(l.At(s).options[id], l.At(s).index).accrued
    ensures var o := SettleOption(l.At(s).options[id], l.At(s).index);
      var m := SetOption(l, s, id, o.(accrued := o.accrued - d), now);
      && Inv(m) && Slack(m) >= PRECISION * d && m.held == l.held >= d
      && Inv(m.(held := m.held - d))
  {
    hide Slack, SetOption, LeasesRespected, Votes, SettleOption, Worth, StreamBooks, Idle, Schedule, Books, Inv;
    SplitInv(l);
    StreamOptionOk(l.At(s), id);
    var o := SettleOption(l.At(s).options[id], l.At(s).index);
    var n := o.(accrued := o.accrued - d);
    WithdrawWorth(l.At(s).options[id], l.At(s).index, d);
    SettleKeepsWeight(l.At(s).options[id], l.At(s).index);
    RewriteInv(l, s, id, n, now);
    PayInv(SetOption(l, s, id, n, now), d);
  }

  lemma PayInv(m: Ledger, d: int)
    requires Books(m) && Votes(m.caretaker) && Votes(m.groundworks) && LeasesRespected(m.history)
    requires d >= 0 && Slack(m) >= PRECISION * d
    ensures Inv(m) && m.held >= d && Inv(m.(held := m.held - d))
  {
    hide Slack, LeasesRespected, Votes, StreamBooks, Idle, Schedule;
    SlackIsHeld(m, d);
    HeldOutsideBooks(m, m.held - d);
  }

  lemma StreamOptionOk(st: Stream, id: int)
    requires StreamBooks(st) && id in st.options
    ensures OptionOk(st.options[id], st.index)
  {
  }

  lemma SettleKeepsWeight(o: AllocationOption, index: int)
    ensures var n := SettleOption(o, index); n.amount == o.amount && n.kind == o.kind && n.removed == o.removed
  {
  }
}
