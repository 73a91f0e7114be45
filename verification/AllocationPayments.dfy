/** Claims, draws, handlers, the residue sweep, resets, strikes and prunes. */
module AllocationPayments {
  import opened AllocationTypes
  import opened AllocationLedger
  import opened AllocationBooks
  import opened AllocationSettle
  import opened AllocationVotes
  import opened AllocationOps
  import Orders
  import Sums

  // ---------------------------------------------------------------- draws

  /** A draw takes no more than the balance exactly when its rate is at most 100%. */
  lemma DrawWithinBalance(ppm: int)
    ensures (forall o: AllocationOption | o.accrued >= 0 :: Drawn(o, ppm) <= o.accrued) <==> ppm <= PPM_DENOMINATOR
  {
    hide Drawn;
    if ppm <= PPM_DENOMINATOR {
      forall o: AllocationOption | o.accrued >= 0 ensures Drawn(o, ppm) <= o.accrued {
        DrawnAtMost(o, ppm);
      }
    } else {
      var o := AllocationOption(Address, "", "", 0, PPM_DENOMINATOR, 0, false);
      DrawnWhole(o, ppm);
    }
  }

  lemma DrawnAtMost(o: AllocationOption, ppm: int)
    requires o.accrued >= 0 && ppm <= PPM_DENOMINATOR
    ensures Drawn(o, ppm) <= o.accrued
  {
    if ppm >= 0 {
      assert o.accrued * ppm <= o.accrued * PPM_DENOMINATOR;
    } else {
      assert o.accrued * ppm <= 0;
    }
  }

  /** A balance of exactly a million loses its rate in parts per million. */
  lemma DrawnWhole(o: AllocationOption, ppm: int)
    requires o.accrued == PPM_DENOMINATOR && ppm >= 0
    ensures Drawn(o, ppm) == ppm
  {
    assert o.accrued * ppm == PPM_DENOMINATOR * ppm;
  }

  lemma DrawnBounds(o: AllocationOption, ppm: int)
    requires o.accrued >= 0 && ppm <= PPM_DENOMINATOR
    ensures 0 <= Drawn(o, ppm) <= o.accrued
  {
    DrawWithinBalance(ppm);
  }

  /** A draw keeps the invariant before its coins are paid out, and the payment that
      follows is always covered. */
  lemma DrawAndPayInv(l: Ledger, s: StreamId, id: int, ppm: int, now: nat)
    requires Inv(l) && ppm <= PPM_DENOMINATOR
    ensures var r := DrawAndPay(l, s, id, ppm, now); r.Done? && Inv(r.ledger)
    ensures Inv(DrawFromOption(AdvanceTo(l, s, now), s, id, ppm, now).0)
  {
    hide Books, Slack, Votes, LeasesRespected, AdvanceTo, SetOption, SettleOption, Drawn;
    AdvanceInv(l, s, now);
    var l1 := AdvanceTo(l, s, now);
    if id in l1.At(s).options {
      var o := SettleOption(l1.At(s).options[id], l1.At(s).index);
      SettledBalance(l1, s, id);
      DrawnBounds(o, ppm);
      WithdrawInv(l1, s, id, Drawn(o, ppm), now);
    }
  }

  /** A draw alone keeps the invariant, and its payment is covered. */
  lemma DrawInv(l: Ledger, s: StreamId, id: int, ppm: int, now: nat)
    requires Inv(l) && ppm <= PPM_DENOMINATOR
    ensures var (m, d) := DrawFromOption(l, s, id, ppm, now);
      Inv(m) && 0 <= d <= m.held && Inv(m.(held := m.held - d))
  {
    hide Inv, SetOption, SettleOption, Drawn;
    if id in l.At(s).options {
      var o := SettleOption(l.At(s).options[id], l.At(s).index);
      SettledBalance(l, s, id);
      DrawnBounds(o, ppm);
      WithdrawInv(l, s, id, Drawn(o, ppm), now);
    } else {
      NothingDrawn(l);
    }
  }

  lemma NothingDrawn(l: Ledger)
    requires Inv(l)
    ensures l.held >= 0 && Inv(l.(held := l.held - 0))
  {
    hide Slack, Votes, LeasesRespected, Schedule, Idle, StreamBooks;
    SlackIsHeld(l, 0);
    assert l.(held := l.held - 0) == l;
  }

  lemma SettledBalance(l: Ledger, s: StreamId, id: int)
    requires Inv(l) && id in l.At(s).options
    ensures SettleOption(l.At(s).options[id], l.At(s).index).accrued >= 0
    ensures OptionOk(l.At(s).options[id], l.At(s).index)
  {
    SplitInv(l);
    assert StreamBooks(l.At(s));
    SettleOptionWorth(l.At(s).options[id], l.At(s).index);
  }

  // ---------------------------------------------------------------- claims

  /** What an option is entitled to right now: its balance and its whole pending claim. */
  function Entitled(l: Ledger, s: StreamId, id: int): int {
    if id in l.At(s).options then SettleOption(l.At(s).options[id], l.At(s).index).accrued else 0
  }

  lemma ClaimShape(l: Ledger, s: StreamId, id: int, caller: string, now: nat)
    requires Claimable(l.At(s), id, caller) && AdvanceTo(l, s, now).At(s).options == l.At(s).options
    requires var l1 := AdvanceTo(l, s, now); 0 <= Entitled(l1, s, id) <= l1.held
    ensures var l1 := AdvanceTo(l, s, now);
      var o := SettleOption(l1.At(s).options[id], l1.At(s).index);
      ClaimAllocation(l, s, id, caller, now) ==
        Done(SetOption(l1.(held := l1.held - o.accrued), s, id, o.(accrued := o.accrued - o.accrued), now))
  {
    hide AdvanceTo, SetOption, SettleOption;
    var l1 := AdvanceTo(l, s, now);
    var o := SettleOption(l1.At(s).options[id], l1.At(s).index);
    if o.accrued == 0 {
      assert l1.(held := l1.held - o.accrued) == l1;
      assert o.(accrued := o.accrued - o.accrued) == o;
    }
  }

  lemma HeldCommutes(l: Ledger, s: StreamId, id: int, o: AllocationOption, d: int, now: nat)
    ensures SetOption(l.(held := l.held - d), s, id, o, now) == SetOption(l, s, id, o, now).(held := l.held - d)
  {
  }

  lemma WrittenRecord(l: Ledger, s: StreamId, id: int, o: AllocationOption, now: nat)
    ensures SetOption(l, s, id, o, now).At(s).options == l.At(s).options[id := o]
    ensures SetOption(l, s, id, o, now).held == l.held
  {
    SetOptionFrame(l, s, id, o, now);
  }

  /** A permitted claim never fails: it pays the option's whole entitlement and keeps
      the invariant. A refused claim changes nothing. */
  lemma ClaimInv(l: Ledger, s: StreamId, id: int, caller: string, now: nat)
    requires Inv(l)
    ensures var r := ClaimAllocation(l, s, id, caller, now);
      && r.Done? == Claimable(l.At(s), id, caller)
      && (r.Done? ==>
            var l1 := AdvanceTo(l, s, now);
            Inv(r.ledger) && r.ledger.held == l1.held - Entitled(l1, s, id)
              && AccruedAt(r.ledger.At(s).options, id) == 0)
  {
    hide Inv, Slack, AdvanceTo, SetOption, SettleOption, OptionOk;
    AdvanceInv(l, s, now);
    var l1 := AdvanceTo(l, s, now);
    if Claimable(l.At(s), id, caller) {
      var o := SettleOption(l1.At(s).options[id], l1.At(s).index);
      var n := o.(accrued := o.accrued - o.accrued);
      SettledBalance(l1, s, id);
      WithdrawInv(l1, s, id, o.accrued, now);
      ClaimShape(l, s, id, caller, now);
      HeldCommutes(l1, s, id, n, o.accrued, now);
      WrittenRecord(l1, s, id, n, now);
    }
  }

  // ---------------------------------------------------------------- handlers and residue

  lemma ResolveOneInv(l: Ledger, s: StreamId, id: int, reports: map<int, int>, now: nat)
    requires Inv(l) && id in l.At(s).options
    ensures Inv(ResolveOne(l, s, id, reports, now))
    ensures ResolveOne(l, s, id, reports, now).At(s).options.Keys == l.At(s).options.Keys
  {
    hide Books, Slack, Votes, LeasesRespected, SetOption, SettleOption;
    var o := SettleOption(l.At(s).options[id], l.At(s).index);
    SettledBalance(l, s, id);
    var r := Resolved(reports, id, o.accrued);
    WithdrawInv(l, s, id, r, now);
    HeldCommutes(l, s, id, o.(accrued := o.accrued - r), r, now);
    SetOptionFrame(l, s, id, o.(accrued := o.accrued - r), now);
  }

  lemma {:induction false} ResolveAllInv(l: Ledger, s: StreamId, ids: seq<int>, reports: map<int, int>, now: nat)
    requires Inv(l) && forall id | id in ids :: id in l.At(s).options
    ensures Inv(ResolveAll(l, s, ids, reports, now))
    ensures ResolveAll(l, s, ids, reports, now).At(s).options.Keys == l.At(s).options.Keys
  {
    hide Inv, ResolveOne;
    if ids != [] {
      ResolveAllInv(l, s, ids[..|ids| - 1], reports, now);
      assert ids[|ids| - 1] in ids;
      ResolveOneInv(ResolveAll(l, s, ids[..|ids| - 1], reports, now), s, ids[|ids| - 1], reports, now);
    }
  }

  lemma SweepResidueInv(l: Ledger, sinkWorks: bool)
    requires Inv(l)
    ensures Inv(SweepResidue(l, sinkWorks))
    ensures Slack(SweepResidue(l, sinkWorks)) == Slack(l)
  {
    hide Schedule, Idle, StreamBooks, StreamWorth, Accrued, Votes, LeasesRespected;
    SameSchedule(l, SweepResidue(l, sinkWorks), Caretaker);
  }

  // ---------------------------------------------------------------- reset

  ghost predicate Retired(l: Ledger, m: Ledger, s: StreamId, ids: seq<int>) {
    && SameVotes(l.At(s), m.At(s))
    && m.At(Other(s)) == l.At(Other(s))
    && m.At(s).options.Keys == l.At(s).options.Keys
    && (forall id | id in m.At(s).options ::
          && m.At(s).options[id].kind == l.At(s).options[id].kind
          && m.At(s).options[id].removed == l.At(s).options[id].removed)
    && (forall id | id in ids && id in m.At(s).options :: m.At(s).options[id].amount == 0)
  }

  lemma RetireOptionStep(l: Ledger, m: Ledger, s: StreamId, ids: seq<int>, id: int, now: nat)
    requires Retired(l, m, s, ids) && Books(m) && LeasesRespected(m.history)
    ensures var n := RetireOption(m, s, id, now);
      && Retired(l, n, s, ids + [id]) && Books(n) && LeasesRespected(n.history) && Slack(n) >= Slack(m)
  {
    hide Slack, SetOption, LeasesRespected, Books, Worth, OptionOk, SettleOption;
    if id in m.At(s).options {
      BooksStream(m, s);
      var o := m.At(s).options[id];
      var n := SettleOption(o, m.At(s).index).(amount := 0);
      SettleKeepsWeight(o, m.At(s).index);
      StreamOptionOk(m.At(s), id);
      ReweighWorth(o, m.At(s).index, 0);
      WriteNoRicher(m, s, id, n, now);
      SetOptionFrame(m, s, id, n, now);
    }
  }

  lemma {:induction false} RetireAllBooks(l: Ledger, s: StreamId, ids: seq<int>, now: nat)
    requires Books(l) && LeasesRespected(l.history)
    ensures var m := RetireAll(l, s, ids, now);
      && Retired(l, m, s, ids) && Books(m) && LeasesRespected(m.history) && Slack(m) >= Slack(l)
  {
    hide Slack, Books, LeasesRespected, RetireOption;
    if ids != [] {
      var front, id := ids[..|ids| - 1], ids[|ids| - 1];
      RetireAllBooks(l, s, front, now);
      RetireOptionStep(l, RetireAll(l, s, front, now), s, front, id, now);
      assert front + [id] == ids;
    }
  }

  lemma StaleUnsupported(voters: map<VoterKey, Voter>, epoch: nat, seqNo: nat, id: int)
    requires forall k | k in voters :: VoterOk(voters[k], epoch, seqNo)
    ensures Support(voters, epoch + 1, id) == 0
  {
    Sums.Zero(voters.Keys, SupportTerms(voters, epoch + 1, id));
  }

  /** A stream whose every option is weightless, under a fresh epoch, is consistent. */
  lemma ResetVotes(st: Stream, m: Stream)
    requires Votes(st) && StreamBooks(m) && m.epoch == st.epoch + 1 && m.total == 0
    requires m.voters == st.voters && m.seqNo == st.seqNo && m.integrated == st.integrated
    requires m.options.Keys == st.options.Keys
    requires forall id | id in m.options ::
      m.options[id].amount == 0 && m.options[id].kind == st.options[id].kind
        && m.options[id].removed == st.options[id].removed
    ensures Votes(m)
  {
    hide Support, OptionOk, Contributions, NonNegative, Issued;
    Weightless(m.options);
    forall id | Live(m.options, id) ensures m.options[id].amount == Support(m.voters, m.epoch, id) {
      StaleUnsupported(st.voters, st.epoch, st.seqNo, id);
    }
  }

  lemma Weightless(options: map<int, AllocationOption>)
    requires forall id | id in options :: options[id].amount == 0
    ensures Weight(options) == 0
  {
    Sums.Zero(options.Keys, Amounts(options));
  }

  lemma ResetInv(l: Ledger, s: StreamId, now: nat)
    requires Inv(l)
    ensures Inv(ResetAllocations(l, s, now))
  {
    hide Books, Slack, Votes, LeasesRespected, AdvanceTo, RetireAll, StreamBooks;
    AdvanceInv(l, s, now);
    var l1 := AdvanceTo(l, s, now);
    var ids := Orders.Ascending(l1.At(s).options.Keys);
    var l2 := RetireAll(l1, s, ids, now);
    SplitInv(l1);
    RetireAllBooks(l1, s, ids, now);
    var m := ResetAllocations(l, s, now);
    VotesOutsideBooks(l2, m, s);
    BooksStream(m, s);
    forall id | id in m.At(s).options ensures m.At(s).options[id].amount == 0 {
      assert id in ids;
    }
    assert Votes(l1.At(s));
    ResetVotes(l1.At(s), m.At(s));
    assert Votes(m.At(Other(s)));
  }

  lemma BooksStream(l: Ledger, s: StreamId)
    requires Books(l)
    ensures StreamBooks(l.At(s))
  {
  }

  // ---------------------------------------------------------------- strike

  lemma StruckVotes(st: Stream, m: Stream, id: int, o: AllocationOption)
    requires Votes(st) && id in st.options && !st.options[id].removed
    requires m.options == st.options[id := o] && o.removed && o.kind == st.options[id].kind
    requires m.total == st.total - st.options[id].amount && m.summed == st.summed - st.options[id].amount
    requires m.voters == st.voters && m.epoch == st.epoch && m.lapses == st.lapses && m.seqNo == st.seqNo
    requires m.integrated == if o.kind == Integrated then st.integrated - {id} else st.integrated
    ensures Votes(m)
  {
    forall i | Live(m.options, i) ensures m.options[i].amount == Support(m.voters, m.epoch, i) {
      assert Live(st.options, i);
    }
  }

  lemma StrikeWorth(o: AllocationOption, index: int)
    requires OptionOk(o, index)
    ensures var n := SettleOption(o, index);
      && OptionOk(n.(removed := true, amount := 0, accrued := 0), index)
      && Worth(o, index) - Worth(n.(removed := true, amount := 0, accrued := 0), index) >= PRECISION * n.accrued
      && n.accrued >= 0 && n.amount == o.amount >= 0 && n.kind == o.kind
  {
    SettleOptionWorth(o, index);
  }

  /** The state a strike burns from: the record zeroed, the weight off both totals. */
  function Struck(l1: Ledger, id: int, o: AllocationOption, now: nat): Ledger {
    var l2 := SetOption(l1, Groundworks, id, o.(removed := true, amount := 0, accrued := 0), now);
    var st2 := l2.At(Groundworks);
    l2.With(Groundworks, st2.(
      total := if o.amount > 0 then st2.total - o.amount else st2.total,
      integrated := if o.kind == Integrated then st2.integrated - {id} else st2.integrated))
  }

  lemma StruckInv(l: Ledger, id: int, now: nat)
    requires Inv(l) && Live(l.groundworks.options, id)
    ensures var o := SettleOption(l.groundworks.options[id], l.groundworks.index);
      var m := Struck(l, id, o, now);
      && Inv(m) && m.held == l.held && Slack(m) >= PRECISION * o.accrued && o.accrued >= 0
  {
    hide Slack, SetOption, LeasesRespected, SettleOption, Votes, Idle, Schedule, Worth;
    var st := l.groundworks;
    var o := SettleOption(st.options[id], st.index);
    var n := o.(removed := true, amount := 0, accrued := 0);
    SplitInv(l);
    StrikeWorth(st.options[id], st.index);
    SetOptionBooks(l, Groundworks, id, n, now);
    SetOptionFrame(l, Groundworks, id, n, now);
    WroteKeepsLeases(l.history, Wrote(Seconds(now), Groundworks, id, n));
    var l2 := SetOption(l, Groundworks, id, n, now);
    var m := Struck(l, id, o, now);
    VotesOutsideBooks(l2, m, Groundworks);
    StruckVotes(st, m.groundworks, id, n);
    assert m.caretaker == l.At(Other(Groundworks));
  }

  /** A strike keeps the invariant, and the burn it ends with is always covered. */
  lemma StrikeInv(l: Ledger, id: int, now: nat)
    requires Inv(l)
    ensures var r := RemoveGroundworksOption(l, id, now); r.Done? && Inv(r.ledger)
  {
    hide Books, Slack, Votes, LeasesRespected, AdvanceTo, SetOption, SettleOption;
    if Live(l.groundworks.options, id) {
      AdvanceInv(l, Groundworks, now);
      var l1 := AdvanceTo(l, Groundworks, now);
      assert l1.groundworks.options == l.groundworks.options;
      var o := SettleOption(l1.groundworks.options[id], l1.groundworks.index);
      StruckInv(l1, id, now);
      var m := Struck(l1, id, o, now);
      assert RemoveGroundworksOption(l, id, now) == PayOut(m, o.accrued);
      SlackIsHeld(m, o.accrued);
      HeldOutsideBooks(m, m.held - o.accrued);
    }
  }

  // ---------------------------------------------------------------- prune

  lemma DropWeight(options: map<int, AllocationOption>, id: int)
    ensures Weight(options - {id}) == Weight(options) - AmountAt(options, id)
  {
    assert (options - {id}).Keys == options.Keys - {id};
    Sums.Drop(options.Keys, id, Amounts(options), Amounts(options - {id}));
  }

  lemma DropAccrued(options: map<int, AllocationOption>, id: int)
    ensures Accrued(options - {id}) == Accrued(options) - AccruedAt(options, id)
  {
    assert (options - {id}).Keys == options.Keys - {id};
    Sums.Drop(options.Keys, id, Accruals(options), Accruals(options - {id}));
  }

  lemma DropUnsettled(options: map<int, AllocationOption>, index: int, id: int)
    requires id in options && options[id].amount == 0
    ensures Unsettled(options - {id}, index) == Unsettled(options, index)
  {
    var w := options - {id};
    assert w.Keys == options.Keys - {id};
    forall j | j in options.Keys && j != id ensures Claims(options, index)(j) == Claims(w, index)(j) {
      assert w[j] == options[j];
    }
    assert Claims(options, index)(id) == 0;
    Sums.Drop(options.Keys, id, Claims(options, index), Claims(w, index));
  }

  /** m is l with option id of stream s gone, from its schedule too, and its balance
      out of the accrued sum and the module account. */
  ghost predicate Pruned(l: Ledger, m: Ledger, s: StreamId, id: int) {
    && id in l.At(s).options
    && m.At(s) == l.At(s).(options := l.At(s).options - {id}, integrated := l.At(s).integrated - {id},
                            pruneDue := l.At(s).pruneDue - {id})
    && m.At(Other(s)) == l.At(Other(s))
    && m.summedAccrued == l.summedAccrued - l.At(s).options[id].accrued
    && m.held == l.held - l.At(s).options[id].accrued
    && m.residue == l.residue && m.history == l.history
  }

  lemma PruneEntryShape(l: Ledger, e: (int, StreamId, int))
    requires e.2 in l.At(e.1).options && Prunable(l.At(e.1).options[e.2])
    requires 0 <= l.At(e.1).options[e.2].accrued <= l.held
    ensures Pruned(l, PruneEntry(l, e), e.1, e.2)
    ensures PruneEntry(l, e).pruneQueue == l.pruneQueue - {e}
  {
  }

  lemma PrunedSchedule(l: Ledger, m: Ledger, s: StreamId, id: int, t: int)
    requires Schedule(l) && Idle(l) && Pruned(l, m, s, id) && m.pruneQueue == l.pruneQueue - {(t, s, id)}
    requires (t, s, id) in l.pruneQueue
    ensures Schedule(m) && Idle(m)
  {
    forall s', id'
      ensures id' in m.At(s').pruneDue <==> id' in m.At(s').options && Prunable(m.At(s').options[id'])
    {
      assert s' == s || s' == Other(s);
      assert id' in l.At(s').pruneDue <==> id' in l.At(s').options && Prunable(l.At(s').options[id']);
    }
    forall t', s', id'
      ensures (t', s', id') in m.pruneQueue <==> id' in m.At(s').pruneDue && m.At(s').pruneDue[id'] == t'
    {
      assert s' == s || s' == Other(s);
      assert (t', s', id') in l.pruneQueue <==> id' in l.At(s').pruneDue && l.At(s').pruneDue[id'] == t';
    }
    forall s', id' | id' in m.At(s').pruneDue
      ensures IdleSince(m.history, s', id', m.At(s').pruneDue[id'] - OPTION_IDLE_GRACE)
    {
      assert s' == s || s' == Other(s);
      assert id' in l.At(s').pruneDue;
    }
  }

  lemma PrunedBooks(l: Ledger, m: Ledger, s: StreamId, id: int)
    requires Books(l) && Pruned(l, m, s, id) && Schedule(m) && Idle(m) && l.At(s).options[id].amount == 0
    ensures Books(m) && Slack(m) == Slack(l)
  {
    hide Schedule, Idle, Weight, Accrued, Unsettled, OptionOk;
    DropWeight(l.At(s).options, id);
    DropAccrued(l.At(s).options, id);
    DropUnsettled(l.At(s).options, l.At(s).index, id);
    assert StreamBooks(l.At(s));
    assert StreamBooks(m.At(s)) && StreamBooks(m.At(Other(s)));
    assert StreamWorth(m.At(s)) == StreamWorth(l.At(s)) - PRECISION * l.At(s).options[id].accrued;
  }

  lemma PrunedVotes(st: Stream, m: Stream, id: int)
    requires Votes(st) && id in st.options
    requires m == st.(options := st.options - {id}, integrated := st.integrated - {id}, pruneDue := st.pruneDue - {id})
    ensures Votes(m)
  {
    forall i | Live(m.options, i) ensures m.options[i].amount == Support(m.voters, m.epoch, i) {
      assert Live(st.options, i);
    }
  }

  lemma ScheduledIsDead(l: Ledger, e: (int, StreamId, int))
    requires Books(l) && e in l.pruneQueue
    ensures e.2 in l.At(e.1).options && Prunable(l.At(e.1).options[e.2])
    ensures OptionOk(l.At(e.1).options[e.2], l.At(e.1).index) && l.At(e.1).options[e.2].amount == 0
    ensures IdleSince(l.history, e.1, e.2, e.0 - OPTION_IDLE_GRACE)
  {
    var (t, s, id) := e;
    assert (t, s, id) in l.pruneQueue;
    assert id in l.At(s).pruneDue && l.At(s).pruneDue[id] == t;
    assert StreamBooks(l.At(s));
  }

  lemma BalanceIsHeld(l: Ledger, s: StreamId, id: int)
    requires Books(l) && Slack(l) >= 0 && id in l.At(s).options
    ensures l.At(s).options[id].accrued <= l.held
  {
    hide Schedule, Idle, StreamBooks, StreamWorth, Accrued;
    BooksStream(l, s);
    BalanceInWorth(l.At(s), id);
    BooksStream(l, Other(s));
    StreamWorthNonNegative(l.At(Other(s)));
  }

  lemma BalanceInWorth(st: Stream, id: int)
    requires StreamBooks(st) && id in st.options
    ensures PRECISION * st.options[id].accrued <= StreamWorth(st)
  {
    forall k | k in st.options.Keys ensures Accruals(st.options)(k) >= 0 && Claims(st.options, st.index)(k) >= 0 {
      assert OptionOk(st.options[k], st.index);
      ProductNonNegative(st.options[k].amount, st.index - st.options[k].lastIndex);
    }
    Sums.TermBound(st.options.Keys, id, Accruals(st.options));
    Sums.NonNegative(st.options.Keys, Claims(st.options, st.index));
  }

  /** Removing a due entry: the option was dead ever since the grace period before its
      date, exactly its balance leaves the books and the account, no weight moves, and
      the burn never fails. */
  lemma PruneEntryInv(l: Ledger, e: (int, StreamId, int))
    requires Inv(l) && e in l.pruneQueue
    ensures Inv(PruneEntry(l, e))
    ensures Pruned(l, PruneEntry(l, e), e.1, e.2)
    ensures PruneEntry(l, e).pruneQueue == l.pruneQueue - {e}
    ensures IdleSince(l.history, e.1, e.2, e.0 - OPTION_IDLE_GRACE)
  {
    hide Books, Slack, Votes, LeasesRespected, Pruned, PruneEntry, Prunable, Schedule, Idle, IdleSince;
    var m := PruneEntry(l, e);
    ScheduledIsDead(l, e);
    BalanceIsHeld(l, e.1, e.2);
    PruneEntryShape(l, e);
    assert e == (e.0, e.1, e.2);
    BooksSchedule(l);
    PrunedSchedule(l, m, e.1, e.2, e.0);
    PrunedBooks(l, m, e.1, e.2);
    PrunedFrame(l, m, e.1, e.2);
    PrunedVotes(l.At(e.1), m.At(e.1), e.2);
    assert Votes(m.At(Other(e.1)));
  }

  lemma BooksSchedule(l: Ledger)
    requires Books(l)
    ensures Schedule(l) && Idle(l)
  {
  }

  lemma PrunedFrame(l: Ledger, m: Ledger, s: StreamId, id: int)
    requires Pruned(l, m, s, id)
    ensures m.At(s) == l.At(s).(options := l.At(s).options - {id}, integrated := l.At(s).integrated - {id},
                            pruneDue := l.At(s).pruneDue - {id})
    ensures m.At(Other(s)) == l.At(Other(s)) && id in l.At(s).options && m.history == l.history
  {
  }

  lemma {:induction false} PruneEntriesInv(l: Ledger, es: seq<(int, StreamId, int)>)
    requires Inv(l)
    requires forall e | e in es :: e in l.pruneQueue
    requires forall i, j | 0 <= i < j < |es| :: es[i] != es[j]
    ensures Inv(PruneEntries(l, es))
    ensures PruneEntries(l, es).pruneQueue == l.pruneQueue - (set e | e in es)
    ensures PruneEntries(l, es).history == l.history
  {
    hide Inv, Pruned, PruneEntry;
    if es != [] {
      var front, e := es[..|es| - 1], es[|es| - 1];
      PruneEntriesInv(l, front);
      assert e in es && e !in front;
      var m := PruneEntries(l, front);
      PruneEntryInv(m, e);
      PrunedFrame(m, PruneEntry(m, e), e.1, e.2);
      assert (set x | x in es) == (set x | x in front) + {e};
    }
  }
}
