/** What the remaining calls leave behind: new options, resets, strikes, draws, handlers'
    reports, the residue, the cursors and the prunes. */
module AllocationOutcomes {
  import opened AllocationTypes
  import opened AllocationLedger
  import opened AllocationBooks
  import opened AllocationSettle
  import opened AllocationVotes
  import opened AllocationOps
  import opened AllocationPayments
  import opened AllocationBlocks
  import opened AllocationRun
  import opened AllocationEarnings
  import opened AllocationBallots
  import Onward = AllocationOnward
  import Orders
  import Sums

  // ---------------------------------------------------------------- the slate

  /** All options but one are exactly as they were. */
  ghost predicate OthersKept(a: Stream, b: Stream, id: int) {
    a.options - {id} == b.options - {id}
  }

  /** A new option is on the slate under an unused id, with the recipient given, no weight
      and nothing due; it is claimable by its claimer alone, or by anyone if it has none, and
      in the handlers' hands exactly if it is integrated. */
  lemma AppendedOption(l: Ledger, s: StreamId, kind: Kind, recipient: string, claimer: string, now: nat)
    requires Inv(l)
    ensures var a, b, id := l.At(s), AppendOption(l, s, kind, recipient, claimer, now).At(s), l.At(s).seqNo + 1;
      && id !in a.options && id in b.options && OthersKept(a, b, id) && b.seqNo == id
      && b.options[id].kind == kind && b.options[id].recipient == recipient
      && b.options[id].amount == 0 && Due(b, id) == 0 && !b.options[id].removed
      && (forall caller :: Claimable(b, id, caller) <==> kind == Address && (claimer == "" || caller == claimer))
      && b.integrated == (if kind == Integrated then a.integrated + {id} else a.integrated)
      && b.voters == a.voters && b.total == a.total && b.index == a.index
  {
    hide SetOption, Books, Slack, Votes, LeasesRespected;
    var st := l.At(s);
    var id := st.seqNo + 1;
    NewOption(l, s, id);
    var o := AllocationOption(kind, recipient, claimer, 0, 0, st.index, false);
    SetOptionFrame(l.With(s, st.(seqNo := id)), s, id, o, now);
  }

  // ---------------------------------------------------------------- resets

  /** m is l with the listed options weightless and everything they earned in their balance. */
  ghost predicate Banked(a: Stream, b: Stream, ids: seq<int>) {
    && b.options.Keys == a.options.Keys && b.index == a.index
    && forall id | id in a.options ::
         && SameFace(a.options[id], b.options[id]) && b.options[id].removed == a.options[id].removed
         && Due(b, id) == Due(a, id)
         && (id in ids ==> b.options[id].amount == 0 && b.options[id].accrued == Due(a, id))
  }

  lemma RetireOptionBanks(l: Ledger, m: Ledger, s: StreamId, ids: seq<int>, id: int, now: nat)
    requires Banked(l.At(s), m.At(s), ids)
    ensures Banked(l.At(s), RetireOption(m, s, id, now).At(s), ids + [id])
    ensures RetireOption(m, s, id, now).held == m.held
  {
    hide SetOption;
    if id in m.At(s).options {
      var o := m.At(s).options[id];
      SetOptionFrame(m, s, id, SettleOption(o, m.At(s).index).(amount := 0), now);
    }
  }

  lemma {:induction false} RetireAllBanks(l: Ledger, s: StreamId, ids: seq<int>, now: nat)
    ensures Banked(l.At(s), RetireAll(l, s, ids, now).At(s), ids)
    ensures RetireAll(l, s, ids, now).held == l.held
  {
    hide RetireOption, SettleOption;
    if ids != [] {
      var front, id := ids[..|ids| - 1], ids[|ids| - 1];
      RetireAllBanks(l, s, front, now);
      RetireOptionBanks(l, RetireAll(l, s, front, now), s, front, id, now);
      assert front + [id] == ids;
    }
  }

  /** A reset confiscates nothing: every option keeps in its balance all it was entitled to
      at the block time, and carries no weight; every vote is of an earlier epoch. */
  lemma ResetBanks(l: Ledger, s: StreamId, now: nat)
    ensures var a, b := AdvanceTo(l, s, now), ResetAllocations(l, s, now);
      && b.At(s).options.Keys == l.At(s).options.Keys && b.held == a.held
      && (forall id | id in l.At(s).options ::
            && SameFace(l.At(s).options[id], b.At(s).options[id])
            && b.At(s).options[id].amount == 0
            && b.At(s).options[id].accrued == Due(b.At(s), id) == Due(a.At(s), id))
      && b.At(s).total == 0 && b.At(s).epoch == l.At(s).epoch + 1 && b.At(s).voters == l.At(s).voters
      && b.At(Other(s)) == l.At(Other(s))
  {
    hide RetireAll, AdvanceTo, SettleOption, Due, SameFace, Orders.Ascending;
    AdvanceFrame(l, s, now);
    var l1 := AdvanceTo(l, s, now);
    var ids := Orders.Ascending(l1.At(s).options.Keys);
    RetireAllBanks(l1, s, ids, now);
    RetireAllFrame(l1, s, ids, now);
    var l2, b := RetireAll(l1, s, ids, now), ResetAllocations(l, s, now);
    assert b.At(s) == l2.At(s).(total := 0, epoch := l2.At(s).epoch + 1);
    forall id | id in l.At(s).options ensures
      && SameFace(l.At(s).options[id], b.At(s).options[id])
      && b.At(s).options[id].amount == 0
      && b.At(s).options[id].accrued == Due(b.At(s), id) == Due(l1.At(s), id)
    {
      assert id in l1.At(s).options && id in ids;
      DueSame(l2.At(s), b.At(s), id);
    }
  }

  lemma {:induction false} RetireAllFrame(l: Ledger, s: StreamId, ids: seq<int>, now: nat)
    ensures var m := RetireAll(l, s, ids, now);
      m.At(Other(s)) == l.At(Other(s)) && m.At(s).voters == l.At(s).voters && m.At(s).epoch == l.At(s).epoch
  {
    hide SetOption, SettleOption;
    if ids != [] {
      var m, id := RetireAll(l, s, ids[..|ids| - 1], now), ids[|ids| - 1];
      RetireAllFrame(l, s, ids[..|ids| - 1], now);
      if id in m.At(s).options {
        SetOptionFrame(m, s, id, SettleOption(m.At(s).options[id], m.At(s).index).(amount := 0), now);
      }
    }
  }

  // ---------------------------------------------------------------- strikes

  /** A strike leaves the option on the slate marked, weightless, with nothing due and out of
      the handlers' hands; its weight leaves the total and all it was entitled to is burned.
      No other option and no vote is touched. */
  lemma StruckOption(l: Ledger, id: int, now: nat)
    requires Inv(l) && Live(l.groundworks.options, id)
    ensures var a, r := AdvanceTo(l, Groundworks, now), RemoveGroundworksOption(l, id, now);
      && r.Done?
      && var b := r.ledger;
         && b.held == a.held - Due(a.groundworks, id)
         && id in b.groundworks.options && b.groundworks.options[id].removed
         && b.groundworks.options[id].amount == 0 && Due(b.groundworks, id) == 0
         && id !in b.groundworks.integrated
         && b.groundworks.total == l.groundworks.total - l.groundworks.options[id].amount
         && OthersKept(l.groundworks, b.groundworks, id) && b.groundworks.voters == l.groundworks.voters
         && b.caretaker == l.caretaker
  {
    hide Books, Slack, LeasesRespected, Supported, VoterOk, LeasesQueued, AdvanceTo, SetOption, SettleOption;
    StrikeInv(l, id, now);
    AdvanceInv(l, Groundworks, now);
    var l1 := AdvanceTo(l, Groundworks, now);
    assert l1.groundworks == l1.At(Groundworks) && l1.groundworks.options == l.groundworks.options;
    var o := SettleOption(l1.groundworks.options[id], l1.groundworks.index);
    SettledBalance(l1, Groundworks, id);
    SettleKeepsWeight(l1.groundworks.options[id], l1.groundworks.index);
    var n := o.(removed := true, amount := 0, accrued := 0);
    SetOptionFrame(l1, Groundworks, id, n, now);
    StrikeWorth(l1.groundworks.options[id], l1.groundworks.index);
    StruckNothing(n, l1.groundworks.index);
    assert l1.caretaker == l.At(Other(Groundworks));
    assert Votes(l1.groundworks) by { SplitInv(l1); }
  }

  lemma StruckNothing(n: AllocationOption, index: int)
    requires n.amount == 0 && n.accrued == 0
    ensures SettleOption(n, index).accrued == 0
  {
  }

  // ---------------------------------------------------------------- draws and handlers

  lemma DrawnShare(balance: int, ppm: int, o: AllocationOption)
    requires balance == o.accrued >= 0 && ppm >= 0
    ensures 0 <= balance * ppm - PPM_DENOMINATOR * Drawn(o, ppm) < PPM_DENOMINATOR
  {
    ProductNonNegative(balance, ppm);
    ScaledDivision(balance * ppm, PPM_DENOMINATOR);
  }

  /** A draw pays its parts per million of the whole entitlement, rounded down, out of the
      account and leaves the option the rest. */
  lemma DrawPays(l: Ledger, s: StreamId, id: int, ppm: int, now: nat)
    requires Inv(l) && 0 <= ppm <= PPM_DENOMINATOR && id in l.At(s).options
    ensures var a, r := AdvanceTo(l, s, now), DrawAndPay(l, s, id, ppm, now);
      && r.Done?
      && var d := a.held - r.ledger.held;
         && 0 <= Due(a.At(s), id) * ppm - 1_000_000 * d < 1_000_000
         && Due(r.ledger.At(s), id) == Due(a.At(s), id) - d
         && OthersKept(l.At(s), r.ledger.At(s), id)
  {
    hide Inv, AdvanceTo, DrawFromOption, Due;
    DrawAndPayInv(l, s, id, ppm, now);
    AdvanceFrame(l, s, now);
    AdvanceInv(l, s, now);
    DrawTakes(AdvanceTo(l, s, now), s, id, ppm, now);
  }

  lemma DrawTakes(l: Ledger, s: StreamId, id: int, ppm: int, now: nat)
    requires Inv(l) && 0 <= ppm <= PPM_DENOMINATOR && id in l.At(s).options
    ensures var (m, d) := DrawFromOption(l, s, id, ppm, now);
      && m.held == l.held && d >= 0
      && 0 <= Due(l.At(s), id) * ppm - 1_000_000 * d < 1_000_000
      && Due(m.At(s), id) == Due(l.At(s), id) - d
      && OthersKept(l.At(s), m.At(s), id)
  {
    hide Inv, SetOption, SettleOption, Drawn;
    var o := SettleOption(l.At(s).options[id], l.At(s).index);
    SettledBalance(l, s, id);
    var d := Drawn(o, ppm);
    DrawnShare(o.accrued, ppm, o);
    DrawnBounds(o, ppm);
    var n := o.(accrued := o.accrued - d);
    SetOptionFrame(l, s, id, n, now);
    SettledDue(l.At(s).options[id], l.At(s).index, o.amount, o.accrued - d);
    assert o.(amount := o.amount, accrued := o.accrued - d) == n;
  }

  /** What a handler's report takes from an option due the given amount: the report itself,
      unless it is missing, negative or more than is due. */
  function Honoured(reports: map<int, int>, id: int, due: int): int {
    if id in reports && 0 <= reports[id] <= due then reports[id] else 0
  }

  function HonouredSum(st: Stream, ids: seq<int>, reports: map<int, int>): int {
    if ids == [] then 0 else
    HonouredSum(st, ids[..|ids| - 1], reports)
      + Honoured(reports, ids[|ids| - 1], Due(st, ids[|ids| - 1]))
  }

  lemma ResolveOnePays(l: Ledger, s: StreamId, id: int, reports: map<int, int>, now: nat)
    requires id in l.At(s).options
    ensures var m := ResolveOne(l, s, id, reports, now);
      var d := Honoured(reports, id, Due(l.At(s), id));
      && m.held == l.held - d && Due(m.At(s), id) == Due(l.At(s), id) - d
      && OthersKept(l.At(s), m.At(s), id) && m.At(s).index == l.At(s).index
      && m.At(s).options.Keys == l.At(s).options.Keys
  {
    hide SetOption, SettleOption;
    var st := l.At(s);
    var o := SettleOption(st.options[id], st.index);
    var r := Resolved(reports, id, o.accrued);
    var n := o.(accrued := o.accrued - r);
    SettledDue(st.options[id], st.index, o.amount, o.accrued - r);
    assert o.(amount := o.amount, accrued := o.accrued - r) == n;
    SetOptionFrame(l.(held := l.held - r), s, id, n, now);
  }

  /** The handlers of a stream are paid exactly their honoured reports: the account falls by
      their sum, each handled option by its own, and no other option is touched. */
  lemma {:induction false} ResolveAllPays(l: Ledger, s: StreamId, ids: seq<int>, reports: map<int, int>, now: nat)
    requires forall id | id in ids :: id in l.At(s).options
    requires forall i, j | 0 <= i < j < |ids| :: ids[i] != ids[j]
    ensures var m := ResolveAll(l, s, ids, reports, now);
      && m.held == l.held - HonouredSum(l.At(s), ids, reports)
      && m.At(s).index == l.At(s).index && m.At(s).options.Keys == l.At(s).options.Keys
      && (forall id | id in l.At(s).options && id !in ids :: m.At(s).options[id] == l.At(s).options[id])
      && (forall id | id in ids ::
            Due(m.At(s), id) == Due(l.At(s), id) - Honoured(reports, id, Due(l.At(s), id)))
  {
    hide ResolveOne, SettleOption, Honoured;
    if ids != [] {
      var front, id := ids[..|ids| - 1], ids[|ids| - 1];
      assert id in ids && id !in front;
      ResolveAllPays(l, s, front, reports, now);
      var m, n := ResolveAll(l, s, front, reports, now), ResolveAll(l, s, ids, reports, now);
      assert m.At(s).options[id] == l.At(s).options[id];
      ResolveOnePays(m, s, id, reports, now);
      forall j | j in l.At(s).options && j != id ensures n.At(s).options[j] == m.At(s).options[j] {
        assert j in m.At(s).options - {id};
        assert (n.At(s).options - {id})[j] == (m.At(s).options - {id})[j];
      }
    }
  }

  /** At the start of a block each stream's handlers are paid by their own reports, on what
      their options are due once the stream is swept: a is the state after Caretaker's sweep,
      b after Groundworks', w between the two. */
  lemma BeginBlockPays(l: Ledger, c: map<int, int>, g: map<int, int>, now: nat)
    returns (a: Ledger, w: Ledger, b: Ledger)
    requires Inv(l)
    ensures a == SweepLapses(l, Caretaker, now) && b == SweepLapses(w, Groundworks, now)
    ensures w.groundworks == l.groundworks
    ensures w.held == a.held - HonouredSum(a.caretaker, Orders.Ascending(a.caretaker.integrated), c)
    ensures forall id :: (id in a.caretaker.integrated ==> id in a.caretaker.options)
                         && (id in b.groundworks.integrated ==> id in b.groundworks.options)
    ensures var m := BeginBlock(l, c, g, now);
      && (forall id | id in m.caretaker.options ::
            Due(m.caretaker, id) == Due(a.caretaker, id)
              - if id in a.caretaker.integrated then Honoured(c, id, Due(a.caretaker, id)) else 0)
      && (forall id | id in m.groundworks.options ::
            Due(m.groundworks, id) == Due(b.groundworks, id)
              - if id in b.groundworks.integrated then Honoured(g, id, Due(b.groundworks, id)) else 0)
  {
    hide Inv, SweepLapses, SweepPrunableOptions, ResolveAll, Due, Honoured, HonouredSum, IdleSince, Orders.Ascending;
    a := SweepLapses(l, Caretaker, now);
    StreamPays(l, Caretaker, c, now);
    w := ResolveIntegrated(l, Caretaker, c, now);
    ResolveIntegratedInv(l, Caretaker, c, now);
    b := SweepLapses(w, Groundworks, now);
    StreamPays(w, Groundworks, g, now);
    var r := ResolveIntegrated(w, Groundworks, g, now);
    ResolveIntegratedInv(w, Groundworks, g, now);
    assert r.caretaker == r.At(Other(Groundworks)) == w.At(Caretaker);
    assert w.groundworks == w.At(Other(Caretaker)) == l.groundworks;
    var m := SweepPrunableOptions(r, now);
    SweptDue(r, now);
    assert m.caretaker == m.At(Caretaker) && m.groundworks == m.At(Groundworks);
    assert a.caretaker == a.At(Caretaker) && b.groundworks == b.At(Groundworks);
  }

  /** One stream's handlers, paid on what the sweep left them due. */
  lemma StreamPays(l: Ledger, s: StreamId, reports: map<int, int>, now: nat)
    requires Inv(l)
    ensures var a, m := SweepLapses(l, s, now), ResolveIntegrated(l, s, reports, now);
      && m.At(Other(s)) == l.At(Other(s))
      && m.held == a.held - HonouredSum(a.At(s), Orders.Ascending(a.At(s).integrated), reports)
      && (forall id | id in a.At(s).integrated :: id in a.At(s).options)
      && m.At(s).options.Keys == a.At(s).options.Keys
      && forall id | id in a.At(s).options ::
           Due(m.At(s), id) == Due(a.At(s), id)
             - if id in a.At(s).integrated then Honoured(reports, id, Due(a.At(s), id)) else 0
  {
    hide SweepLapses, ResolveAll, Honoured, HonouredSum, SettleOption, Slack, Books, LeasesRespected, Supported,
      VoterOk, LeasesQueued;
    SweepLapsesInv(l, s, now);
    SweepAside(l, s, now);
    var a := SweepLapses(l, s, now);
    assert Votes(a.At(s));
    var ids := Orders.Ascending(a.At(s).integrated);
    ResolveAllPays(a, s, ids, reports, now);
    ResolveAllAside(a, s, ids, reports, now);
  }

  lemma SweptDue(l: Ledger, now: nat)
    requires Inv(l)
    ensures var m := SweepPrunableOptions(l, now);
      forall s, id | id in m.At(s).options :: id in l.At(s).options && Due(m.At(s), id) == Due(l.At(s), id)
  {
    hide Inv, SweepPrunableOptions, IdleSince;
    Onward.SweepRemovesIdle(l, now);
    var m := SweepPrunableOptions(l, now);
    forall s, id | id in m.At(s).options ensures id in l.At(s).options && Due(m.At(s), id) == Due(l.At(s), id) {
      assert Onward.SweptStream(l.At(s), m.At(s));
    }
  }

  // ---------------------------------------------------------------- the residue

  /** At the end of a block a working sink takes the whole residue, coins and all; one that
      fails takes nothing. */
  lemma EndBlockSweeps(l: Ledger, vals: seq<Slashed>, now: nat)
    requires Inv(l)
    ensures var m := ResyncSlashed(l, vals, now);
      && EndBlock(l, vals, true, now).residue == 0
      && EndBlock(l, vals, true, now).held == m.held - m.residue
      && EndBlock(l, vals, false, now) == m
  {
    hide ResyncSlashed, Schedule, Idle, StreamBooks, Slack, Votes, LeasesRespected;
    ResyncSlashedInv(l, vals, now);
  }

  // ---------------------------------------------------------------- cursors

  function Later(a: int, b: int): int {
    if a >= b then a else b
  }

  /** An advance brings the cursor to the block time, or to the first lease queued to end
      before it: never past any of them, and never back. */
  lemma AdvanceReaches(l: Ledger, s: StreamId, now: nat)
    requires l.At(s).lastUpkeep > 0
    ensures var st, at := l.At(s), AdvanceTo(l, s, now).At(s).lastUpkeep;
      && (forall e | e in st.lapses && e.0 <= Seconds(now) :: at <= Later(st.lastUpkeep, e.0 * NANOS_PER_SECOND))
      && (at == Later(st.lastUpkeep, now)
          || exists e | e in st.lapses :: e.0 <= Seconds(now) && at == Later(st.lastUpkeep, e.0 * NANOS_PER_SECOND))
  {
    hide SettleTo;
    var st := l.At(s);
    SettleReaches(l, s, HeldTarget(st, now));
    var due := DueTimes(st, Seconds(now));
    forall e | e in st.lapses && e.0 <= Seconds(now) ensures HeldTarget(st, now) <= e.0 * NANOS_PER_SECOND {
      assert e.0 in due;
    }
    if due != {} {
      var t := Orders.Least(due);
      var e :| e in st.lapses && e.0 <= Seconds(now) && e.0 == t;
      SecondsAtMost(now, t);
    }
  }

  /** Settling to a given second stops there, or at the block time if that comes first, or at
      a lease that ends before; with none due it gets exactly there. */
  lemma AdvanceUntilReaches(l: Ledger, s: StreamId, t: nat, now: nat)
    requires l.At(s).lastUpkeep > 0
    ensures var st, m := l.At(s), AdvanceIndexTo(l, s, t, now).At(s).lastUpkeep;
      var at := if t * NANOS_PER_SECOND <= now then t * NANOS_PER_SECOND else now;
      && st.lastUpkeep <= m <= Later(st.lastUpkeep, at)
      && ((forall e | e in st.lapses :: e.0 > Seconds(at)) ==> m == Later(st.lastUpkeep, at))
  {
    hide SettleTo;
    var st := l.At(s);
    var at := if t > Seconds(now) then now else t * NANOS_PER_SECOND;
    assert at == if t * NANOS_PER_SECOND <= now then t * NANOS_PER_SECOND else now;
    SettleReaches(l, s, HeldTarget(st, at));
    if forall e | e in st.lapses :: e.0 > Seconds(at) {
      assert DueTimes(st, Seconds(at)) == {};
    }
  }

  /** A settlement over a weight is recorded with every lease counted in that weight. */
  lemma RecordsLeases(l: Ledger, s: StreamId, now: int, k: VoterKey)
    requires Minted(l, s, now) && k in l.At(s).voters
    requires l.At(s).voters[k].epoch == l.At(s).epoch && l.At(s).voters[k].expiresAt != 0
    ensures var h := SettleTo(l, s, now).history;
      && |h| == |l.history| + 1 && h[|l.history|].Settled?
      && h[|l.history|].stream == s && h[|l.history|].from == l.At(s).lastUpkeep && h[|l.history|].to == now
      && l.At(s).voters[k].expiresAt in h[|l.history|].leases
  {
  }

  lemma LapseOneAside(l: Ledger, s: StreamId, t: int, key: VoterKey, now: nat)
    ensures LapseOne(l, s, t, key, now).At(Other(s)) == l.At(Other(s))
  {
    hide WriteVoter, Recast;
    var st := l.At(s);
    WriteVoterRecast(l.With(s, st.(lapses := st.lapses - {(t, key)})), s, key, Voter([], [], 0, 0, 0), [], false, now);
  }

  lemma {:induction false} LapseKeysAside(l: Ledger, s: StreamId, t: int, keys: seq<VoterKey>, now: nat)
    ensures LapseKeys(l, s, t, keys, now).At(Other(s)) == l.At(Other(s))
  {
    hide LapseOne;
    if keys != [] {
      LapseKeysAside(l, s, t, keys[..|keys| - 1], now);
      LapseOneAside(LapseKeys(l, s, t, keys[..|keys| - 1], now), s, t, keys[|keys| - 1], now);
    }
  }

  lemma {:induction false} SweepAside(l: Ledger, s: StreamId, now: nat)
    ensures SweepLapses(l, s, now).At(Other(s)) == l.At(Other(s))
    decreases |DueEntries(l.At(s), Seconds(now))|
  {
    hide SettleTo, LapseKeys, Orders.Ascending;
    var due := DueTimes(l.At(s), Seconds(now));
    SettleToFrame(l, s, now);
    if due != {} {
      var t := Orders.Least(due);
      FewerDue(l, s, Seconds(now), now);
      SettleToFrame(l, s, t * NANOS_PER_SECOND);
      var at := t * NANOS_PER_SECOND;
      var l1 := if l.At(s).lastUpkeep != 0 && at > l.At(s).lastUpkeep then SettleTo(l, s, at) else l;
      LapseKeysAside(l1, s, t, Orders.Ascending(DueKeys(l1.At(s), t)), now);
      SweepAside(LapseAt(l, s, t, now), s, now);
    }
  }

  lemma {:induction false} ResolveAllAside(l: Ledger, s: StreamId, ids: seq<int>, reports: map<int, int>, now: nat)
    ensures var m := ResolveAll(l, s, ids, reports, now);
      && m.At(Other(s)) == l.At(Other(s)) && m.At(s).voters == l.At(s).voters && m.At(s).epoch == l.At(s).epoch
      && m.At(s).lastUpkeep == l.At(s).lastUpkeep && m.At(s).lapses == l.At(s).lapses
  {
    hide SetOption, SettleOption;
    if ids != [] {
      var m, id := ResolveAll(l, s, ids[..|ids| - 1], reports, now), ids[|ids| - 1];
      ResolveAllAside(l, s, ids[..|ids| - 1], reports, now);
      if id in m.At(s).options {
        var o := SettleOption(m.At(s).options[id], m.At(s).index);
        var r := Resolved(reports, id, o.accrued);
        SetOptionFrame(m.(held := m.held - r), s, id, o.(accrued := o.accrued - r), now);
      }
    }
  }

  lemma ResolveIntegratedVotes(l: Ledger, s: StreamId, reports: map<int, int>, now: nat, k: VoterKey)
    requires l.At(s).lastUpkeep >= 0
    ensures var st, m := l.At(s), ResolveIntegrated(l, s, reports, now);
      && m.At(Other(s)) == l.At(Other(s))
      && RecordOf(m.At(s), k) == (if Lapses(st, k, Seconds(now)) then Gone else RecordOf(st, k))
      && m.At(s).lastUpkeep == Later(st.lastUpkeep, now)
  {
    hide SweepLapses, ResolveAll, Orders.Ascending, Lapses;
    SweepExact(l, s, now, k);
    SweepAside(l, s, now);
    var l1 := SweepLapses(l, s, now);
    ResolveAllAside(l1, s, Orders.Ascending(l1.At(s).integrated), reports, now);
  }

  /** The start of a block settles both streams to its time and retires exactly the votes
      whose lease has ended; every other vote stands as it was. */
  lemma BeginBlockVotes(l: Ledger, c: map<int, int>, g: map<int, int>, now: nat, s: StreamId, k: VoterKey)
    requires Inv(l) && l.caretaker.lastUpkeep >= 0 && l.groundworks.lastUpkeep >= 0
    ensures var st, m := l.At(s), BeginBlock(l, c, g, now).At(s);
      && RecordOf(m, k) == (if Lapses(st, k, Seconds(now)) then Gone else RecordOf(st, k))
      && m.lastUpkeep == Later(st.lastUpkeep, now)
  {
    hide Inv, ResolveIntegrated, SweepPrunableOptions, Lapses, IdleSince;
    ResolveIntegratedVotes(l, Caretaker, c, now, k);
    ResolveIntegratedInv(l, Caretaker, c, now);
    var l1 := ResolveIntegrated(l, Caretaker, c, now);
    assert l1.groundworks == l1.At(Other(Caretaker)) == l.groundworks;
    ResolveIntegratedVotes(l1, Groundworks, g, now, k);
    ResolveIntegratedInv(l1, Groundworks, g, now);
    var l2 := ResolveIntegrated(l1, Groundworks, g, now);
    assert l2.caretaker == l2.At(Other(Groundworks)) == l1.caretaker;
    Onward.SweepRemovesIdle(l2, now);
    assert Onward.SweptStream(l2.At(s), SweepPrunableOptions(l2, now).At(s));
  }

  // ---------------------------------------------------------------- prunes

  lemma {:induction false} TakenFirst(q: set<(int, StreamId, int)>, now: int, n: nat)
    ensures var es, due := TakeDue(q, now, n), DueQueue(q, now);
      && |es| == (if |due| < n then |due| else n)
      && forall e, x | e in es && x in due && x !in es :: EntryBefore(e, x)
    decreases n
  {
    hide EntryBefore, TakeDue, DueQueue, FirstEntry;
    var due := DueQueue(q, now);
    if n == 0 || due == {} {
      TakeDueEnd(q, now, n);
    } else {
      var e := FirstEntry(due);
      TakeDueStep(q, now, n);
      DueWithout(q, now, e);
      TakenFirst(q - {e}, now, n - 1);
      FirstOfAll(due, e, TakeDue(q - {e}, now, n - 1));
    }
  }

  /** A write that leaves an option dead schedules its removal thirty days after the block's
      second, or keeps the date it has; one that leaves it alive takes it off the schedule. */
  lemma RemovalDate(l: Ledger, s: StreamId, id: int, o: AllocationOption, now: nat)
    requires Schedule(l)
    ensures var m := SetOption(l, s, id, o, now);
      forall t :: (t, s, id) in m.pruneQueue <==>
        && (o.removed || (o.kind == Address && o.amount == 0))
        && if id in l.At(s).pruneDue then t == l.At(s).pruneDue[id] else t == now / 1_000_000_000 + 2_592_000
  {
    hide SetOption;
    var m := SetOption(l, s, id, o, now);
    SetOptionSchedule(l, s, id, o, now);
    SetOptionFrame(l, s, id, o, now);
    if Prunable(o) {
      KeepsDate(l, s, id, o, now);
    }
    assert id in m.At(s).pruneDue <==> id in m.At(s).options && Prunable(m.At(s).options[id]);
  }

  lemma KeepsDate(l: Ledger, s: StreamId, id: int, o: AllocationOption, now: nat)
    requires Prunable(o)
    ensures var m := SetOption(l, s, id, o, now);
      id in m.At(s).pruneDue && m.At(s).pruneDue[id] ==
        if id in l.At(s).pruneDue then l.At(s).pruneDue[id] else Seconds(now) + OPTION_IDLE_GRACE
  {
  }

  lemma DueWithout(q: set<(int, StreamId, int)>, now: int, e: (int, StreamId, int))
    ensures DueQueue(q - {e}, now) == DueQueue(q, now) - {e}
  {
  }

  lemma FirstOfAll(due: set<(int, StreamId, int)>, e: (int, StreamId, int), rest: seq<(int, StreamId, int)>)
    requires forall x | x in due :: EntryBefore(e, x)
    requires forall f, x | f in rest && x in due - {e} && x !in rest :: EntryBefore(f, x)
    ensures forall f, x | f in [e] + rest && x in due && x !in [e] + rest :: EntryBefore(f, x)
  {
    hide EntryBefore;
  }

  lemma {:induction false} PrunedGone(l: Ledger, es: seq<(int, StreamId, int)>)
    requires Inv(l)
    requires forall e | e in es :: e in l.pruneQueue
    requires forall i, j | 0 <= i < j < |es| :: es[i] != es[j]
    ensures forall e | e in es :: e.2 !in PruneEntries(l, es).At(e.1).options
    ensures PruneEntries(l, es).held == l.held - BalanceSum(l, es)
    ensures forall s, id | id in l.At(s).options && forall e | e in es :: e.1 != s || e.2 != id ::
      id in PruneEntries(l, es).At(s).options && PruneEntries(l, es).At(s).options[id] == l.At(s).options[id]
  {
    hide Inv, PruneEntry;
    if es != [] {
      var front, e := es[..|es| - 1], es[|es| - 1];
      assert forall x | x in front :: x in es;
      PrunedGone(l, front);
      PruneEntriesInv(l, front);
      assert e in es && e !in front;
      var m := PruneEntries(l, front);
      PruneEntryInv(m, e);
      Apart(l, es);
      assert m.At(e.1).options[e.2] == l.At(e.1).options[e.2];
      forall x | x in es ensures x.2 !in PruneEntry(m, e).At(x.1).options {
        assert x == e || x in front;
        assert x.1 == e.1 || x.1 == Other(e.1);
      }
      forall s, id | id in l.At(s).options && forall x | x in es :: x.1 != s || x.2 != id ensures
        id in PruneEntry(m, e).At(s).options && PruneEntry(m, e).At(s).options[id] == l.At(s).options[id]
      {
        assert s == e.1 || s == Other(e.1);
        assert e.1 != s || e.2 != id;
      }
    }
  }

  /** One entry an option. */
  lemma Apart(l: Ledger, es: seq<(int, StreamId, int)>)
    requires Inv(l) && es != []
    requires forall e | e in es :: e in l.pruneQueue
    requires forall i, j | 0 <= i < j < |es| :: es[i] != es[j]
    ensures var front, e := es[..|es| - 1], es[|es| - 1];
      e.2 in l.At(e.1).options && forall x | x in front :: x.1 != e.1 || x.2 != e.2
  {
    hide Inv;
    var front, e := es[..|es| - 1], es[|es| - 1];
    assert e in es && e !in front;
    OnSchedule(l, e);
    OnSlate(l, e);
    forall x | x in front ensures x.1 != e.1 || x.2 != e.2 {
      assert x in es;
      OnSchedule(l, x);
      assert x == (x.0, x.1, x.2) && e == (e.0, e.1, e.2);
    }
  }

  lemma OnSchedule(l: Ledger, e: (int, StreamId, int))
    requires Inv(l) && e in l.pruneQueue
    ensures e.2 in l.At(e.1).pruneDue && l.At(e.1).pruneDue[e.2] == e.0
  {
    hide Slack, Votes, StreamBooks, Idle;
    var (t, s, id) := e;
    assert (t, s, id) in l.pruneQueue;
  }

  /** The balances of the options of the listed entries. */
  function BalanceSum(l: Ledger, es: seq<(int, StreamId, int)>): int {
    if es == [] then 0 else
    BalanceSum(l, es[..|es| - 1]) + AccruedAt(l.At(es[|es| - 1].1).options, es[|es| - 1].2)
  }

  /** The sweep removes the earliest due options, twenty at the most, burns exactly their
      balances, and leaves every other option as it was. */
  lemma SweepPrunes(l: Ledger, now: nat) returns (es: seq<(int, StreamId, int)>)
    requires Inv(l)
    ensures var m, due := SweepPrunableOptions(l, now), DueQueue(l.pruneQueue, Seconds(now));
      && |es| == (if |due| < 20 then |due| else 20)
      && (forall e | e in es :: e in due && e.2 in l.At(e.1).options && e.2 !in m.At(e.1).options)
      && (forall e, x | e in es && x in due && x !in es :: EntryBefore(e, x))
      && m.held == l.held - BalanceSum(l, es)
      && forall s, id | id in l.At(s).options && forall e | e in es :: e.1 != s || e.2 != id ::
           id in m.At(s).options && m.At(s).options[id] == l.At(s).options[id]
  {
    hide Inv, PruneEntries, EntryBefore, IdleSince, Prunable;
    es := TakeDue(l.pruneQueue, Seconds(now), OPTION_PRUNE_SWEEP_LIMIT);
    TakenFirst(l.pruneQueue, Seconds(now), OPTION_PRUNE_SWEEP_LIMIT);
    PrunedGone(l, es);
    forall e | e in es ensures e.2 in l.At(e.1).options {
      OnSlate(l, e);
    }
  }

  lemma OnSlate(l: Ledger, e: (int, StreamId, int))
    requires Inv(l) && e in l.pruneQueue
    ensures e.2 in l.At(e.1).options
  {
    ScheduledIsDead(l, e);
  }

  // ---------------------------------------------------------------- cover

  lemma {:induction false} SumAtMost(keys: set<int>, f: int -> int, u: int -> int, v: int -> int)
    requires forall k | k in keys :: PRECISION * f(k) <= PRECISION * u(k) + v(k)
    ensures PRECISION * Sums.Sum(keys, f) <= PRECISION * Sums.Sum(keys, u) + Sums.Sum(keys, v)
    decreases |keys|
  {
    if keys != {} {
      var k := Orders.Any(keys);
      Sums.Pick(keys, k, f);
      Sums.Pick(keys, k, u);
      Sums.Pick(keys, k, v);
      SumAtMost(keys - {k}, f, u, v);
    }
  }

  lemma OwedWithinWorth(st: Stream)
    requires StreamBooks(st)
    ensures PRECISION * Owed(st) <= StreamWorth(st)
  {
    forall k | k in st.options.Keys
      ensures PRECISION * Dues(st)(k) <= PRECISION * Accruals(st.options)(k) + Claims(st.options, st.index)(k)
    {
      StreamOptionOk(st, k);
      SettleOptionWorth(st.options[k], st.index);
    }
    SumAtMost(st.options.Keys, Dues(st), Accruals(st.options), Claims(st.options, st.index));
  }

  /** The coins held cover the residue and every option's whole entitlement at once. */
  lemma Covered(l: Ledger)
    requires Inv(l)
    ensures Surplus(l) >= 0
  {
    hide Owed, StreamWorth, Votes, LeasesRespected, Schedule, Idle, StreamBooks;
    SplitInv(l);
    OwedWithinWorth(l.caretaker);
    OwedWithinWorth(l.groundworks);
  }
}
