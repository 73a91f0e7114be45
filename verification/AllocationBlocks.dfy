/** The lease sweep, the prune sweep, and a block's beginning and end. */
module AllocationBlocks {
  import opened AllocationTypes
  import opened AllocationLedger
  import opened AllocationBooks
  import opened AllocationSettle
  import opened AllocationVotes
  import opened AllocationOps
  import opened AllocationPayments
  import Orders
  import Sums

  // ---------------------------------------------------------------- one lapse

  lemma WriteVoterQueue(l: Ledger, s: StreamId, key: VoterKey, rec: Voter, now: nat)
    ensures WriteVoter(l, s, key, rec, [], false, now).At(s).lapses == Unqueued(l.At(s), key)
    ensures WriteVoter(l, s, key, rec, [], false, now).At(s).voters == l.At(s).voters - {key}
  {
    hide AddContributions, LiveSum, Negated;
    var st := l.At(s);
    var l1 := l.With(s, st.(lapses := Unqueued(st, key)));
    var off := Negated(Previous(st, key));
    AddContributionsFrame(l1, s, off, now);
    AddContributionsFrame(AddContributions(l1, s, off, now), s, [], now);
  }

  /** Lapsing one entry takes it off the queue and puts nothing on. */
  lemma LapseOneQueue(l: Ledger, s: StreamId, t: int, key: VoterKey, now: nat)
    ensures LapseOne(l, s, t, key, now).At(s).lapses <= l.At(s).lapses - {(t, key)}
  {
    hide WriteVoter;
    var st := l.At(s);
    WriteVoterQueue(l.With(s, st.(lapses := st.lapses - {(t, key)})), s, key, Voter([], [], 0, 0, 0), now);
  }

  lemma {:induction false} LapseKeysQueue(l: Ledger, s: StreamId, t: int, keys: seq<VoterKey>, now: nat)
    ensures LapseKeys(l, s, t, keys, now).At(s).lapses <= l.At(s).lapses - (set k | k in keys :: (t, k))
  {
    hide LapseOne;
    if keys != [] {
      LapseKeysQueue(l, s, t, keys[..|keys| - 1], now);
      LapseOneQueue(LapseKeys(l, s, t, keys[..|keys| - 1], now), s, t, keys[|keys| - 1], now);
    }
  }

  /** Retiring a lapse second empties it and queues nothing new. */
  lemma LapseAtQueue(l: Ledger, s: StreamId, t: int, now: nat)
    ensures LapseAt(l, s, t, now).At(s).lapses <= set e | e in l.At(s).lapses && e.0 != t
  {
    hide LapseKeys, SettleTo;
    var at := t * NANOS_PER_SECOND;
    SettleToFrame(l, s, at);
    var l1 := if l.At(s).lastUpkeep != 0 && at > l.At(s).lastUpkeep then SettleTo(l, s, at) else l;
    var keys := Orders.Ascending(DueKeys(l1.At(s), t));
    LapseKeysQueue(l1, s, t, keys, now);
    forall e | e in LapseKeys(l1, s, t, keys, now).At(s).lapses ensures e in l.At(s).lapses && e.0 != t {
      assert e == (e.0, e.1);
      assert e.0 == t ==> e.1 in DueKeys(l1.At(s), t);
      assert e.0 == t && e.1 in keys ==> e in (set k | k in keys :: (t, k));
    }
  }

  lemma LapseOneInv(l: Ledger, s: StreamId, t: int, key: VoterKey, now: nat)
    requires Inv(l)
    ensures Inv(LapseOne(l, s, t, key, now))
  {
    hide Books, Slack, LeasesRespected, WriteVoter, Supported, HandlerSet, VoterOk;
    var st := l.At(s);
    var l1 := l.With(s, st.(lapses := st.lapses - {(t, key)}));
    VotesOutsideBooks(l, l1, s);
    assert Votes(st) && Votes(l.At(Other(s)));
    UnqueuedTally(st, l1.At(s));
    assert InvBut(l1, s, key);
    if key !in st.voters || st.voters[key].expiresAt > t || st.voters[key].epoch != st.epoch {
      assert Votes(l1.At(s)) && Votes(l1.At(Other(s)));
    } else {
      WriteVoterInv(l1, s, key, Voter([], [], 0, 0, 0), [], false, now);
    }
  }

  lemma UnqueuedTally(a: Stream, b: Stream)
    requires Tallied(a) && b == a.(lapses := b.lapses)
    ensures Tallied(b)
  {
  }

  lemma {:induction false} LapseKeysInv(l: Ledger, s: StreamId, t: int, keys: seq<VoterKey>, now: nat)
    requires Inv(l)
    ensures Inv(LapseKeys(l, s, t, keys, now))
  {
    hide Inv, LapseOne;
    if keys != [] {
      LapseKeysInv(l, s, t, keys[..|keys| - 1], now);
      LapseOneInv(LapseKeys(l, s, t, keys[..|keys| - 1], now), s, t, keys[|keys| - 1], now);
    }
  }

  // ---------------------------------------------------------------- the lease sweep

  function DueEntries(st: Stream, limit: int): set<(int, VoterKey)> {
    set e | e in st.lapses && e.0 <= limit
  }

  lemma FewerDue(l: Ledger, s: StreamId, limit: int, now: nat)
    requires DueTimes(l.At(s), limit) != {}
    ensures var t := Orders.Least(DueTimes(l.At(s), limit));
      |DueEntries(LapseAt(l, s, t, now).At(s), limit)| < |DueEntries(l.At(s), limit)|
  {
    hide LapseAt;
    var t := Orders.Least(DueTimes(l.At(s), limit));
    var e :| e in l.At(s).lapses && e.0 <= limit && e.0 == t;
    LapseAtQueue(l, s, t, now);
    assert DueEntries(LapseAt(l, s, t, now).At(s), limit) <= DueEntries(l.At(s), limit) - {e};
    Smaller(DueEntries(LapseAt(l, s, t, now).At(s), limit), DueEntries(l.At(s), limit), e);
  }

  lemma Smaller<T>(a: set<T>, b: set<T>, e: T)
    requires a <= b - {e} && e in b
    ensures |a| < |b|
  {
    Subset(a, b - {e});
  }

  lemma {:induction false} Subset<T>(a: set<T>, b: set<T>)
    requires a <= b
    ensures |a| <= |b|
    decreases |a|
  {
    if a != {} {
      var x :| x in a;
      Subset(a - {x}, b - {x});
    }
  }

  /** Retires every lease due by the block time, least second first, then settles to
      the block time. */
  function SweepLapses(l: Ledger, s: StreamId, now: nat): Ledger
    decreases |DueEntries(l.At(s), Seconds(now))|
  {
    var due := DueTimes(l.At(s), Seconds(now));
    if due == {} then SettleTo(l, s, now) else
    FewerDue(l, s, Seconds(now), now);
    SweepLapses(LapseAt(l, s, Orders.Least(due), now), s, now)
  }

  lemma CountedAfter(st: Stream, t: int)
    requires LeasesQueued(st)
    requires forall e | e in st.lapses :: t <= e.0
    ensures forall x | x in CountedLeases(st) :: t <= x
  {
    forall x | x in CountedLeases(st) ensures t <= x {
      var k :| k in st.voters && st.voters[k].epoch == st.epoch && st.voters[k].expiresAt == x && x != 0;
      assert (x, k) in st.lapses;
    }
  }

  lemma LapseAtInv(l: Ledger, s: StreamId, t: int, limit: int, now: nat)
    requires Inv(l) && t <= limit
    requires forall e | e in l.At(s).lapses && e.0 <= limit :: t <= e.0
    ensures Inv(LapseAt(l, s, t, now))
  {
    hide Books, Slack, LeasesRespected, Tallied, LeasesQueued, SettleTo, LapseKeys, CountedLeases;
    var at := t * NANOS_PER_SECOND;
    assert Votes(l.At(s));
    CountedAfter(l.At(s), t);
    SettleInv(l, s, at);
    var l1 := if l.At(s).lastUpkeep != 0 && at > l.At(s).lastUpkeep then SettleTo(l, s, at) else l;
    LapseKeysInv(l1, s, t, Orders.Ascending(DueKeys(l1.At(s), t)), now);
  }

  lemma SettleNowInv(l: Ledger, s: StreamId, now: nat)
    requires Inv(l) && DueTimes(l.At(s), Seconds(now)) == {}
    ensures Inv(SettleTo(l, s, now))
    ensures SettleTo(l, s, now).At(s).lapses == l.At(s).lapses
  {
    hide Books, Slack, LeasesRespected, Tallied, LeasesQueued, SettleTo, CountedLeases;
    var limit := Seconds(now);
    assert Votes(l.At(s));
    forall e | e in l.At(s).lapses ensures limit + 1 <= e.0 {
      assert e.0 <= limit ==> e.0 in DueTimes(l.At(s), limit);
    }
    CountedAfter(l.At(s), limit + 1);
    SecondsBound(now, limit + 1);
    SettleInv(l, s, now);
  }

  /** The sweep keeps the invariant and leaves no lease due at or before the block time. */
  lemma {:induction false} SweepLapsesInv(l: Ledger, s: StreamId, now: nat)
    requires Inv(l)
    ensures Inv(SweepLapses(l, s, now))
    ensures DueTimes(SweepLapses(l, s, now).At(s), Seconds(now)) == {}
    decreases |DueEntries(l.At(s), Seconds(now))|
  {
    hide Inv, SettleTo, LapseAt;
    var due := DueTimes(l.At(s), Seconds(now));
    if due == {} {
      SettleNowInv(l, s, now);
    } else {
      var t := Orders.Least(due);
      forall e | e in l.At(s).lapses && e.0 <= Seconds(now) ensures t <= e.0 {
        assert e.0 in due;
      }
      LapseAtInv(l, s, t, Seconds(now), now);
      FewerDue(l, s, Seconds(now), now);
      SweepLapsesInv(LapseAt(l, s, t, now), s, now);
    }
  }

  /** After the sweep every lease still counted ends strictly after the block time. */
  lemma NoLeaseOverdue(l: Ledger, s: StreamId, now: nat, x: int)
    requires Inv(l) && x in CountedLeases(SweepLapses(l, s, now).At(s))
    ensures x * NANOS_PER_SECOND > now
  {
    hide SweepLapses, Books, Slack, Tallied, LeasesRespected;
    SweepLapsesInv(l, s, now);
    var st := SweepLapses(l, s, now).At(s);
    assert Votes(st);
    var k :| k in st.voters && st.voters[k].epoch == st.epoch && st.voters[k].expiresAt == x && x != 0;
    assert (x, k) in st.lapses;
    assert x <= Seconds(now) ==> (x, k).0 in DueTimes(st, Seconds(now));
    SecondsBound(now, x);
  }

  // ---------------------------------------------------------------- the prune sweep

  predicate EntryBefore(a: (int, StreamId, int), b: (int, StreamId, int)) {
    || a.0 < b.0
    || (a.0 == b.0 && a.1 == Caretaker && b.1 == Groundworks)
    || (a.0 == b.0 && a.1 == b.1 && a.2 <= b.2)
  }

  /** The first entry of a non-empty schedule: earliest, then by stream, then by id. */
  function FirstEntry(q: set<(int, StreamId, int)>): (e: (int, StreamId, int))
    requires q != {}
    ensures e in q && forall x | x in q :: EntryBefore(e, x)
  {
    var times := set e | e in q :: e.0;
    assert times != {} by {
      var x :| x in q;
      assert x.0 in times;
    }
    var t := Orders.Least(times);
    var s := if exists e | e in q :: e.0 == t && e.1 == Caretaker then Caretaker else Groundworks;
    var ids := set e | e in q && e.0 == t && e.1 == s :: e.2;
    assert ids != {} by {
      var y :| y in q && y.0 == t && (s == Caretaker ==> y.1 == Caretaker);
      assert y.2 in ids;
    }
    var id := Orders.Least(ids);
    assert (t, s, id) in q by {
      var y :| y in q && y.0 == t && y.1 == s && y.2 == id;
      assert y == (t, s, id);
    }
    assert forall x | x in q :: EntryBefore((t, s, id), x) by {
      forall x | x in q ensures EntryBefore((t, s, id), x) {
        assert x.0 in times;
        assert x.0 == t && x.1 == s ==> x.2 in ids;
      }
    }
    (t, s, id)
  }

  function DueQueue(q: set<(int, StreamId, int)>, now: int): set<(int, StreamId, int)> {
    set e | e in q && e.0 <= now
  }

  /** The first n due entries of the schedule, in its order. */
  function TakeDue(q: set<(int, StreamId, int)>, now: int, n: nat): (es: seq<(int, StreamId, int)>)
    ensures forall e | e in es :: e in q && e.0 <= now
    ensures forall i, j | 0 <= i < j < |es| :: es[i] != es[j]
    ensures |es| <= n && (|es| < n ==> DueQueue(q, now) <= set e | e in es)
    decreases n
  {
    var due := DueQueue(q, now);
    if n == 0 || due == {} then [] else
    var e := FirstEntry(due);
    var rest := TakeDue(q - {e}, now, n - 1);
    assert |rest| < n - 1 ==> forall x | x in due :: x == e || x in DueQueue(q - {e}, now);
    [e] + rest
  }

  lemma TakeDueStep(q: set<(int, StreamId, int)>, now: int, n: nat)
    requires n > 0 && DueQueue(q, now) != {}
    ensures var e := FirstEntry(DueQueue(q, now)); TakeDue(q, now, n) == [e] + TakeDue(q - {e}, now, n - 1)
  {
  }

  lemma TakeDueEnd(q: set<(int, StreamId, int)>, now: int, n: nat)
    requires n == 0 || DueQueue(q, now) == {}
    ensures TakeDue(q, now, n) == []
  {
  }

  function SweepPrunableOptions(l: Ledger, now: nat): Ledger {
    PruneEntries(l, TakeDue(l.pruneQueue, Seconds(now), OPTION_PRUNE_SWEEP_LIMIT))
  }

  lemma SweepPrunableInv(l: Ledger, now: nat)
    requires Inv(l)
    ensures Inv(SweepPrunableOptions(l, now))
  {
    hide Inv, PruneEntries;
    PruneEntriesInv(l, TakeDue(l.pruneQueue, Seconds(now), OPTION_PRUNE_SWEEP_LIMIT));
  }

  // ---------------------------------------------------------------- blocks

  function ResolveIntegrated(l: Ledger, s: StreamId, reports: map<int, int>, now: nat): Ledger {
    var l1 := SweepLapses(l, s, now);
    ResolveAll(l1, s, Orders.Ascending(l1.At(s).integrated), reports, now)
  }

  lemma ResolveIntegratedInv(l: Ledger, s: StreamId, reports: map<int, int>, now: nat)
    requires Inv(l)
    ensures Inv(ResolveIntegrated(l, s, reports, now))
  {
    hide Books, Slack, LeasesRespected, Supported, VoterOk, LeasesQueued, SweepLapses, ResolveAll;
    SweepLapsesInv(l, s, now);
    var l1 := SweepLapses(l, s, now);
    assert Votes(l1.At(s));
    ResolveAllInv(l1, s, Orders.Ascending(l1.At(s).integrated), reports, now);
  }

  function BeginBlock(l: Ledger, caretakerReports: map<int, int>, groundworksReports: map<int, int>, now: nat): Ledger {
    SweepPrunableOptions(
      ResolveIntegrated(ResolveIntegrated(l, Caretaker, caretakerReports, now), Groundworks, groundworksReports, now),
        now)
  }

  lemma BeginBlockInv(l: Ledger, caretakerReports: map<int, int>, groundworksReports: map<int, int>, now: nat)
    requires Inv(l)
    ensures Inv(BeginBlock(l, caretakerReports, groundworksReports, now))
  {
    hide Inv, ResolveIntegrated, SweepPrunableOptions;
    ResolveIntegratedInv(l, Caretaker, caretakerReports, now);
    var l1 := ResolveIntegrated(l, Caretaker, caretakerReports, now);
    ResolveIntegratedInv(l1, Groundworks, groundworksReports, now);
    SweepPrunableInv(ResolveIntegrated(l1, Groundworks, groundworksReports, now), now);
  }

  /** An operator to re-weigh at the end of the block, with its bonded stake. */
  datatype Slashed = Slashed(key: VoterKey, weight: int, bondLeft: bool)

  function ResyncSlashed(l: Ledger, vals: seq<Slashed>, now: nat): Ledger {
    if vals == [] then l else
    var v := vals[|vals| - 1];
    ResyncFromBonded(ResyncSlashed(l, vals[..|vals| - 1], now), v.key, v.weight, v.bondLeft, now)
  }

  lemma {:induction false} ResyncSlashedInv(l: Ledger, vals: seq<Slashed>, now: nat)
    requires Inv(l)
    ensures Inv(ResyncSlashed(l, vals, now))
  {
    hide Inv, ResyncFromBonded;
    if vals != [] {
      var v := vals[|vals| - 1];
      ResyncSlashedInv(l, vals[..|vals| - 1], now);
      ResyncFromBondedInv(ResyncSlashed(l, vals[..|vals| - 1], now), v.key, v.weight, v.bondLeft, now);
    }
  }

  function EndBlock(l: Ledger, vals: seq<Slashed>, sinkWorks: bool, now: nat): Ledger {
    SweepResidue(ResyncSlashed(l, vals, now), sinkWorks)
  }

  /** The end-of-block check halts the chain: the module is short of what its options and
      residue say, or a stream's total differs from its running sum. */
  predicate Halts(l: Ledger) {
    || l.held < l.summedAccrued + l.residue
    || l.caretaker.total != l.caretaker.summed
    || l.groundworks.total != l.groundworks.summed
  }

  lemma UnsettledNonNegative(st: Stream)
    requires StreamBooks(st)
    ensures StreamWorth(st) >= PRECISION * Accrued(st.options)
  {
    forall k | k in st.options.Keys ensures Claims(st.options, st.index)(k) >= 0 {
      assert OptionOk(st.options[k], st.index);
      ProductNonNegative(st.options[k].amount, st.index - st.options[k].lastIndex);
    }
    Sums.NonNegative(st.options.Keys, Claims(st.options, st.index));
  }

  /** Neither halt can fire in a state that satisfies the invariant. */
  lemma NoHalt(l: Ledger)
    requires Inv(l)
    ensures !Halts(l)
  {
    UnsettledNonNegative(l.caretaker);
    UnsettledNonNegative(l.groundworks);
  }
}
