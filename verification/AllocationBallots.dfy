/** What a vote is worth and what filing one does: the share of the weight each percentage
    gives, the record every call leaves, and what each option gains or loses by it. */
module AllocationBallots {
  import opened AllocationTypes
  import opened AllocationLedger
  import opened AllocationBooks
  import opened AllocationSettle
  import opened AllocationVotes
  import opened AllocationOps
  import opened AllocationBlocks
  import Orders
  import Sums

  // ---------------------------------------------------------------- shares of a weight

  /** Each share gives its own option its percentage of the weight, less than one unit
      rounded off; a share of a weight of at least 100 gives something. */
  lemma ShareOfWeight(shares: seq<Share>, weight: int, i: nat)
    requires weight >= 0 && i < |shares|
    ensures var c := SplitContributions(shares, weight)[i];
      && c.option == shares[i].option
      && 0 <= weight * shares[i].percent - 100 * c.amount < 100
      && (weight >= 100 && shares[i].percent >= 1 ==> c.amount >= 1)
  {
    var n := weight * shares[i].percent;
    ProductNonNegative(weight, shares[i].percent);
    ScaledDivision(n, 100);
    if weight >= 100 && shares[i].percent >= 1 {
      ProductNonNegative(weight, shares[i].percent - 1);
      assert n == weight + weight * (shares[i].percent - 1);
    }
  }

  lemma {:induction false} SharesTotal(shares: seq<Share>, weight: int)
    requires weight >= 0
    ensures var t := 100 * Total(SplitContributions(shares, weight));
      t <= weight * ShareSum(shares) <= t + 99 * |shares|
  {
    hide SplitContributions;
    if shares == [] {
      assert SplitContributions(shares, weight) == [];
    } else {
      var front, last := shares[..|shares| - 1], shares[|shares| - 1];
      var cs := SplitContributions(shares, weight);
      SharesTotal(front, weight);
      ShareOfWeight(shares, weight, |front|);
      SplitFront(shares, weight);
      Sums.Distribute(weight, ShareSum(front), last.percent);
      assert Total(cs) == Total(SplitContributions(front, weight)) + cs[|front|].amount;
    }
  }

  lemma SplitFront(shares: seq<Share>, weight: int)
    requires shares != []
    ensures var n := |shares| - 1; SplitContributions(shares, weight)[..n] == SplitContributions(shares[..n], weight)
  {
  }

  /** A castable split hands out the whole weight, less fewer units than it has options, and
      of a weight of at least 100 something to each. */
  lemma SplitSpendsWeight(options: map<int, AllocationOption>, shares: seq<Share>, weight: int)
    requires weight >= 0 && ValidSplit(options, shares) && shares != []
    ensures weight - |shares| < Total(SplitContributions(shares, weight)) <= weight && |shares| <= 20
    ensures weight >= 100 ==> forall c | c in SplitContributions(shares, weight) :: c.amount >= 1
  {
    hide SplitContributions;
    SharesTotal(shares, weight);
    var cs := SplitContributions(shares, weight);
    forall i | 0 <= i < |cs| ensures weight >= 100 ==> cs[i].amount >= 1 {
      ShareOfWeight(shares, weight, i);
    }
  }

  /** Distinct shares do not add up on one option. */
  lemma {:induction false} ShareAlone(cs: seq<Contribution>, i: nat)
    requires i < |cs| && DistinctOptions(cs)
    ensures ContributionTo(cs, cs[i].option) == cs[i].amount
  {
    var front := cs[..|cs| - 1];
    if i == |front| {
      UnnamedOption(front, cs[i].option);
    } else {
      ShareAlone(front, i);
    }
  }

  // ---------------------------------------------------------------- the record of a vote

  datatype Record = Gone | Kept(voter: Voter)

  function RecordOf(st: Stream, key: VoterKey): Record {
    if key in st.voters then Kept(st.voters[key]) else Gone
  }

  /** What a record puts on an option in the given epoch. */
  function WeightOn(r: Record, epoch: nat, id: int): int {
    if r.Kept? && r.voter.epoch == epoch then ContributionTo(Contributions(r.voter), id) else 0
  }

  /** b is a with one voter's record replaced: no other voter moved, and each live option's
      weight moved by the difference of what the two records put on it. */
  ghost predicate Recast(a: Stream, b: Stream, key: VoterKey, r: Record) {
    && RecordOf(b, key) == r && (forall k | k != key :: RecordOf(b, k) == RecordOf(a, k))
    && b.epoch == a.epoch && b.options.Keys == a.options.Keys
    && forall id | id in a.options ::
         && b.options[id].removed == a.options[id].removed
         && b.options[id].amount == a.options[id].amount
              + if a.options[id].removed then 0 else WeightOn(r, a.epoch, id) - WeightOn(RecordOf(a, key), a.epoch, id)
  }

  /** The other stream, the coins, the residue and the stream's own clock are as they were. */
  ghost predicate Aside(l: Ledger, m: Ledger, s: StreamId) {
    && m.At(Other(s)) == l.At(Other(s)) && m.held == l.held && m.residue == l.residue
    && m.At(s).index == l.At(s).index && m.At(s).lastUpkeep == l.At(s).lastUpkeep
  }

  /** The record a write files and the contributions it applies say the same. */
  ghost predicate Says(rec: Voter, add: seq<Contribution>, keep: bool) {
    forall id :: ContributionTo(add, id) == if keep then ContributionTo(Contributions(rec), id) else 0
  }

  lemma WriteVoterRecast(l: Ledger, s: StreamId, key: VoterKey, rec: Voter, add: seq<Contribution>, keep: bool,
                         now: nat)
    requires Says(rec, add, keep)
    ensures var m := WriteVoter(l, s, key, rec, add, keep, now);
      var filed := rec.(expiresAt := LeaseOf(l.At(s), key, rec), epoch := l.At(s).epoch);
      Recast(l.At(s), m.At(s), key, if keep then Kept(filed) else Gone) && Aside(l, m, s)
  {
    hide AddContributions, Negated, LiveSum, Contributions;
    var st := l.At(s);
    var off := Negated(Previous(st, key));
    var l1 := l.With(s, st.(lapses := Unqueued(st, key)));
    var l2 := AddContributions(l1, s, off, now);
    AddContributionsFrame(l1, s, off, now);
    AddContributionsFrame(l2, s, add, now);
    var l3 := AddContributions(l2, s, add, now);
    var m := WriteVoter(l, s, key, rec, add, keep, now);
    var filed := rec.(expiresAt := LeaseOf(st, key, rec), epoch := st.epoch);
    var r := if keep then Kept(filed) else Gone;
    SameContributions(rec, filed);
    forall id | id in st.options ensures
      && m.At(s).options[id].removed == st.options[id].removed
      && m.At(s).options[id].amount == st.options[id].amount
           + if st.options[id].removed then 0 else WeightOn(r, st.epoch, id) - WeightOn(RecordOf(st, key), st.epoch, id)
    {
      PreviousSupport(st, key, id);
    }
  }

  lemma SameContributions(a: Voter, b: Voter)
    requires b == a.(expiresAt := b.expiresAt, epoch := b.epoch)
    ensures Contributions(a) == Contributions(b)
  {
  }

  // ---------------------------------------------------------------- splits

  lemma AdvanceFrame(l: Ledger, s: StreamId, now: nat)
    ensures OnlySettled(l, AdvanceTo(l, s, now), s)
  {
    hide SettleTo, OnlySettled;
    SettleToFrame(l, s, if l.At(s).lastUpkeep != 0 then HeldTarget(l.At(s), now) else now);
  }

  /** A settlement moves no record and no weight. */
  lemma RecastSettled(l: Ledger, l1: Ledger, b: Stream, s: StreamId, key: VoterKey, r: Record)
    requires OnlySettled(l, l1, s) && Recast(l1.At(s), b, key, r)
    ensures Recast(l.At(s), b, key, r)
  {
  }

  lemma NothingMoved(a: Stream, b: Stream, key: VoterKey)
    requires b.voters == a.voters && b.epoch == a.epoch && b.options == a.options
    ensures Recast(a, b, key, RecordOf(a, key))
  {
  }

  lemma SplitSays(shares: seq<Share>, weight: int, expiresAt: int)
    requires weight >= 0 || shares == []
    ensures
      Says(Voter(shares, [], weight, expiresAt, 0), SplitContributions(shares, weight), shares != [] && weight > 0)
  {
    if shares == [] || weight == 0 {
      forall c | c in SplitContributions(shares, weight) ensures c.amount == 0 {
        SplitNonNegative(shares, 0);
      }
      forall id ensures ContributionTo(SplitContributions(shares, weight), id) == 0 {
        AllZero(SplitContributions(shares, weight), id);
      }
    }
  }

  lemma ResyncVoterAtRecast(l: Ledger, s: StreamId, key: VoterKey, shares: seq<Share>, weight: int, expiresAt: int,
                            now: nat)
    requires weight >= 0 || shares == []
    ensures var st, m := l.At(s), ResyncVoterAt(l, s, key, shares, weight, expiresAt, now);
      var kept := ExistingSplit(st.options, shares);
      var rec := Voter(kept, [], weight, expiresAt, st.epoch);
      && Recast(st, m.At(s), key,
           if kept != [] && weight > 0 then Kept(rec.(expiresAt := LeaseOf(st, key, rec))) else Gone)
      && Aside(l, m, s)
  {
    hide WriteVoter, Recast, Says, SplitContributions;
    var kept := ExistingSplit(l.At(s).options, shares);
    SplitSays(kept, weight, expiresAt);
    WriteVoterRecast(l, s, key, Voter(kept, [], weight, expiresAt, 0), SplitContributions(kept, weight),
                     kept != [] && weight > 0, now);
  }

  lemma {:induction false} WholeSplit(options: map<int, AllocationOption>, shares: seq<Share>)
    requires forall w | w in shares :: w.option in options
    ensures ExistingSplit(options, shares) == shares
  {
    if shares != [] {
      var front, last := shares[..|shares| - 1], shares[|shares| - 1];
      WholeSplit(options, front);
      assert last in shares;
      assert shares == front + [last];
    }
  }

  /** The lease a cast vote is filed with: a new one, or with none the one already held. */
  function LeaseAfter(st: Stream, key: VoterKey, lease: int): int {
    if lease != 0 || key !in st.voters || st.voters[key].epoch != st.epoch then lease else st.voters[key].expiresAt
  }

  lemma CastRecast(l: Ledger, s: StreamId, key: VoterKey, shares: seq<Share>, weight: int, lease: int, now: nat)
    requires ValidSplit(l.At(s).options, shares) && (shares == [] || weight > 0)
    ensures var st, m := l.At(s), ResyncVoterAt(AdvanceTo(l, s, now), s, key, shares, weight, lease, now);
      && Recast(st, m.At(s), key,
           if shares == [] then Gone else Kept(Voter(shares, [], weight, LeaseAfter(st, key, lease), st.epoch)))
      && Aside(AdvanceTo(l, s, now), m, s)
  {
    hide AdvanceTo, ResyncVoterAt, Recast;
    var l1 := AdvanceTo(l, s, now);
    AdvanceFrame(l, s, now);
    WholeSplit(l.At(s).options, shares);
    ResyncVoterAtRecast(l1, s, key, shares, weight, lease, now);
    var st := l.At(s);
    RecastSettled(l, l1, ResyncVoterAt(l1, s, key, shares, weight, lease, now).At(s), s, key,
      if shares == [] then Gone else Kept(Voter(shares, [], weight, LeaseAfter(st, key, lease), st.epoch)));
  }

  /** An accepted split leaves exactly the record cast, at its whole weight, or none for an
      empty one; the options' weights follow. */
  lemma VoterSplitFiles(l: Ledger, s: StreamId, key: VoterKey, shares: seq<Share>, weight: int, now: nat)
    requires SetVoterSplit(l, s, key, shares, weight, now).Done?
    ensures var st, m := l.At(s), SetVoterSplit(l, s, key, shares, weight, now).ledger;
      && (shares != [] ==> weight > 0)
      && Recast(st, m.At(s), key,
           if shares == [] then Gone else Kept(Voter(shares, [], weight, LeaseAfter(st, key, 0), st.epoch)))
      && Aside(AdvanceTo(l, s, now), m, s)
  {
    hide AdvanceTo, ResyncVoterAt, Recast, ValidSplit;
    CastRecast(l, s, key, shares, weight, 0, now);
  }

  /** A split applied on Groundworks is leased, from this second for the lease's length. */
  lemma SplitFiles(l: Ledger, s: StreamId, key: VoterKey, shares: seq<Share>, weight: int, leaseSeconds: nat, now: nat)
    requires ApplySplit(l, s, key, shares, weight, leaseSeconds, now).Done?
    ensures var st, m := l.At(s), ApplySplit(l, s, key, shares, weight, leaseSeconds, now).ledger;
      var lease := if s == Groundworks then now / NANOS_PER_SECOND + leaseSeconds else 0;
      && (shares != [] ==> weight > 0)
      && Recast(st, m.At(s), key,
           if shares == [] then Gone else Kept(Voter(shares, [], weight, LeaseAfter(st, key, lease), st.epoch)))
      && Aside(AdvanceTo(l, s, now), m, s)
  {
    hide AdvanceTo, ResyncVoterAt, Recast, ValidSplit;
    CastRecast(l, s, key, shares, weight, if s == Groundworks && shares != [] then Seconds(now) + leaseSeconds else 0,
      now);
  }

  /** What a cast split does to the options: each named one gains its percentage of the
      weight, in place of whatever the voter put on it before; the others lose that. */
  ghost predicate Weighs(a: Stream, b: Stream, key: VoterKey, shares: seq<Share>, weight: int)
    requires b.options.Keys == a.options.Keys
  {
    && (forall i | 0 <= i < |shares| :: Live(a.options, shares[i].option) &&
          var id := shares[i].option;
          var gain := b.options[id].amount - (a.options[id].amount - WeightOn(RecordOf(a, key), a.epoch, id));
          0 <= weight * shares[i].percent - 100 * gain < 100)
    && (forall id | Live(a.options, id) && forall w | w in shares :: w.option != id ::
          b.options[id].amount == a.options[id].amount - WeightOn(RecordOf(a, key), a.epoch, id))
  }

  lemma RecastWeighs(a: Stream, b: Stream, key: VoterKey, shares: seq<Share>, weight: int, lease: int)
    requires ValidSplit(a.options, shares) && (shares == [] || weight > 0)
    requires Recast(a, b, key, if shares == [] then Gone else Kept(Voter(shares, [], weight, lease, a.epoch)))
    ensures Weighs(a, b, key, shares, weight)
  {
    hide SplitContributions;
    var cs := SplitContributions(shares, weight);
    forall i | 0 <= i < |shares| ensures shares[i].option == cs[i].option {
      ShareOfWeight(shares, weight, i);
    }
    forall i | 0 <= i < |shares| ensures Live(a.options, shares[i].option) &&
      var id := shares[i].option;
      var gain := b.options[id].amount - (a.options[id].amount - WeightOn(RecordOf(a, key), a.epoch, id));
      0 <= weight * shares[i].percent - 100 * gain < 100
    {
      ShareOfWeight(shares, weight, i);
      ShareAlone(cs, i);
    }
    forall id | Live(a.options, id) && forall w | w in shares :: w.option != id
      ensures b.options[id].amount == a.options[id].amount - WeightOn(RecordOf(a, key), a.epoch, id)
    {
      forall c | c in cs ensures c.option != id {
        var i :| 0 <= i < |cs| && c == cs[i];
        assert shares[i] in shares;
      }
      UnnamedOption(cs, id);
    }
  }

  /** Both ways of casting a split weigh it so. */
  lemma SplitGains(l: Ledger, s: StreamId, key: VoterKey, shares: seq<Share>, weight: int, leaseSeconds: nat, now: nat)
    ensures var r := SetVoterSplit(l, s, key, shares, weight, now); r.Done? ==>
      r.ledger.At(s).options.Keys == l.At(s).options.Keys && Weighs(l.At(s), r.ledger.At(s), key, shares, weight)
    ensures var r := ApplySplit(l, s, key, shares, weight, leaseSeconds, now); r.Done? ==>
      r.ledger.At(s).options.Keys == l.At(s).options.Keys && Weighs(l.At(s), r.ledger.At(s), key, shares, weight)
  {
    hide AdvanceTo, ResyncVoterAt, Weighs, ValidSplit, RecordOf, WeightOn;
    var st := l.At(s);
    var r := SetVoterSplit(l, s, key, shares, weight, now);
    if r.Done? {
      VoterSplitFiles(l, s, key, shares, weight, now);
      RecastWeighs(st, r.ledger.At(s), key, shares, weight, LeaseAfter(st, key, 0));
      SplitFiles(l, s, key, shares, weight, leaseSeconds, now);
      var lease := if s == Groundworks then now / NANOS_PER_SECOND + leaseSeconds else 0;
      RecastWeighs(st, ApplySplit(l, s, key, shares, weight, leaseSeconds, now).ledger.At(s), key, shares, weight,
        LeaseAfter(st, key, lease));
    }
  }

  // ---------------------------------------------------------------- replays

  /** The record a replay at a new weight leaves: none of a stale vote, and else the part of
      the split that still exists, at that weight; a vote without weight stays only where
      zero is kept. */
  function Replayed(st: Stream, key: VoterKey, weight: int, keepZero: bool): Record {
    if key !in st.voters || st.voters[key].epoch != st.epoch then Gone else
    var v := st.voters[key];
    var kept := ExistingSplit(st.options, v.percentages);
    if kept == [] || (weight == 0 && !keepZero) then Gone
    else Kept(v.(percentages := kept, optionWeights := [], weight := weight))
  }

  lemma DropRecast(l: Ledger, s: StreamId, key: VoterKey)
    requires key in l.At(s).voters && l.At(s).voters[key].epoch != l.At(s).epoch
    ensures Recast(l.At(s), DropVoter(l, s, key).At(s), key, Gone) && Aside(l, DropVoter(l, s, key), s)
  {
  }

  /** Replaying a voter: its record is the replayed one, a weighted voter is left alone. */
  lemma ResyncReplays(l: Ledger, s: StreamId, key: VoterKey, weight: int, now: nat)
    requires weight >= 0
    ensures var st, m := l.At(s), ResyncVoter(l, s, key, weight, now);
      && Recast(st, m.At(s), key,
           if key in st.voters && st.voters[key].epoch == st.epoch && st.voters[key].optionWeights != []
           then RecordOf(st, key) else Replayed(st, key, weight, false))
      && Aside(AdvanceTo(l, s, now), m, s)
  {
    hide AdvanceTo, ResyncVoterAt, Recast, DropVoter;
    var l1, m := AdvanceTo(l, s, now), ResyncVoter(l, s, key, weight, now);
    AdvanceFrame(l, s, now);
    var st, st1 := l.At(s), l1.At(s);
    NothingMoved(st, st1, key);
    if key in st1.voters {
      var v := st1.voters[key];
      if v.epoch != st1.epoch {
        DropRecast(l1, s, key);
        RecastSettled(l, l1, m.At(s), s, key, Gone);
      } else if v.optionWeights == [] {
        ResyncVoterAtRecast(l1, s, key, v.percentages, weight, 0, now);
        RecastSettled(l, l1, m.At(s), s, key, Replayed(st, key, weight, false));
      }
    }
  }

  lemma ZeroSays(shares: seq<Share>)
    ensures Says(Voter(shares, [], 0, 0, 0), [], shares != [])
  {
    var cs := SplitContributions(shares, 0);
    SplitNonNegative(shares, 0);
    forall id ensures ContributionTo(cs, id) == 0 {
      AllZero(cs, id);
    }
  }

  lemma KeepRecast(l: Ledger, s: StreamId, key: VoterKey, weight: int, keepZero: bool, now: nat)
    requires weight >= 0 && key in l.At(s).voters && l.At(s).voters[key].epoch == l.At(s).epoch
    ensures var m := ResyncVoterKeep(l, s, key, l.At(s).voters[key].percentages, weight, keepZero, now);
      Recast(l.At(s), m.At(s), key, Replayed(l.At(s), key, weight, keepZero)) && Aside(l, m, s)
  {
    hide WriteVoter, ResyncVoterAt, Recast, Says;
    var v := l.At(s).voters[key];
    if !keepZero || weight > 0 {
      ResyncVoterAtRecast(l, s, key, v.percentages, weight, 0, now);
    } else {
      var kept := ExistingSplit(l.At(s).options, v.percentages);
      ZeroSays(kept);
      WriteVoterRecast(l, s, key, Voter(kept, [], 0, 0, 0), [], kept != [], now);
    }
  }

  /** An operator's vote follows its bonded stake: the record is replayed at it, at nothing
      where it is negative, and stays at nothing while some bond is left. */
  lemma BondedReplays(l: Ledger, key: VoterKey, weight: int, bondLeft: bool, now: nat)
    ensures var st, m := l.groundworks, ResyncFromBonded(l, key, weight, bondLeft, now);
      && Recast(st, m.groundworks, key, Replayed(st, key, if weight > 0 then weight else 0, bondLeft))
      && Aside(AdvanceTo(l, Groundworks, now), m, Groundworks)
  {
    hide AdvanceTo, ResyncVoterKeep, Recast, DropVoter;
    var l1, m := AdvanceTo(l, Groundworks, now), ResyncFromBonded(l, key, weight, bondLeft, now);
    AdvanceFrame(l, Groundworks, now);
    var st, st1 := l.groundworks, l1.groundworks;
    assert st == l.At(Groundworks) && st1 == l1.At(Groundworks);
    NothingMoved(st, st1, key);
    if key in st1.voters {
      if st1.voters[key].epoch != st1.epoch {
        DropRecast(l1, Groundworks, key);
        RecastSettled(l, l1, m.groundworks, Groundworks, key, Gone);
      } else {
        KeepRecast(l1, Groundworks, key, Clamped(weight), bondLeft, now);
        RecastSettled(l, l1, m.groundworks, Groundworks, key, Replayed(st, key, Clamped(weight), bondLeft));
      }
    }
  }

  lemma ReplayedSame(a: Stream, b: Stream, key: VoterKey, weight: int, keepZero: bool)
    requires RecordOf(a, key) == RecordOf(b, key) && a.epoch == b.epoch && a.options.Keys == b.options.Keys
    ensures Replayed(a, key, weight, keepZero) == Replayed(b, key, weight, keepZero)
  {
    if key in a.voters {
      SameExisting(a.options, b.options, a.voters[key].percentages);
    }
  }

  lemma {:induction false} SameExisting(a: map<int, AllocationOption>, b: map<int, AllocationOption>,
                                        shares: seq<Share>)
    requires a.Keys == b.Keys
    ensures ExistingSplit(a, shares) == ExistingSplit(b, shares)
  {
    if shares != [] {
      SameExisting(a, b, shares[..|shares| - 1]);
      assert shares[|shares| - 1].option in a.Keys <==> shares[|shares| - 1].option in b.Keys;
    }
  }

  ghost predicate NamedOnce(vals: seq<Slashed>, i: nat, key: VoterKey)
    requires i < |vals|
  {
    vals[i].key == key && forall j | 0 <= j < |vals| && j != i :: vals[j].key != key
  }

  /** At the end of a block every operator named once is replayed at the stake reported for
      it, and nobody else's record moves. */
  lemma {:induction false} SlashedReplayed(l: Ledger, vals: seq<Slashed>, now: nat, key: VoterKey)
    ensures var st, m := l.groundworks, ResyncSlashed(l, vals, now).groundworks;
      && m.epoch == st.epoch && m.options.Keys == st.options.Keys
      && ((forall i | 0 <= i < |vals| :: vals[i].key != key) ==> RecordOf(m, key) == RecordOf(st, key))
      && (forall i | 0 <= i < |vals| && NamedOnce(vals, i, key) ::
            RecordOf(m, key) == Replayed(st, key, if vals[i].weight > 0 then vals[i].weight else 0, vals[i].bondLeft))
  {
    hide ResyncFromBonded, Replayed, WeightOn;
    if vals != [] {
      var front, v := vals[..|vals| - 1], vals[|vals| - 1];
      var m1 := ResyncSlashed(l, front, now);
      SlashedReplayed(l, front, now, key);
      BondedReplays(m1, v.key, v.weight, v.bondLeft, now);
      ReplayedAfter(l.groundworks, m1.groundworks, v);
      var m := ResyncSlashed(l, vals, now).groundworks;
      if forall i | 0 <= i < |vals| :: vals[i].key != key {
        assert forall i | 0 <= i < |front| :: vals[i] == front[i];
        assert vals[|front|].key != key;
      }
      forall i | 0 <= i < |vals| && NamedOnce(vals, i, key)
        ensures RecordOf(m, key) ==
                Replayed(l.groundworks, key, if vals[i].weight > 0 then vals[i].weight else 0, vals[i].bondLeft)
      {
        if i < |front| {
          assert vals[|front|].key != key && front[i] == vals[i];
          assert forall j | 0 <= j < |front| && j != i :: front[j] == vals[j];
        } else {
          assert forall j | 0 <= j < |front| :: front[j] == vals[j] && vals[j].key != key;
        }
      }
    }
  }

  lemma ReplayedAfter(a: Stream, b: Stream, v: Slashed)
    requires a.epoch == b.epoch && a.options.Keys == b.options.Keys
    ensures RecordOf(a, v.key) == RecordOf(b, v.key) ==>
      Replayed(b, v.key, if v.weight > 0 then v.weight else 0, v.bondLeft) ==
      Replayed(a, v.key, if v.weight > 0 then v.weight else 0, v.bondLeft)
  {
    hide Replayed;
    if RecordOf(a, v.key) == RecordOf(b, v.key) {
      ReplayedSame(a, b, v.key, if v.weight > 0 then v.weight else 0, v.bondLeft);
    }
  }

  // ---------------------------------------------------------------- weighted voters, clearing, moving

  lemma {:induction false} PositiveSame(ws: seq<Contribution>, id: int)
    requires NonNegative(ws)
    ensures Total(Positive(ws)) == Total(ws) && ContributionTo(Positive(ws), id) == ContributionTo(ws, id)
  {
    if ws != [] {
      var front, last := ws[..|ws| - 1], ws[|ws| - 1];
      hide Positive;
      PositiveSame(front, id);
      LastPositive(ws);
      var p := Positive(front);
      assert (p + [last])[..|p|] == p;
    }
  }

  lemma LastPositive(ws: seq<Contribution>)
    requires ws != [] && NonNegative(ws)
    ensures var front, last := ws[..|ws| - 1], ws[|ws| - 1];
      && last.amount >= 0
      && Positive(ws) == if last.amount > 0 then Positive(front) + [last] else Positive(front)
  {
    assert ws[|ws| - 1] in ws;
  }

  lemma WeightedRecast(l: Ledger, s: StreamId, key: VoterKey, ws: seq<Contribution>, now: nat)
    ensures var st, m := l.At(s), WriteWeightedVoter(l, s, key, ws, now);
      && Recast(st, m.At(s), key,
           if ws == [] then Gone else Kept(Voter([], ws, Total(ws), LeaseAfter(st, key, 0), st.epoch)))
      && Aside(l, m, s)
  {
    hide WriteVoter, Recast;
    WriteVoterRecast(l, s, key, Voter([], ws, Total(ws), 0, 0), ws, ws != [], now);
  }

  /** A weighted voter is filed with its positive weights, in both forms of the call; each
      live option ends with what the list puts on it. */
  lemma WeightedFiles(l: Ledger, s: StreamId, key: VoterKey, ws: seq<Contribution>, now: nat)
    requires NonNegative(ws)
    ensures var st := l.At(s);
      var r := if Positive(ws) == [] then Gone
               else Kept(Voter([], Positive(ws), Total(ws), LeaseAfter(st, key, 0), st.epoch));
      && (forall id :: WeightOn(r, st.epoch, id) == ContributionTo(ws, id))
      && SetWeightedVoterSettled(l, s, key, ws, now).Done?
      && Recast(st, SetWeightedVoterSettled(l, s, key, ws, now).ledger.At(s), key, r)
      && Aside(l, SetWeightedVoterSettled(l, s, key, ws, now).ledger, s)
      && SetWeightedVoter(l, s, key, ws, now).Done? == DistinctOptions(ws)
      && (DistinctOptions(ws) ==>
            && Recast(st, SetWeightedVoter(l, s, key, ws, now).ledger.At(s), key, r)
            && Aside(AdvanceTo(l, s, now), SetWeightedVoter(l, s, key, ws, now).ledger, s))
  {
    hide AdvanceTo, WriteWeightedVoter, Recast, Positive, Total;
    var l1, p := AdvanceTo(l, s, now), Positive(ws);
    forall id ensures ContributionTo(p, id) == ContributionTo(ws, id) && Total(p) == Total(ws) {
      PositiveSame(ws, id);
    }
    PositiveSame(ws, 0);
    AdvanceFrame(l, s, now);
    WeightedRecast(l, s, key, p, now);
    WeightedRecast(l1, s, key, p, now);
    var st := l.At(s);
    RecastSettled(l, l1, WriteWeightedVoter(l1, s, key, p, now).At(s), s, key,
      if p == [] then Gone else Kept(Voter([], p, Total(ws), LeaseAfter(st, key, 0), st.epoch)));
  }

  /** Clearing takes the record away, and with it exactly the weight it carried. */
  lemma ClearFiles(l: Ledger, s: StreamId, key: VoterKey, now: nat)
    ensures Recast(l.At(s), ClearVoter(l, s, key, now).At(s), key, Gone) && Aside(l, ClearVoter(l, s, key, now), s)
  {
    hide ResyncVoterAt, Recast;
    ResyncVoterAtRecast(l, s, key, [], 0, 0, now);
  }

  /** What a move files: the source's split, the part that still exists, at its weight. */
  function MovedRecord(st: Stream, from: VoterKey, to: VoterKey): Record
    requires from in st.voters
  {
    var v := st.voters[from];
    var kept := ExistingSplit(st.options, v.percentages);
    if kept == [] || v.weight == 0 then Gone else
    Kept(Voter(kept, [], v.weight, if from == to then 0 else LeaseAfter(st, to, 0), st.epoch))
  }

  /** b is a with the source's vote gone and the record r filed under the target. */
  ghost predicate Moved(a: Stream, b: Stream, from: VoterKey, to: VoterKey, r: Record) {
    && RecordOf(b, to) == r && (from != to ==> RecordOf(b, from) == Gone)
    && (forall k | k != from && k != to :: RecordOf(b, k) == RecordOf(a, k))
    && b.epoch == a.epoch && b.options.Keys == a.options.Keys
    && forall id | Live(a.options, id) ::
         b.options[id].amount == a.options[id].amount + WeightOn(r, a.epoch, id)
           - WeightOn(RecordOf(a, from), a.epoch, id)
           - if from == to then 0 else WeightOn(RecordOf(a, to), a.epoch, id)
  }

  /** Moving a vote clears the source and files its split and weight under the target; a
      voter without a live vote moves nothing, and no other voter is touched. */
  lemma MoveFiles(l: Ledger, s: StreamId, from: VoterKey, to: VoterKey, now: nat)
    requires from in l.At(s).voters ==> l.At(s).voters[from].weight >= 0
    ensures var st, m := l.At(s), MoveVoter(l, s, from, to, now).At(s);
      && (from !in st.voters ==> m.voters == st.voters && m.options == st.options)
      && (from in st.voters && st.voters[from].epoch != st.epoch ==> Recast(st, m, from, Gone))
      && (from in st.voters && st.voters[from].epoch == st.epoch ==> Moved(st, m, from, to, MovedRecord(st, from, to)))
      && Aside(AdvanceTo(l, s, now), MoveVoter(l, s, from, to, now), s)
  {
    hide AdvanceTo, ResyncVoterAt, Recast, MovedRecord;
    var l1 := AdvanceTo(l, s, now);
    AdvanceFrame(l, s, now);
    var st := l.At(s);
    if from in l1.At(s).voters {
      var v := l1.At(s).voters[from];
      var l2 := ClearVoter(l1, s, from, now);
      ClearFiles(l1, s, from, now);
      RecastSettled(l, l1, l2.At(s), s, from, Gone);
      ResyncVoterAtRecast(l2, s, to, v.percentages, v.weight, 0, now);
      MovedIs(st, l2.At(s), from, to);
      var m := ResyncVoterAt(l2, s, to, v.percentages, v.weight, 0, now);
      RecastTwice(st, l2.At(s), m.At(s), from, to, MovedRecord(st, from, to));
    }
  }

  lemma RecastTwice(a: Stream, mid: Stream, b: Stream, from: VoterKey, to: VoterKey, r: Record)
    requires Recast(a, mid, from, Gone) && Recast(mid, b, to, r)
    ensures Moved(a, b, from, to, r)
  {
    hide WeightOn;
    assert from != to ==> RecordOf(mid, to) == RecordOf(a, to);
    forall id | id in a.options ensures WeightOn(Gone, a.epoch, id) == 0 {
      NoWeight(a.epoch, id);
    }
  }

  lemma NoWeight(epoch: nat, id: int)
    ensures WeightOn(Gone, epoch, id) == 0
  {
  }

  lemma MovedIs(st: Stream, mid: Stream, from: VoterKey, to: VoterKey)
    requires from in st.voters && st.voters[from].weight >= 0 && Recast(st, mid, from, Gone)
    ensures var v := st.voters[from];
      var kept := ExistingSplit(mid.options, v.percentages);
      var rec := Voter(kept, [], v.weight, 0, mid.epoch);
      MovedRecord(st, from, to) ==
        if kept != [] && v.weight > 0 then Kept(rec.(expiresAt := LeaseOf(mid, to, rec))) else Gone
  {
    SameExisting(st.options, mid.options, st.voters[from].percentages);
    assert from == to ==> RecordOf(mid, to) == Gone;
    assert from != to ==> RecordOf(mid, to) == RecordOf(st, to);
  }

  // ---------------------------------------------------------------- lapses

  /** A counted vote the sweep up to second `limit` retires: some entry of its queue is due
      that its lease, if any, does not outlast. */
  ghost predicate Lapses(st: Stream, key: VoterKey, limit: int) {
    && key in st.voters && st.voters[key].epoch == st.epoch
    && exists t | t <= limit :: (t, key) in st.lapses && st.voters[key].expiresAt <= t
  }

  /** Every counted lease that has ended lapses; one that has not does not. */
  lemma LapsesWhenDue(st: Stream, key: VoterKey, limit: int)
    requires LeasesQueued(st) && key in st.voters && st.voters[key].epoch == st.epoch && st.voters[key].expiresAt != 0
    ensures Lapses(st, key, limit) <==> st.voters[key].expiresAt <= limit
  {
    assert (st.voters[key].expiresAt, key) in st.lapses;
  }

  /** What lapsing at second t leaves of a key, when it is among those processed or not. */
  ghost predicate Lapsed(a: Stream, b: Stream, t: int, k: VoterKey, processed: bool) {
    && b.epoch == a.epoch
    && if processed && k in a.voters && a.voters[k].epoch == a.epoch && a.voters[k].expiresAt <= t
       then k !in b.voters
       else RecordOf(b, k) == RecordOf(a, k)
            && forall u: int :: (u, k) in b.lapses <==> (u, k) in a.lapses && !(processed && u == t)
  }

  lemma LapseOneKey(l: Ledger, s: StreamId, t: int, key: VoterKey, now: nat, k: VoterKey)
    ensures Lapsed(l.At(s), LapseOne(l, s, t, key, now).At(s), t, k, k == key)
  {
    hide WriteVoter;
    var st := l.At(s);
    var l1 := l.With(s, st.(lapses := st.lapses - {(t, key)}));
    WriteVoterQueue(l1, s, key, Voter([], [], 0, 0, 0), now);
    WriteVoterEpoch(l1, s, key, Voter([], [], 0, 0, 0), now);
  }

  lemma WriteVoterEpoch(l: Ledger, s: StreamId, key: VoterKey, rec: Voter, now: nat)
    ensures WriteVoter(l, s, key, rec, [], false, now).At(s).epoch == l.At(s).epoch
    ensures WriteVoter(l, s, key, rec, [], false, now).At(s).lastUpkeep == l.At(s).lastUpkeep
  {
    hide AddContributions, LiveSum, Negated;
    var st := l.At(s);
    var l1 := l.With(s, st.(lapses := Unqueued(st, key)));
    var off := Negated(Previous(st, key));
    AddContributionsFrame(l1, s, off, now);
    AddContributionsFrame(AddContributions(l1, s, off, now), s, [], now);
  }

  lemma {:induction false} LapseKeysKey(l: Ledger, s: StreamId, t: int, keys: seq<VoterKey>, now: nat, k: VoterKey)
    ensures Lapsed(l.At(s), LapseKeys(l, s, t, keys, now).At(s), t, k, k in keys)
    ensures LapseKeys(l, s, t, keys, now).At(s).lastUpkeep == l.At(s).lastUpkeep
  {
    hide LapseOne;
    if keys != [] {
      var front, key := keys[..|keys| - 1], keys[|keys| - 1];
      var m := LapseKeys(l, s, t, front, now);
      LapseKeysKey(l, s, t, front, now, k);
      LapseOneKey(m, s, t, key, now, k);
      LapseOneClock(m, s, t, key, now);
      assert k in keys <==> k in front || k == key;
    }
  }

  lemma LapseOneClock(l: Ledger, s: StreamId, t: int, key: VoterKey, now: nat)
    ensures LapseOne(l, s, t, key, now).At(s).lastUpkeep == l.At(s).lastUpkeep
  {
    hide WriteVoter;
    var st := l.At(s);
    WriteVoterEpoch(l.With(s, st.(lapses := st.lapses - {(t, key)})), s, key, Voter([], [], 0, 0, 0), now);
  }

  lemma LapseAtKey(l: Ledger, s: StreamId, t: int, now: nat, k: VoterKey)
    ensures Lapsed(l.At(s), LapseAt(l, s, t, now).At(s), t, k, (t, k) in l.At(s).lapses)
    ensures var at, last := t * NANOS_PER_SECOND, l.At(s).lastUpkeep;
      LapseAt(l, s, t, now).At(s).lastUpkeep == if last != 0 && at > last then at else last
  {
    hide LapseKeys, SettleTo, Lapsed;
    var at := t * NANOS_PER_SECOND;
    SettleToFrame(l, s, at);
    SettleReaches(l, s, at);
    var l1 := if l.At(s).lastUpkeep != 0 && at > l.At(s).lastUpkeep then SettleTo(l, s, at) else l;
    var keys := Orders.Ascending(DueKeys(l1.At(s), t));
    LapseKeysKey(l1, s, t, keys, now, k);
    DueKey(l1.At(s), t, k);
    LapsedSettled(l, l1, LapseAt(l, s, t, now).At(s), s, t, k);
  }

  lemma SettleReaches(l: Ledger, s: StreamId, at: int)
    ensures var last := l.At(s).lastUpkeep;
      SettleTo(l, s, at).At(s).lastUpkeep == if last != 0 && at <= last then last else at
  {
  }

  lemma DueKey(st: Stream, t: int, k: VoterKey)
    ensures k in DueKeys(st, t) <==> (t, k) in st.lapses
  {
    if k in DueKeys(st, t) {
      var e :| e in st.lapses && e.0 == t && e.1 == k;
      assert e == (t, k);
    }
    if (t, k) in st.lapses {
      assert (t, k).1 in DueKeys(st, t);
    }
  }

  lemma LapsedSettled(l: Ledger, l1: Ledger, b: Stream, s: StreamId, t: int, k: VoterKey)
    requires OnlySettled(l, l1, s) && Lapsed(l1.At(s), b, t, k, (t, k) in l1.At(s).lapses)
    ensures Lapsed(l.At(s), b, t, k, (t, k) in l.At(s).lapses)
  {
  }

  /** The sweep retires exactly the votes whose lease has ended by the block's second, in
      whatever order they end, and leaves the cursor at the block time. */
  lemma {:induction false} SweepExact(l: Ledger, s: StreamId, now: nat, k: VoterKey)
    requires l.At(s).lastUpkeep >= 0
    ensures var st, m := l.At(s), SweepLapses(l, s, now).At(s);
      && RecordOf(m, k) == (if Lapses(st, k, Seconds(now)) then Gone else RecordOf(st, k))
      && m.lastUpkeep == if st.lastUpkeep > now then st.lastUpkeep else now
    decreases |DueEntries(l.At(s), Seconds(now))|
  {
    hide SettleTo, LapseAt;
    var st, limit := l.At(s), Seconds(now);
    var due := DueTimes(st, limit);
    if due == {} {
      SettleToFrame(l, s, now);
      SettleReaches(l, s, now);
      assert Lapses(st, k, limit) ==> exists t | t <= limit :: (t, k) in st.lapses && (t, k).0 in due;
    } else {
      var t := Orders.Least(due);
      FewerDue(l, s, limit, now);
      var m1 := LapseAt(l, s, t, now);
      LapseAtKey(l, s, t, now, k);
      SecondsAtMost(now, t);
      SweepExact(m1, s, now, k);
      LapsesLater(st, m1.At(s), t, k, limit);
    }
  }

  lemma SecondsAtMost(now: nat, t: int)
    requires t <= Seconds(now)
    ensures t * NANOS_PER_SECOND <= now
  {
  }

  lemma LapsesLater(a: Stream, b: Stream, t: int, k: VoterKey, limit: int)
    requires Lapsed(a, b, t, k, (t, k) in a.lapses) && t <= limit
    ensures (if Lapses(b, k, limit) then Gone else RecordOf(b, k)) ==
            if Lapses(a, k, limit) then Gone else RecordOf(a, k)
  {
    if Lapses(b, k, limit) {
      var u :| u <= limit && (u, k) in b.lapses && b.voters[k].expiresAt <= u;
      assert (u, k) in a.lapses && RecordOf(a, k) == RecordOf(b, k);
    } else if Lapses(a, k, limit) {
      var u :| u <= limit && (u, k) in a.lapses && a.voters[k].expiresAt <= u;
      assert k in b.voters ==> u == t || (u, k) in b.lapses;
    }
  }
}
