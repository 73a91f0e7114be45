/** The state of the allocation module and each of its transitions, as functions.

    Every function here is the specification of the keeper method of the same name. */
module AllocationLedger {
  import opened AllocationTypes
  import Orders

  /** One emission stream's collections. `lapses` is the lease queue (expiry second,
      voter); `pruneDue` the second each dead option may be removed at. */
  datatype Stream = Stream(
    options: map<int, AllocationOption>,
    seqNo: nat,
    voters: map<VoterKey, Voter>,
    index: int,
    total: int,
    summed: int,
    lastUpkeep: int,
    epoch: nat,
    integrated: set<int>,
    pruneDue: map<int, int>,
    lapses: set<(int, VoterKey)>)

  const EMPTY_STREAM: Stream := Stream(map[], 0, map[], 0, 0, 0, 0, 0, {}, map[], {})

  /** What a run has done: every option write, every settlement over a weight, with the
      lease ends counted in the weight it was shared over, and every interval that passed
      without one. */
  datatype Event =
    | Wrote(at: int, stream: StreamId, id: int, option: AllocationOption)
    | Settled(stream: StreamId, from: int, to: int, reward: int, leases: set<int>)
    | Idled(stream: StreamId, from: int, to: int)

  /** Both streams, the sums kept across them, the module account's balance, and
      the run's history. */
  datatype Ledger = Ledger(
    caretaker: Stream,
    groundworks: Stream,
    summedAccrued: int,
    residue: int,
    pruneQueue: set<(int, StreamId, int)>,
    held: int,
    history: seq<Event>)
  {
    function At(s: StreamId): Stream {
      if s == Caretaker then caretaker else groundworks
    }

    function With(s: StreamId, st: Stream): Ledger {
      if s == Caretaker then this.(caretaker := st) else this.(groundworks := st)
    }
  }

  datatype Outcome = Done(ledger: Ledger) | Refused

  // ---------------------------------------------------------------- options

  function RefreshPruneSchedule(l: Ledger, s: StreamId, id: int, o: AllocationOption, now: nat): Ledger {
    var st := l.At(s);
    if Prunable(o) then
      if id in st.pruneDue then l else
      var at := Seconds(now) + OPTION_IDLE_GRACE;
      l.With(s, st.(pruneDue := st.pruneDue[id := at])).(pruneQueue := l.pruneQueue + {(at, s, id)})
    else if id in st.pruneDue then
      l.With(s, st.(pruneDue := st.pruneDue - {id})).(pruneQueue := l.pruneQueue - {(st.pruneDue[id], s, id)})
    else
      l
  }

  function AmountAt(options: map<int, AllocationOption>, id: int): int {
    if id in options then options[id].amount else 0
  }

  function AccruedAt(options: map<int, AllocationOption>, id: int): int {
    if id in options then options[id].accrued else 0
  }

  /** The one writer of option records: both running sums and the removal schedule
      follow the record. */
  function SetOption(l: Ledger, s: StreamId, id: int, o: AllocationOption, now: nat): Ledger {
    var st := l.At(s);
    var st1 := st.(
      options := st.options[id := o],
      summed := st.summed + o.amount - AmountAt(st.options, id));
    var l1 := l.With(s, st1).(
      summedAccrued := l.summedAccrued + o.accrued - AccruedAt(st.options, id),
      history := l.history + [Wrote(Seconds(now), s, id, o)]);
    RefreshPruneSchedule(l1, s, id, o, now)
  }

  function AppendOption(l: Ledger, s: StreamId, kind: Kind, recipient: string, claimer: string, now: nat): Ledger {
    var st := l.At(s);
    var id := st.seqNo + 1;
    var o := AllocationOption(kind, recipient, claimer, 0, 0, st.index, false);
    var l1 := SetOption(l.With(s, st.(seqNo := id)), s, id, o, now);
    if kind == Integrated then
      var st1 := l1.At(s);
      l1.With(s, st1.(integrated := st1.integrated + {id}))
    else
      l1
  }

  // ---------------------------------------------------------------- settling

  function CountedLeases(st: Stream): set<int> {
    set k | k in st.voters && st.voters[k].epoch == st.epoch && st.voters[k].expiresAt != 0 :: st.voters[k].expiresAt
  }

  function Reward(from: int, to: int): int
    requires from <= to
  {
    EMISSION_PER_SECOND * (to - from) / NANOS_PER_SECOND
  }

  /** Mints an interval's emission and books the part the options cannot reach. */
  function MintEmission(l: Ledger, reward: int, collectable: int): Ledger {
    var dust := reward - collectable;
    var l1 := l.(held := l.held + reward);
    if dust > 0 then l1.(residue := l1.residue + dust) else l1
  }

  /** Moves a stream's index to `now` over the weight as it stands. */
  function SettleTo(l: Ledger, s: StreamId, now: int): Ledger {
    var st := l.At(s);
    if st.lastUpkeep != 0 && now <= st.lastUpkeep then l else
    if st.lastUpkeep != 0 && st.total > 0 then
      var reward := Reward(st.lastUpkeep, now);
      var delta := reward * PRECISION / st.total;
      var l1 := l.With(s, st.(index := st.index + delta, lastUpkeep := now)).(
        history := l.history + [Settled(s, st.lastUpkeep, now, reward, CountedLeases(st))]);
      MintEmission(l1, reward, CeilQuo(delta * st.total, PRECISION))
    else if st.lastUpkeep != 0 then
      l.With(s, st.(lastUpkeep := now)).(history := l.history + [Idled(s, st.lastUpkeep, now)])
    else
      l.With(s, st.(lastUpkeep := now))
  }

  function DueTimes(st: Stream, limit: int): set<int> {
    set e | e in st.lapses && e.0 <= limit :: e.0
  }

  /** How far a settle outside the sweep may go: never past a queued lease end. */
  function HeldTarget(st: Stream, now: nat): int {
    var due := DueTimes(st, Seconds(now));
    if due == {} then now else
    var at := Orders.Least(due) * NANOS_PER_SECOND;
    if at < now then at else now
  }

  function AdvanceTo(l: Ledger, s: StreamId, now: nat): Ledger {
    if l.At(s).lastUpkeep != 0 then SettleTo(l, s, HeldTarget(l.At(s), now)) else SettleTo(l, s, now)
  }

  /** Settles to second t, no later than the block time. */
  function AdvanceIndexTo(l: Ledger, s: StreamId, t: nat, now: nat): Ledger {
    var at := if t > Seconds(now) then now else t * NANOS_PER_SECOND;
    if l.At(s).lastUpkeep == 0 || at <= l.At(s).lastUpkeep then l else AdvanceTo(l, s, at)
  }

  // ---------------------------------------------------------------- votes

  /** Adds one contribution to its option; a missing or struck option takes nothing. */
  function AddContribution(l: Ledger, s: StreamId, c: Contribution, now: nat): Ledger {
    var st := l.At(s);
    if !Live(st.options, c.option) then l else
    var o := SettleOption(st.options[c.option], st.index);
    SetOption(l, s, c.option, o.(amount := o.amount + c.amount), now)
  }

  function AddContributions(l: Ledger, s: StreamId, cs: seq<Contribution>, now: nat): Ledger {
    if cs == [] then l else
    AddContribution(AddContributions(l, s, cs[..|cs| - 1], now), s, cs[|cs| - 1], now)
  }

  function Previous(st: Stream, key: VoterKey): seq<Contribution> {
    if key in st.voters && st.voters[key].epoch == st.epoch then Contributions(st.voters[key]) else []
  }

  /** The lease a written record ends up with: a replay keeps the stored one. */
  function LeaseOf(st: Stream, key: VoterKey, rec: Voter): int {
    if rec.expiresAt == 0 && key in st.voters && st.voters[key].epoch == st.epoch
    then st.voters[key].expiresAt else rec.expiresAt
  }

  function Unqueued(st: Stream, key: VoterKey): set<(int, VoterKey)> {
    if key in st.voters && st.voters[key].expiresAt != 0
    then st.lapses - {(st.voters[key].expiresAt, key)} else st.lapses
  }

  function Clamped(total: int): int {
    if total < 0 then 0 else total
  }

  /** Replaces a voter's contribution: the stored one comes off, `add` goes on. */
  function WriteVoter(l: Ledger, s: StreamId, key: VoterKey, rec: Voter, add: seq<Contribution>, keep: bool,
                      now: nat): Ledger {
    var st := l.At(s);
    var off := Negated(Previous(st, key));
    var l1 := l.With(s, st.(lapses := Unqueued(st, key)));
    var l2 := AddContributions(AddContributions(l1, s, off, now), s, add, now);
    var st2 := l2.At(s);
    var total := Clamped(st.total + LiveSum(st.options, off) + LiveSum(st.options, add));
    if !keep then
      l2.With(s, st2.(total := total, voters := st2.voters - {key}))
    else
      var lease := LeaseOf(st, key, rec);
      var filed := rec.(expiresAt := lease, epoch := st.epoch);
      l2.With(s, st2.(
        total := total,
        voters := st2.voters[key := filed],
        lapses := if lease != 0 then st2.lapses + {(lease, key)} else st2.lapses))
  }

  function ResyncVoterAt(l: Ledger, s: StreamId, key: VoterKey, shares: seq<Share>, weight: int, expiresAt: int,
                         now: nat): Ledger {
    var kept := ExistingSplit(l.At(s).options, shares);
    WriteVoter(l, s, key, Voter(kept, [], weight, expiresAt, 0), SplitContributions(kept, weight),
               kept != [] && weight > 0, now)
  }

  function ResyncVoterKeep(l: Ledger, s: StreamId, key: VoterKey, shares: seq<Share>, weight: int, keepZero: bool,
                           now: nat): Ledger {
    if !keepZero || weight > 0 then ResyncVoterAt(l, s, key, shares, weight, 0, now) else
    var kept := ExistingSplit(l.At(s).options, shares);
    WriteVoter(l, s, key, Voter(kept, [], 0, 0, 0), [], kept != [], now)
  }

  function ShareSum(shares: seq<Share>): nat {
    if shares == [] then 0 else ShareSum(shares[..|shares| - 1]) + shares[|shares| - 1].percent
  }

  /** A castable split: bounded, distinct live options, shares of 1 to 100 adding to 100. */
  predicate ValidSplit(options: map<int, AllocationOption>, shares: seq<Share>) {
    && |shares| <= MAX_VOTER_OPTIONS
    && (forall i | 0 <= i < |shares| :: 1 <= shares[i].percent <= 100 && Live(options, shares[i].option))
    && (forall i, j | 0 <= i < j < |shares| :: shares[i].option != shares[j].option)
    && (shares != [] ==> ShareSum(shares) == 100)
  }

  function SetVoterSplit(l: Ledger, s: StreamId, key: VoterKey, shares: seq<Share>, weight: int, now: nat): Outcome {
    if !ValidSplit(l.At(s).options, shares) || (shares != [] && weight <= 0) then Refused else
    Done(ResyncVoterAt(AdvanceTo(l, s, now), s, key, shares, weight, 0, now))
  }

  /** Casts a split at the weight its source gives; a Groundworks split is leased. */
  function ApplySplit(l: Ledger, s: StreamId, key: VoterKey, shares: seq<Share>, weight: int, leaseSeconds: nat,
                      now: nat): Outcome {
    if !ValidSplit(l.At(s).options, shares) || (shares != [] && weight <= 0) then Refused else
    var lease := if s == Groundworks && shares != [] then Seconds(now) + leaseSeconds else 0;
    Done(ResyncVoterAt(AdvanceTo(l, s, now), s, key, shares, weight, lease, now))
  }

  function DropVoter(l: Ledger, s: StreamId, key: VoterKey): Ledger {
    var st := l.At(s);
    l.With(s, st.(voters := st.voters - {key}))
  }

  function ResyncVoter(l: Ledger, s: StreamId, key: VoterKey, weight: int, now: nat): Ledger {
    var l1 := AdvanceTo(l, s, now);
    var st := l1.At(s);
    if key !in st.voters then l1 else
    var v := st.voters[key];
    if v.epoch != st.epoch then DropVoter(l1, s, key) else
    if v.optionWeights != [] then l1 else
    ResyncVoterAt(l1, s, key, v.percentages, weight, 0, now)
  }

  function ResyncFromBonded(l: Ledger, key: VoterKey, weight: int, bondLeft: bool, now: nat): Ledger {
    var l1 := AdvanceTo(l, Groundworks, now);
    var st := l1.At(Groundworks);
    if key !in st.voters then l1 else
    var v := st.voters[key];
    if v.epoch != st.epoch then DropVoter(l1, Groundworks, key) else
    ResyncVoterKeep(l1, Groundworks, key, v.percentages, Clamped(weight), bondLeft, now)
  }

  function Positive(ws: seq<Contribution>): (r: seq<Contribution>)
    ensures forall c | c in r :: c in ws && c.amount > 0
    ensures forall c | c in ws && c.amount > 0 :: c in r
  {
    if ws == [] then [] else
    var last := ws[|ws| - 1];
    var r := Positive(ws[..|ws| - 1]);
    assert ws == ws[..|ws| - 1] + [last];
    if last.amount > 0 then r + [last] else r
  }

  function Total(ws: seq<Contribution>): int {
    if ws == [] then 0 else Total(ws[..|ws| - 1]) + ws[|ws| - 1].amount
  }

  predicate DistinctOptions(ws: seq<Contribution>) {
    forall i, j | 0 <= i < j < |ws| :: ws[i].option != ws[j].option
  }

  function WriteWeightedVoter(l: Ledger, s: StreamId, key: VoterKey, ws: seq<Contribution>, now: nat): Ledger {
    WriteVoter(l, s, key, Voter([], ws, Total(ws), 0, 0), ws, ws != [], now)
  }

  function SetWeightedVoter(l: Ledger, s: StreamId, key: VoterKey, ws: seq<Contribution>, now: nat): Outcome {
    if !NonNegative(ws) || !DistinctOptions(ws) then Refused else
    Done(WriteWeightedVoter(AdvanceTo(l, s, now), s, key, Positive(ws), now))
  }

  function SetWeightedVoterSettled(l: Ledger, s: StreamId, key: VoterKey, ws: seq<Contribution>, now: nat): Outcome {
    if !NonNegative(ws) then Refused else Done(WriteWeightedVoter(l, s, key, Positive(ws), now))
  }

  function ClearVoter(l: Ledger, s: StreamId, key: VoterKey, now: nat): Ledger {
    ResyncVoterAt(l, s, key, [], 0, 0, now)
  }

  function MoveVoter(l: Ledger, s: StreamId, from: VoterKey, to: VoterKey, now: nat): Ledger {
    var l1 := AdvanceTo(l, s, now);
    var st := l1.At(s);
    if from !in st.voters then l1 else
    var v := st.voters[from];
    var l2 := ClearVoter(l1, s, from, now);
    if v.epoch != st.epoch then l2 else
    ResyncVoterAt(l2, s, to, v.percentages, v.weight, 0, now)
  }

  // ---------------------------------------------------------------- paying out

  /** Takes ppm parts per million of an option's balance; the caller pays it out. */
  function Drawn(o: AllocationOption, ppm: int): int {
    var d := Quo(o.accrued * ppm, PPM_DENOMINATOR);
    if d > 0 then d else 0
  }

  function DrawFromOption(l: Ledger, s: StreamId, id: int, ppm: int, now: nat): (r: (Ledger, int)) {
    var st := l.At(s);
    if id !in st.options then (l, 0) else
    var o := SettleOption(st.options[id], st.index);
    var d := Drawn(o, ppm);
    (SetOption(l, s, id, o.(accrued := o.accrued - d), now), d)
  }

  /** A transfer out of the module account; the bank refuses an overdraft. */
  function PayOut(l: Ledger, amount: int): Outcome {
    if amount <= 0 then Done(l) else
    if l.held < amount then Refused else Done(l.(held := l.held - amount))
  }

  /** A registration's reward: settle, draw, and move the drawn coins out. */
  function DrawAndPay(l: Ledger, s: StreamId, id: int, ppm: int, now: nat): Outcome {
    var (l1, d) := DrawFromOption(AdvanceTo(l, s, now), s, id, ppm, now);
    PayOut(l1, d)
  }

  predicate Claimable(st: Stream, id: int, caller: string) {
    id in st.options && st.options[id].kind == Address
      && (st.options[id].claimer == "" || st.options[id].claimer == caller)
  }

  function ClaimAllocation(l: Ledger, s: StreamId, id: int, caller: string, now: nat): Outcome {
    if !Claimable(l.At(s), id, caller) then Refused else
    var l1 := AdvanceTo(l, s, now);
    var o := SettleOption(l.At(s).options[id], l1.At(s).index);
    var paid := PayOut(l1, o.accrued);
    if paid.Refused? then Refused else
    Done(SetOption(paid.ledger, s, id, if o.accrued > 0 then o.(accrued := 0) else o, now))
  }

  /** A handler's report is honoured when it lies between nothing and the balance. */
  function Resolved(reports: map<int, int>, id: int, accrued: int): int {
    if accrued > 0 && id in reports && 0 <= reports[id] <= accrued then reports[id] else 0
  }

  function ResolveOne(l: Ledger, s: StreamId, id: int, reports: map<int, int>, now: nat): Ledger {
    var st := l.At(s);
    if id !in st.options then l.With(s, st.(integrated := st.integrated - {id})) else
    var o := SettleOption(st.options[id], st.index);
    var r := Resolved(reports, id, o.accrued);
    SetOption(l.(held := l.held - r), s, id, o.(accrued := o.accrued - r), now)
  }

  function ResolveAll(l: Ledger, s: StreamId, ids: seq<int>, reports: map<int, int>, now: nat): Ledger {
    if ids == [] then l else
    ResolveOne(ResolveAll(l, s, ids[..|ids| - 1], reports, now), s, ids[|ids| - 1], reports, now)
  }

  function SweepResidue(l: Ledger, sinkWorks: bool): Ledger {
    if sinkWorks && l.residue > 0 then l.(held := l.held - l.residue, residue := 0) else l
  }

  // ---------------------------------------------------------------- reset, strike, prune

  function RetireOption(l: Ledger, s: StreamId, id: int, now: nat): Ledger {
    var st := l.At(s);
    if id !in st.options then l else
    SetOption(l, s, id, SettleOption(st.options[id], st.index).(amount := 0), now)
  }

  function RetireAll(l: Ledger, s: StreamId, ids: seq<int>, now: nat): Ledger {
    if ids == [] then l else RetireOption(RetireAll(l, s, ids[..|ids| - 1], now), s, ids[|ids| - 1], now)
  }

  /** Retires every vote of a stream at once by zeroing the weights and bumping the epoch. */
  function ResetAllocations(l: Ledger, s: StreamId, now: nat): Ledger {
    var l1 := AdvanceTo(l, s, now);
    var l2 := RetireAll(l1, s, Orders.Ascending(l1.At(s).options.Keys), now);
    var st := l2.At(s);
    l2.With(s, st.(total := 0, epoch := st.epoch + 1))
  }

  /** Strikes a Groundworks option: its weight leaves the total, its balance is burned. */
  function RemoveGroundworksOption(l: Ledger, id: int, now: nat): Outcome {
    var st := l.At(Groundworks);
    if id !in st.options || st.options[id].removed then Done(l) else
    var l1 := AdvanceTo(l, Groundworks, now);
    var o := SettleOption(st.options[id], l1.At(Groundworks).index);
    var l2 := SetOption(l1, Groundworks, id, o.(removed := true, amount := 0, accrued := 0), now);
    var st2 := l2.At(Groundworks);
    var l3 := l2.With(Groundworks, st2.(
      total := if o.amount > 0 then st2.total - o.amount else st2.total,
      integrated := if o.kind == Integrated then st2.integrated - {id} else st2.integrated));
    PayOut(l3, o.accrued)
  }

  /** Removes one due option and burns its balance. */
  function PruneOption(l: Ledger, s: StreamId, id: int): Outcome {
    var st := l.At(s);
    if id !in st.options || !Prunable(st.options[id]) then Done(l) else
    var o := st.options[id];
    var l1 := l.With(s, st.(options := st.options - {id}, integrated := st.integrated - {id}));
    if o.accrued > 0 then PayOut(l1.(summedAccrued := l1.summedAccrued - o.accrued), o.accrued) else Done(l1)
  }

  /** Takes one entry off the schedule and prunes its option; a failed prune changes
      nothing else. */
  function PruneEntry(l: Ledger, e: (int, StreamId, int)): Ledger {
    var st := l.At(e.1);
    var l1 := l.With(e.1, st.(pruneDue := st.pruneDue - {e.2})).(pruneQueue := l.pruneQueue - {e});
    var r := PruneOption(l1, e.1, e.2);
    if r.Done? then r.ledger else l1
  }

  function PruneEntries(l: Ledger, es: seq<(int, StreamId, int)>): Ledger {
    if es == [] then l else PruneEntry(PruneEntries(l, es[..|es| - 1]), es[|es| - 1])
  }

  // ---------------------------------------------------------------- leases

  function DueKeys(st: Stream, t: int): set<int> {
    set e | e in st.lapses && e.0 == t :: e.1
  }

  /** Retires one lease due at t, if the voter still holds it. */
  function LapseOne(l: Ledger, s: StreamId, t: int, key: VoterKey, now: nat): Ledger {
    var st := l.At(s);
    var l1 := l.With(s, st.(lapses := st.lapses - {(t, key)}));
    if key !in st.voters || st.voters[key].expiresAt > t || st.voters[key].epoch != st.epoch then l1 else
    WriteVoter(l1, s, key, Voter([], [], 0, 0, 0), [], false, now)
  }

  function LapseKeys(l: Ledger, s: StreamId, t: int, keys: seq<VoterKey>, now: nat): Ledger {
    if keys == [] then l else
    LapseOne(LapseKeys(l, s, t, keys[..|keys| - 1], now), s, t, keys[|keys| - 1], now)
  }

  /** Settles to the lapse second t and retires every lease due there. */
  function LapseAt(l: Ledger, s: StreamId, t: int, now: nat): Ledger {
    var at := t * NANOS_PER_SECOND;
    var l1 := if l.At(s).lastUpkeep != 0 && at > l.At(s).lastUpkeep then SettleTo(l, s, at) else l;
    LapseKeys(l1, s, t, Orders.Ascending(DueKeys(l1.At(s), t)), now)
  }
}
