/** Runs: any interleaving of the module's entry points, from a consistent state on. */
module AllocationRun {
  import opened AllocationTypes
  import opened AllocationLedger
  import opened AllocationBooks
  import opened AllocationSettle
  import opened AllocationVotes
  import opened AllocationOps
  import opened AllocationPayments
  import opened AllocationBlocks

  /** One call into the module; the numbers outside modules supply are its arguments. */
  datatype Op =
    | Advance(stream: StreamId)
    | AdvanceUntil(stream: StreamId, second: nat)
    | AddOption(stream: StreamId, kind: Kind, recipient: string, claimer: string)
    | VoterSplit(stream: StreamId, key: VoterKey, shares: seq<Share>, weight: int)
    | Split(stream: StreamId, key: VoterKey, shares: seq<Share>, weight: int, leaseSeconds: nat)
    | Resync(stream: StreamId, key: VoterKey, weight: int)
    | Bonded(key: VoterKey, weight: int, bondLeft: bool)
    | Weighted(stream: StreamId, key: VoterKey, weights: seq<Contribution>)
    | WeightedSettled(stream: StreamId, key: VoterKey, weights: seq<Contribution>)
    | Clear(stream: StreamId, key: VoterKey)
    | Move(stream: StreamId, from: VoterKey, to: VoterKey)
    | Draw(stream: StreamId, id: int, ppm: int)
    | ClaimBalance(stream: StreamId, id: int, caller: string)
    | Reset(stream: StreamId)
    | Strike(id: int)
    | Begin(caretakerReports: map<int, int>, groundworksReports: map<int, int>)
    | End(vals: seq<Slashed>, sinkWorks: bool)

  /** What the module relies on its callers for: weights are not negative, a weighted
      voter weighs only issued options, and no draw takes more than the balance. */
  predicate Admissible(l: Ledger, op: Op) {
    match op
    case Resync(_, _, weight) => weight >= 0
    case Weighted(s, _, ws) => Issued(Positive(ws), l.At(s).seqNo)
    case WeightedSettled(s, _, ws) => Issued(Positive(ws), l.At(s).seqNo)
    case Draw(_, _, ppm) => ppm <= PPM_DENOMINATOR
    case _ => true
  }

  function Committed(l: Ledger, r: Outcome): Ledger {
    if r.Done? then r.ledger else l
  }

  /** A refused call leaves the state as it was. */
  function Step(l: Ledger, op: Op, now: nat): Ledger {
    match op
    case Advance(s) => AdvanceTo(l, s, now)
    case AdvanceUntil(s, t) => AdvanceIndexTo(l, s, t, now)
    case AddOption(s, kind, recipient, claimer) => AppendOption(l, s, kind, recipient, claimer, now)
    case VoterSplit(s, key, shares, weight) => Committed(l, SetVoterSplit(l, s, key, shares, weight, now))
    case Split(s, key, shares, weight, lease) => Committed(l, ApplySplit(l, s, key, shares, weight, lease, now))
    case Resync(s, key, weight) => ResyncVoter(l, s, key, weight, now)
    case Bonded(key, weight, bondLeft) => ResyncFromBonded(l, key, weight, bondLeft, now)
    case Weighted(s, key, ws) => Committed(l, SetWeightedVoter(l, s, key, ws, now))
    case WeightedSettled(s, key, ws) => Committed(l, SetWeightedVoterSettled(l, s, key, ws, now))
    case Clear(s, key) => ClearVoter(l, s, key, now)
    case Move(s, from, to) => MoveVoter(l, s, from, to, now)
    case Draw(s, id, ppm) => Committed(l, DrawAndPay(l, s, id, ppm, now))
    case ClaimBalance(s, id, caller) => Committed(l, ClaimAllocation(l, s, id, caller, now))
    case Reset(s) => ResetAllocations(l, s, now)
    case Strike(id) => Committed(l, RemoveGroundworksOption(l, id, now))
    case Begin(c, g) => BeginBlock(l, c, g, now)
    case End(vals, sinkWorks) => EndBlock(l, vals, sinkWorks, now)
  }

  lemma StepInv(l: Ledger, op: Op, now: nat)
    requires Inv(l) && Admissible(l, op)
    ensures Inv(Step(l, op, now))
  {
    hide Inv, AdvanceTo, AdvanceIndexTo, AppendOption, SetVoterSplit, ApplySplit, ResyncVoter, ResyncFromBonded,
      SetWeightedVoter, SetWeightedVoterSettled, MoveVoter, DrawAndPay, ClaimAllocation, ResetAllocations,
      RemoveGroundworksOption, BeginBlock, ResyncSlashed, SweepResidue, ResyncVoterAt;
    match op
    case Advance(s) => AdvanceInv(l, s, now);
    case AdvanceUntil(s, t) => AdvanceIndexToInv(l, s, t, now);
    case AddOption(s, kind, recipient, claimer) => AppendOptionInv(l, s, kind, recipient, claimer, now);
    case VoterSplit(s, key, shares, weight) => SetVoterSplitInv(l, s, key, shares, weight, now);
    case Split(s, key, shares, weight, lease) => ApplySplitInv(l, s, key, shares, weight, lease, now);
    case Resync(s, key, weight) => ResyncVoterInv(l, s, key, weight, now);
    case Bonded(key, weight, bondLeft) => ResyncFromBondedInv(l, key, weight, bondLeft, now);
    case Weighted(s, key, ws) => SetWeightedVoterInv(l, s, key, ws, now);
    case WeightedSettled(s, key, ws) => SetWeightedVoterInv(l, s, key, ws, now);
    case Clear(s, key) => ResyncVoterAtInv(l, s, key, [], 0, 0, now);
    case Move(s, from, to) => MoveVoterInv(l, s, from, to, now);
    case Draw(s, id, ppm) => DrawAndPayInv(l, s, id, ppm, now);
    case ClaimBalance(s, id, caller) => ClaimInv(l, s, id, caller, now);
    case Reset(s) => ResetInv(l, s, now);
    case Strike(id) => StrikeInv(l, id, now);
    case Begin(c, g) => BeginBlockInv(l, c, g, now);
    case End(vals, sinkWorks) =>
      ResyncSlashedInv(l, vals, now);
      SweepResidueInv(ResyncSlashed(l, vals, now), sinkWorks);
  }

  /** The state after the first n calls of a run, each with its block time. */
  function After(l: Ledger, calls: seq<(Op, nat)>, n: nat): Ledger
    requires n <= |calls|
  {
    if n == 0 then l else Step(After(l, calls, n - 1), calls[n - 1].0, calls[n - 1].1)
  }

  ghost predicate AdmissibleRun(l: Ledger, calls: seq<(Op, nat)>) {
    forall i | 0 <= i < |calls| :: Admissible(After(l, calls, i), calls[i].0)
  }

  lemma {:induction false} RunInv(l: Ledger, calls: seq<(Op, nat)>, n: nat)
    requires Inv(l) && AdmissibleRun(l, calls) && n <= |calls|
    ensures Inv(After(l, calls, n))
  {
    hide Inv, Step;
    if n > 0 {
      RunInv(l, calls, n - 1);
      StepInv(After(l, calls, n - 1), calls[n - 1].0, calls[n - 1].1);
    }
  }

  /** Solvency and weight conservation over every run: the end-of-block check never
      halts the chain, the module can cover every settled and unsettled claim, and each
      live option carries exactly the non-negative weight its current voters put on it. */
  lemma RunIsSound(l: Ledger, calls: seq<(Op, nat)>, n: nat)
    requires Inv(l) && AdmissibleRun(l, calls) && n <= |calls|
    ensures var m := After(l, calls, n);
      && !Halts(m)
      && PRECISION * m.held >= PRECISION * (m.summedAccrued + m.residue)
                               + Unsettled(m.caretaker.options, m.caretaker.index)
                               + Unsettled(m.groundworks.options, m.groundworks.index)
      && (forall s :: m.At(s).total == m.At(s).summed == Weight(m.At(s).options))
      && (forall s, id | Live(m.At(s).options, id) ::
            0 <= m.At(s).options[id].amount == Support(m.At(s).voters, m.At(s).epoch, id))
  {
    hide After, Schedule, Idle, HandlerSet, LeasesQueued, VoterOk;
    RunInv(l, calls, n);
    NoHalt(After(l, calls, n));
  }

  /** Lease safety over every run: no settlement that minted was shared with a lease
      that had ended, and every counted lease is queued to lapse. */
  lemma RunRespectsLeases(l: Ledger, calls: seq<(Op, nat)>, n: nat)
    requires Inv(l) && AdmissibleRun(l, calls) && n <= |calls|
    ensures var m := After(l, calls, n);
      && (forall e | e in m.history && e.Settled? :: forall x | x in e.leases :: e.to <= x * NANOS_PER_SECOND)
      && (forall s :: LeasesQueued(m.At(s)))
  {
    hide After, Books, Slack, Tallied;
    RunInv(l, calls, n);
  }

  /** Pruning over every run: a scheduled option was dead at every write since the
      grace period before its date, and the two views of the schedule agree. */
  lemma RunSchedule(l: Ledger, calls: seq<(Op, nat)>, n: nat, t: int, s: StreamId, id: int)
    requires Inv(l) && AdmissibleRun(l, calls) && n <= |calls|
    ensures var m := After(l, calls, n);
      && ((t, s, id) in m.pruneQueue <==> id in m.At(s).pruneDue && m.At(s).pruneDue[id] == t)
      && ((t, s, id) in m.pruneQueue ==> IdleSince(m.history, s, id, t - OPTION_IDLE_GRACE))
      && (id in m.At(s).pruneDue <==> id in m.At(s).options && Prunable(m.At(s).options[id]))
  {
    hide After, Slack, Votes, StreamBooks, IdleSince, Prunable;
    RunInv(l, calls, n);
    assert Books(After(l, calls, n));
  }

  // ---------------------------------------------------------------- paying everyone

  /** The stream needs no settling at this block time. */
  predicate Quiet(st: Stream, now: nat) {
    if st.lastUpkeep != 0 then HeldTarget(st, now) <= st.lastUpkeep else now == 0
  }

  lemma QuietAdvance(l: Ledger, s: StreamId, now: nat)
    requires Quiet(l.At(s), now)
    ensures AdvanceTo(l, s, now) == l
  {
  }

  /** One settle per block is enough: a second at the same time does nothing. */
  lemma AdvancedIsQuiet(l: Ledger, s: StreamId, now: nat)
    requires l.At(s).lastUpkeep >= 0
    ensures Quiet(AdvanceTo(l, s, now).At(s), now)
  {
    hide SettleTo;
    var st := l.At(s);
    var at := if st.lastUpkeep != 0 then HeldTarget(st, now) else now;
    SettleToFrame(l, s, at);
    SettleToReaches(l, s, at);
    var m := SettleTo(l, s, at).At(s);
    assert DueTimes(m, Seconds(now)) == DueTimes(st, Seconds(now));
    assert HeldTarget(m, now) == HeldTarget(st, now) <= now;
  }

  lemma SettleToReaches(l: Ledger, s: StreamId, at: int)
    ensures var m := SettleTo(l, s, at);
      m.At(s).lastUpkeep == if l.At(s).lastUpkeep != 0 && at <= l.At(s).lastUpkeep then l.At(s).lastUpkeep else at
  {
  }

  datatype Payee = Payee(stream: StreamId, id: int, caller: string)

  /** Claims made one after another in the given order. */
  function PayAll(l: Ledger, payees: seq<Payee>, now: nat): Outcome {
    if payees == [] then Done(l) else
    var r := PayAll(l, payees[..|payees| - 1], now);
    if r.Refused? then Refused else
    var p := payees[|payees| - 1];
    ClaimAllocation(r.ledger, p.stream, p.id, p.caller, now)
  }

  function EntitledSum(l: Ledger, payees: seq<Payee>): int {
    if payees == [] then 0 else
    EntitledSum(l, payees[..|payees| - 1]) + Entitled(l, payees[|payees| - 1].stream, payees[|payees| - 1].id)
  }

  /** m is l with the listed options paid: all else that decides a claim is unchanged. */
  ghost predicate PaidTo(l: Ledger, m: Ledger, payees: seq<Payee>) {
    forall s ::
      && m.At(s).index == l.At(s).index && m.At(s).lastUpkeep == l.At(s).lastUpkeep && m.At(s).lapses == l.At(s).lapses
      && m.At(s).options.Keys == l.At(s).options.Keys
      && forall id | id in l.At(s).options ::
           && m.At(s).options[id].kind == l.At(s).options[id].kind
           && m.At(s).options[id].claimer == l.At(s).options[id].claimer
           && ((forall p | p in payees :: p.stream != s || p.id != id) ==> m.At(s).options[id] == l.At(s).options[id])
  }

  lemma QuietClaim(l: Ledger, p: Payee, now: nat)
    requires Inv(l) && Quiet(l.At(p.stream), now) && Claimable(l.At(p.stream), p.id, p.caller)
    ensures var r := ClaimAllocation(l, p.stream, p.id, p.caller, now);
      && r.Done? && Inv(r.ledger) && r.ledger.held == l.held - Entitled(l, p.stream, p.id)
      && PaidTo(l, r.ledger, [p])
  {
    hide Inv, SetOption, SettleOption, Quiet, AdvanceTo, PaidTo, Slack, OptionOk;
    QuietAdvance(l, p.stream, now);
    ClaimInv(l, p.stream, p.id, p.caller, now);
    var o := SettleOption(l.At(p.stream).options[p.id], l.At(p.stream).index);
    var n := o.(accrued := o.accrued - o.accrued);
    SettledBalance(l, p.stream, p.id);
    WithdrawInv(l, p.stream, p.id, o.accrued, now);
    ClaimShape(l, p.stream, p.id, p.caller, now);
    HeldCommutes(l, p.stream, p.id, n, o.accrued, now);
    SetOptionFrame(l, p.stream, p.id, n, now);
    SettledIdentity(l.At(p.stream).options[p.id], l.At(p.stream).index);
    PaidOne(l, SetOption(l, p.stream, p.id, n, now).(held := l.held - o.accrued), p, n);
  }

  lemma SettledIdentity(o: AllocationOption, index: int)
    ensures var n := SettleOption(o, index); n.kind == o.kind && n.claimer == o.claimer
  {
  }

  lemma PaidOne(l: Ledger, m: Ledger, p: Payee, n: AllocationOption)
    requires p.id in l.At(p.stream).options && m.At(p.stream).options == l.At(p.stream).options[p.id := n]
    requires SameVotes(l.At(p.stream), m.At(p.stream)) && m.At(Other(p.stream)) == l.At(Other(p.stream))
    requires n.kind == l.At(p.stream).options[p.id].kind && n.claimer == l.At(p.stream).options[p.id].claimer
    ensures PaidTo(l, m, [p])
  {
    assert p in [p];
    forall s ensures m.At(s).options.Keys == l.At(s).options.Keys {
      assert s == p.stream || s == Other(p.stream);
    }
  }

  lemma PaidMore(l: Ledger, m: Ledger, n: Ledger, payees: seq<Payee>, p: Payee)
    requires PaidTo(l, m, payees) && PaidTo(m, n, [p])
    ensures PaidTo(l, n, payees + [p])
  {
    forall s, id | id in l.At(s).options && forall q | q in payees + [p] :: q.stream != s || q.id != id
      ensures n.At(s).options[id] == l.At(s).options[id]
    {
      assert p in payees + [p];
      assert forall q | q in payees :: q in payees + [p];
    }
  }

  /** Whatever the order they come in, distinct options are all paid, each its whole
      settled and unsettled entitlement. */
  lemma {:induction false} EveryoneIsPaid(l: Ledger, payees: seq<Payee>, now: nat)
    requires Inv(l) && Quiet(l.caretaker, now) && Quiet(l.groundworks, now)
    requires forall p | p in payees :: Claimable(l.At(p.stream), p.id, p.caller)
    requires forall i, j | 0 <= i < j < |payees| :: payees[i].stream != payees[j].stream || payees[i].id != payees[j].id
    ensures var r := PayAll(l, payees, now);
      && r.Done? && Inv(r.ledger) && r.ledger.held == l.held - EntitledSum(l, payees) && PaidTo(l, r.ledger, payees)
  {
    hide Inv, ClaimAllocation, SettleOption;
    if payees != [] {
      var front, p := payees[..|payees| - 1], payees[|payees| - 1];
      EveryoneIsPaid(l, front, now);
      var m := PayAll(l, front, now).ledger;
      assert p in payees;
      assert m.At(p.stream).options[p.id] == l.At(p.stream).options[p.id];
      QuietClaim(m, p, now);
      PaidMore(l, m, ClaimAllocation(m, p.stream, p.id, p.caller, now).ledger, front, p);
      assert front + [p] == payees;
    }
  }

  /** So in any reachable state, once both streams are settled to the block time, everyone
      can be paid at once. */
  lemma EveryoneCanBePaid(l: Ledger, payees: seq<Payee>, now: nat)
    requires Inv(l) && l.caretaker.lastUpkeep >= 0 && l.groundworks.lastUpkeep >= 0
    requires forall p | p in payees :: Claimable(l.At(p.stream), p.id, p.caller)
    requires forall i, j | 0 <= i < j < |payees| :: payees[i].stream != payees[j].stream || payees[i].id != payees[j].id
    ensures var m := AdvanceTo(AdvanceTo(l, Caretaker, now), Groundworks, now);
      var r := PayAll(m, payees, now);
      r.Done? && Inv(r.ledger) && r.ledger.held == m.held - EntitledSum(m, payees)
  {
    hide Inv, AdvanceTo, PayAll, EntitledSum, Quiet;
    var l1 := AdvanceTo(l, Caretaker, now);
    AdvanceInv(l, Caretaker, now);
    AdvancedIsQuiet(l, Caretaker, now);
    var m := AdvanceTo(l1, Groundworks, now);
    AdvanceInv(l1, Groundworks, now);
    AdvancedIsQuiet(l1, Groundworks, now);
    assert m.At(Other(Groundworks)) == l1.At(Other(Groundworks)) && l1.At(Other(Caretaker)) == l.At(Other(Caretaker));
    assert m.caretaker.options == l.caretaker.options && m.groundworks.options == l.groundworks.options;
    EveryoneIsPaid(m, payees, now);
  }
}
