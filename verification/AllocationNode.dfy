/** A node: the keeper given one call after another, as the chain gives them. */
module AllocationNode {
  import opened AllocationTypes
  import opened AllocationLedger
  import opened AllocationVotes
  import opened AllocationBlocks
  import opened AllocationRun
  import opened AllocationKeeper

  /** The keeper's method for each call. */
  method Dispatch(k: Keeper, op: Op, now: nat) returns (halted: bool)
    modifies k
    ensures k.View() == Step(old(k.View()), op, now)
    ensures halted ==> Halts(k.View())
  {
    hide Inv, Halts, AllocationLedger.AdvanceTo, AllocationLedger.AdvanceIndexTo, AllocationLedger.AppendOption,
      AllocationLedger.SetVoterSplit, AllocationLedger.ApplySplit, AllocationLedger.ResyncVoter,
      AllocationLedger.ResyncFromBonded, AllocationLedger.SetWeightedVoter, AllocationLedger.SetWeightedVoterSettled,
      AllocationLedger.ClearVoter, AllocationLedger.MoveVoter, AllocationLedger.DrawAndPay,
      AllocationLedger.ClaimAllocation, AllocationLedger.ResetAllocations, AllocationLedger.RemoveGroundworksOption,
      BeginBlock, EndBlock;
    halted := false;
    match op {
      case Advance(s) => k.AdvanceTo(s, now);
      case AdvanceUntil(s, t) => k.AdvanceIndexTo(s, t, now);
      case AddOption(s, kind, recipient, claimer) => var _ := k.AppendOption(s, kind, recipient, claimer, now);
      case VoterSplit(s, key, shares, weight) => var _ := k.SetVoterSplit(s, key, shares, weight, now);
      case Split(s, key, shares, weight, lease) => var _ := k.ApplySplit(s, key, shares, weight, lease, now);
      case Resync(s, key, weight) => k.ResyncVoter(s, key, weight, now);
      case Bonded(key, weight, bondLeft) => k.ResyncFromBonded(key, weight, bondLeft, now);
      case Weighted(s, key, ws) => var _ := k.SetWeightedVoter(s, key, ws, now);
      case WeightedSettled(s, key, ws) => var _ := k.SetWeightedVoterSettled(s, key, ws, now);
      case Clear(s, key) => k.ClearVoter(s, key, now);
      case Move(s, from, to) => k.MoveVoter(s, from, to, now);
      case Draw(s, id, ppm) => var _ := k.DrawAndPay(s, id, ppm, now);
      case ClaimBalance(s, id, caller) => var _, _ := k.ClaimAllocation(s, id, caller, now);
      case Reset(s) => var _ := k.ResetAllocations(s, now);
      case Strike(id) => var _ := k.RemoveGroundworksOption(id, now);
      case Begin(c, g) => k.BeginBlocker(c, g, now);
      case End(vals, sinkWorks) =>
        var ok := k.EndBlocker(vals, sinkWorks, now);
        halted := !ok;
    }
  }

  /** Gives one call to the keeper; halted says that the end of the block failed. */
  method Execute(k: Keeper, op: Op, now: nat) returns (halted: bool)
    modifies k
    ensures k.View() == Step(old(k.View()), op, now)
    ensures halted ==> Halts(k.View())
    ensures old(Inv(k.View())) && Admissible(old(k.View()), op) ==> Inv(k.View()) && !halted
  {
    hide Inv, Halts, Admissible, Step;
    ghost var l := k.View();
    if Inv(l) && Admissible(l, op) {
      StepInv(l, op, now);
      NoHalt(Step(l, op, now));
    }
    halted := Dispatch(k, op, now);
  }

  /** Gives a run of calls to the keeper, up to the first halt. From a state satisfying the
      invariant, an admissible run never halts and every call is carried out. */
  method RunCalls(k: Keeper, calls: seq<(Op, nat)>) returns (halted: bool)
    modifies k
    ensures !halted ==> k.View() == After(old(k.View()), calls, |calls|)
    ensures halted ==> Halts(k.View())
    ensures old(Inv(k.View())) && AdmissibleRun(old(k.View()), calls) ==> !halted && Inv(k.View())
  {
    hide Inv, Step, Halts, Admissible;
    ghost var l := k.View();
    for i := 0 to |calls|
      invariant k.View() == After(l, calls, i)
      invariant Inv(l) && AdmissibleRun(l, calls) ==> Inv(k.View())
    {
      halted := Execute(k, calls[i].0, calls[i].1);
      if halted {
        return;
      }
    }
    halted := false;
  }
}
