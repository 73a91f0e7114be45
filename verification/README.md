# Earth Network chain: a verified model

Dafny models of five parts of the Earth Network chain, with proofs of what each is for.
`dafny verify dfyconfig.toml` checks the whole project.

**The allocation ledger** (`Allocation*.dfy`). Two emission streams, Caretaker and
Groundworks, share one module account. Each settle mints an emission, moves a truncated
reward index, reserves what the options can collect and books the rest as residue. Options
settle lazily; voters are replayed at new weights; resets, strikes, prunes and lapsing
leases change the slate. The end of a block halts the chain when the account cannot cover
what it owes or when a stream's two weight totals differ. `Inv` is the inductive invariant
behind both checks: it counts every option's unsettled claim, ties each live option's
weight to what the current voters stored, keeps the removal schedule, and records that no
settlement passed a counted lease. `AllocationRun` proves it over every run of every entry
point. Beside it stand what each call is for: the record a vote leaves and the weight each
option gains by it (`AllocationBallots`), the share of each emission an option earns and the
law that no call lowers an entitlement but one that pays it (`AllocationEarnings`,
`AllocationFairness`), and what the other calls leave behind (`AllocationOutcomes`). Each entry
point is a function of the whole ledger and a method of class `Keeper`
that updates the fields step by step, is proved equal to that function and keeps the
invariant; `AllocationNode` gives the class whole runs of calls, and an admissible one never halts.

**The authenticated trees** (`Merkle.dfy`, `SortedLinks.dfy`, `IndexedTree.dfy`,
`DebtTree.dfy`). An incremental Merkle tree of depth 32, the sorted linked list kept in its
leaves that proves values absent, and the variant whose rows carry what a slashed move
still retains. The hash is any function: where soundness needs it not to collide, the
theorem exhibits the two inputs, and both come from the two computations compared.

**Bundle verification** (`Orchard*.dfy`). The goroutines that check action proofs, as a
state machine over every interleaving; the value balance behind the binding key, with
points as formal combinations of independent bases modulo the group order; the binding
signature; and the sighash encoding.

**The shielded address codec** (`Address*.dfy`). Bech32m of BIP-350 without its length
limit: regrouping through a 64-bit accumulator, the checksum as arithmetic on 30-bit
states, and the address format on top.

**Two state machines.** The assembly's pass over due proposals, which has to come before
governance's (`Chamber*.dfy`), and the bounded cache of verified proofs under concurrent
calls (`ProofCache*.dfy`).

`Sums.dfy`, `Arithmetic.dfy` and `BigEndian.dfy` hold the shared mathematics.

Five properties one would expect are false of the code, or hold only under a condition:

- A weighted voter may name an option id that has not been issued. Weight conservation
  then breaks once the id is issued, and the chain halts (`UnissuedHalts`). It holds in
  every later run exactly when all positive weights name issued ids
  (`WeightedVoterRuns`).
- A draw takes no more than the balance exactly when its rate is at most a million parts
  per million (`DrawWithinBalance`).
- Import accepts files that halt the chain later: its funding check does not count
  unsettled claims (`UnbackedGenesis`), and nothing compares an option's amount with its
  votes (`UnsupportedGenesis`) or a vote's epoch with the stream's (`EarlyGenesis`). An
  accepted file satisfies the invariant every run theorem starts from exactly when it meets
  all three (`ImportExact`). For never halting that is sufficient (`SoundFileNeverHalts`).
  Conversely, every accepted file whose account cannot cover its settled balances, whose
  votes outweigh a stream's total, or with weight of a later epoch on a live option has an
  admissible run that halts (`UnsoundFileHalts`). A state the chain itself exported always
  meets the condition (`GenesisRoundTrip`).
- Not every state the keeper's methods reach exports a file that validates: a split filed on
  Groundworks without a lease does not (`UnleasedExport`). The exact condition on the stored
  votes is `ExportValidExact`. The repository's own callers stay inside it: unleased splits
  and moves are made on Caretaker alone (`x/personhood/keeper/caretaker.go:101`, `:306`),
  Groundworks splits come through `ApplySplit`, which leases them, and weighted voters use
  keys of their own (`x/shieldedstaking/keeper/groundworks.go:458`). Every run of such calls
  exports a file that validates and is imported again (`RunExports`).
- The chamber's bar is computed in 64-bit arithmetic. Up to n votes it is the share it
  names exactly when 3n, or 4n on the expedited track, fits the word (`ApprovesExact`);
  the least tallies beyond are unanimous and do not carry (`ApprovesWraps`).

## Model

| member | source | states |
|---|---|---|
| `AllocationRun.RunIsSound` | x/allocation/keeper/invariants.go:122-153 | After any run from a state satisfying the invariant, neither end-of-block halt fires; the coins held cover accrued balances, residue and every unsettled claim of both streams; total, running and actual weight sums agree; each live option's weight is non-negative and equals its current-epoch voters' stored contributions |
| `AllocationRun.RunRespectsLeases` | x/allocation/keeper/lease.go:100-157 | After any run, no settlement in the history went past the expiry of a lease counted at the time, and the lapse queue holds every counted lease |
| `AllocationRun.RunSchedule` | x/allocation/keeper/prune.go:61-114 | After any run, the removal queue and its reverse lookup name the same entries, one for each prunable option, and each scheduled option has stayed prunable since the grace period before its date |
| `AllocationRun.StepInv` | x/allocation/keeper/allocation.go:83-690 | Every entry point keeps the invariant, a refused call leaving the state as it was |
| `AllocationRun.EveryoneIsPaid` | x/allocation/keeper/msg_server_claim_allocation.go:22-87 | Any claimable options, in any order, are each paid their whole entitlement: no claim is refused and the account falls by exactly the sum |
| `AllocationRun.EveryoneCanBePaid` | x/allocation/keeper/msg_server_claim_allocation.go:22-87 | In any state satisfying the invariant whose cursors are not negative, once both streams are settled to the block time, any claimable options are all paid in full, in any order |
| `AllocationRun.AdvancedIsQuiet` | x/allocation/keeper/allocation.go:251-262 | A second advance at the same time changes nothing, as the claims of one block need |
| `AllocationBlocks.NoHalt` | x/allocation/keeper/invariants.go:122-153 | The invariant implies that the end-of-block check passes |
| `AllocationBooks.SetOptionBooks` | x/allocation/keeper/allocation.go:83-131 | Any option write keeps the running sums equal to the actual ones and the schedule in step, and moves the ledger's slack by exactly the option's change in worth |
| `AllocationBooks.SettleOptionWorth` | x/allocation/keeper/allocation.go:386-392 | Settling an option clears its pending claim, never lowers its balance, and gives up less than one unit of worth |
| `AllocationSettle.Reserve` | x/allocation/keeper/allocation.go:266-302 | The reserve rounded up covers what the options can collect by less than one unit and never exceeds the reward |
| `AllocationSettle.SettleToBooks` | x/allocation/keeper/allocation.go:266-324 | A settle to any time keeps the books and never lowers the slack |
| `AllocationSettle.SettleToLeases` | x/allocation/keeper/allocation.go:266-297 | A settle no later than every counted lease keeps the lease history respected |
| `AllocationVotes.WriteVoterInv` | x/allocation/keeper/allocation.go:486-591 | Replacing a voter's record keeps the invariant, and the total weight moves by the live parts of the old and new contributions |
| `AllocationVotes.TakeOffSafe` | x/allocation/keeper/allocation.go:486-591 | Unwinding a voter's stored contributions never takes an option below zero, so the clamp never fires |
| `AllocationOps.HeldTargetBeforeLeases` | x/allocation/keeper/lease.go:144-157 | The time an advance is held to is no later than any counted lease's expiry |
| `AllocationOps.AdvanceInv` | x/allocation/keeper/allocation.go:219-262 | An advance keeps the invariant, touches nothing but what a settle does, and never lowers the slack |
| `AllocationOps.ResyncVoterAtInv` | x/allocation/keeper/allocation.go:433-465 | Replaying a voter's split at a new non-negative weight keeps the invariant; ResyncReplays states the record it leaves |
| `AllocationOps.ApplySplitInv` | x/allocation/keeper/external_voters.go:101-135 | An accepted split, leased or not, keeps the invariant |
| `AllocationOps.SetWeightedVoterInv` | x/allocation/keeper/external_voters.go:187-242 | Both ways of filing a weighted voter keep the invariant when the positive weights name issued ids |
| `AllocationOps.MoveVoterInv` | x/allocation/keeper/external_voters.go:255-276 | Moving a voter to another key keeps the invariant |
| `AllocationOps.AppendOptionInv` | x/allocation/keeper/allocation.go:345-382 | A new option takes an unused id and keeps the invariant |
| `AllocationOps.WithdrawInv` | x/allocation/keeper/allocation.go:621-645 | Taking any part of a settled balance frees slack worth it, and paying it out is covered and keeps the invariant |
| `AllocationPayments.DrawWithinBalance` | x/allocation/keeper/allocation.go:621-645 | A draw never exceeds a non-negative balance if and only if its rate is at most a million parts per million |
| `AllocationPayments.DrawAndPayInv` | x/allocation/keeper/keeper.go:227-254 | A draw and the payment after it are covered and keep the invariant |
| `AllocationPayments.ClaimInv` | x/allocation/keeper/msg_server_claim_allocation.go:22-87 | A claim succeeds exactly when the option is claimable by the caller, pays exactly the whole entitlement, leaves a zero balance and keeps the invariant |
| `AllocationPayments.ResolveAllInv` | x/allocation/keeper/abci.go:36-101 | Resolving integrated options, whatever their handlers report, keeps the invariant and the set of options |
| `AllocationPayments.SweepResidueInv` | x/allocation/keeper/keeper.go:273-294 | Sweeping the residue, whether the sink works or not, keeps the invariant and the slack |
| `AllocationPayments.ResetInv` | x/allocation/keeper/allocation.go:655-690 | A reset retires every vote by its epoch and keeps the invariant; ResetBanks states what the options keep |
| `AllocationPayments.StrikeInv` | x/allocation/keeper/removal.go:67-162 | Striking an option, weighted or not, never fails for want of coins to burn and keeps the invariant |
| `AllocationPayments.PruneEntryInv` | x/allocation/keeper/prune.go:122-251 | A removal takes one queue entry, whose option was idle for the whole grace period, lowers coins and accrued sum by the same amount, leaves both weight totals alone and keeps the invariant |
| `AllocationPayments.PruneEntriesInv` | x/allocation/keeper/prune.go:122-176 | A sweep removes exactly the entries it took and keeps the invariant |
| `AllocationBlocks.LapseAtQueue` | x/allocation/keeper/lease.go:181-234 | Retiring the leases of one time empties the queue of that time and adds nothing |
| `AllocationBlocks.SweepLapsesInv` | x/allocation/keeper/lease.go:100-139 | The sweep ends, leaves no entry due at or before the block time, and keeps the invariant |
| `AllocationBlocks.NoLeaseOverdue` | x/allocation/keeper/lease.go:100-139 | After the sweep every lease still counted expires after the block time |
| `AllocationBlocks.SweepPrunableInv` | x/allocation/keeper/prune.go:122-176 | The capped sweep of due removals keeps the invariant |
| `AllocationOnward.SweepRemovesIdle` | x/allocation/keeper/prune.go:122-251 | Every option the sweep removes was idle for the whole grace period by the block's own clock; coins and accrued sum fall by the same amount; no vote, total, cursor or other option changes |
| `AllocationOnward.RemovedWasIdle` | x/allocation/keeper/prune.go:122-251 | No call but the start of a block removes an option, and what that removes was idle for thirty days |
| `AllocationOnward.StepOnward` | x/allocation/keeper/allocation.go:83-690 | Every other call keeps every option, moves no cursor back, takes in no coins but emissions, and accounts for a started cursor's movement exactly, as time with weight or time without |
| `AllocationOnward.RunEmission` | x/allocation/keeper/allocation.go:205-297 | Over any run a stream mints at most the emission of the time its cursor moved while its total was positive, short of it by less than one unit a settlement; that time and the time moved without weight add up to no more than the cursor's movement, and to exactly it once the cursor had started |
| `AllocationOnward.RunCoins` | x/allocation/keeper/allocation.go:266-297 | Over any run the coins held rise by no more than the emissions of the two streams: nothing else brings coins in |
| `AllocationOnward.SettleTime` | x/allocation/keeper/allocation.go:266-297 | A settlement counts its whole interval as time with weight or as time without, by the stream's total, and raises the coins held by exactly the emission recorded |
| `AllocationBallots.ShareOfWeight` | x/allocation/keeper/allocation.go:402-408 | Each share of a split gives its own option its percentage of the weight, less than one unit rounded off |
| `AllocationBallots.SplitSpendsWeight` | x/allocation/keeper/external_voters.go:31-79 | A castable split hands out no more than the weight and falls short of it by fewer units than it has options, twenty at the most; of a weight of at least 100 every option gets something |
| `AllocationBallots.WriteVoterRecast` | x/allocation/keeper/allocation.go:486-591 | Replacing a voter's record moves each live option's weight by the difference of what the two records put on it, and touches no other voter, the other stream or the coins |
| `AllocationBallots.VoterSplitFiles` | x/allocation/keeper/external_voters.go:85-96 | An accepted split leaves exactly the record cast, at its whole positive weight, or none for an empty one |
| `AllocationBallots.SplitFiles` | x/allocation/keeper/external_voters.go:101-135 | The same of a split applied, with a lease on Groundworks that ends the lease's length after the block's second |
| `AllocationBallots.SplitGains` | x/allocation/keeper/external_voters.go:85-135 | Either way of casting a split gives each option it names its percentage of the weight in place of what the voter put on it before; every other live option loses exactly that |
| `AllocationBallots.ResyncReplays` | x/allocation/keeper/external_voters.go:142-174 | A replay leaves the part of the split that still exists at the new weight, with its lease; the record is gone exactly when that part is empty, the weight zero or the vote of an earlier epoch; a weighted voter is left alone |
| `AllocationBallots.BondedReplays` | x/allocation/keeper/hooks.go:30-76 | An operator's record is replayed at its bonded stake, at nothing where that is negative; it is gone exactly when no part of the split exists, the vote is stale, or the stake is nothing with no bond left; option weights move by the difference |
| `AllocationBallots.SlashedReplayed` | x/allocation/keeper/hooks.go:161-176 | At the end of a block every operator named once is replayed at the stake reported for it, and no other record moves |
| `AllocationBallots.WeightedFiles` | x/allocation/keeper/external_voters.go:187-242 | A weighted voter is filed with its positive weights and their sum; each live option gains what the list puts on it in place of the old vote; a repeated option is refused by one form exactly |
| `AllocationBallots.ClearFiles` | x/allocation/keeper/allocation.go:600-602 | Clearing takes the record away and with it exactly the weight it carried |
| `AllocationBallots.MoveFiles` | x/allocation/keeper/external_voters.go:255-276 | A move files the source's split, as far as it exists, and its weight under the target and clears the source; a stale vote moves nothing; no other voter is touched |
| `AllocationBallots.LapsesWhenDue` | x/allocation/keeper/lease.go:181-234 | A counted lease lapses in the sweep if and only if it has ended by the block's second |
| `AllocationBallots.SweepExact` | x/allocation/keeper/lease.go:100-139 | The sweep retires exactly the votes that lapse, leaves every other record as it was, and brings the cursor to the block time |
| `AllocationEarnings.FairShare` | x/allocation/keeper/allocation.go:266-324 | A settlement gives each option its share of the reward by weight: less than one unit over, and short by less than one unit and the index's own rounding; the residue takes less than the weight's worth of one index step |
| `AllocationEarnings.SettleSurplus` | x/allocation/keeper/allocation.go:266-324 | Coins less residue less all entitlements change in a settlement by at most one unit an option, and not at all without weight |
| `AllocationFairness.StepFair` | x/allocation/keeper/allocation.go:83-690 | No call lowers an option's entitlement, or changes its kind, recipient or claimer, but a draw, claim or strike of that option or, for an integrated one, the start of a block; every call keeps coins, residue and entitlements in balance up to one unit an option issued and settlement |
| `AllocationFairness.RunEarns` | x/allocation/keeper/allocation.go:647-654 | Over any run that never pays an option, its entitlement never falls |
| `AllocationFairness.RunBalances` | x/allocation/keeper/invariants.go:286-316 | Over any run, coins less residue less entitlements change by at most one unit an option issued and settlement: nothing is lost and nothing made |
| `AllocationOutcomes.Covered` | x/allocation/keeper/invariants.go:286-316 | The coins held cover the residue and every option's whole entitlement at once |
| `AllocationOutcomes.AppendedOption` | x/allocation/keeper/allocation.go:345-382 | A new option is on the slate under an unused id with the recipient given, no weight and nothing due, claimable by its claimer alone, or by anyone if it has none; nothing else changes |
| `AllocationOutcomes.ResetBanks` | x/allocation/keeper/allocation.go:655-690 | A reset confiscates nothing: every option keeps in its balance all it was entitled to at the block time and carries no weight; the epoch rises by one, and votes, coins and the other stream stay |
| `AllocationOutcomes.StruckOption` | x/allocation/keeper/removal.go:67-162 | A strike marks the option, weightless and with nothing due; its weight leaves the total and its whole entitlement is burned; no other option, vote or stream is touched |
| `AllocationOutcomes.DrawPays` | x/allocation/keeper/allocation.go:621-645 | A draw pays its parts per million of the whole entitlement, rounded down, and leaves the option the rest |
| `AllocationOutcomes.ResolveAllPays` | x/allocation/keeper/abci.go:36-101 | The account falls by exactly the sum of the honoured reports, each handled option by its own, and no other option is touched |
| `AllocationOutcomes.BeginBlockPays` | x/allocation/keeper/abci.go:24-101 | At the start of a block each stream's handlers are paid by their own reports, on what their options are due once the stream is swept; every other option that stays is due exactly what it was |
| `AllocationOutcomes.EndBlockSweeps` | x/allocation/keeper/keeper.go:273-294 | A working sink takes the whole residue at the end of a block, coins and all; a failing one takes nothing |
| `AllocationOutcomes.AdvanceReaches` | x/allocation/keeper/allocation.go:251-262 | An advance brings the cursor to the block time or to the first queued lease end before it, never past one and never back |
| `AllocationOutcomes.AdvanceUntilReaches` | x/allocation/keeper/allocation.go:230-244 | Settling to a second stops there or at the block time, whichever is first, and gets there when no lease ends before |
| `AllocationOutcomes.RecordsLeases` | x/allocation/keeper/allocation.go:266-297 | A settlement over a weight is recorded with its interval and every lease counted in that weight, as RunRespectsLeases reads it |
| `AllocationOutcomes.BeginBlockVotes` | x/allocation/keeper/abci.go:24-34 | The start of a block brings both cursors to its time and retires exactly the votes that lapse |
| `AllocationOutcomes.RemovalDate` | x/allocation/keeper/prune.go:61-114 | A write that leaves an option dead schedules its removal exactly thirty days after the block's second, or keeps the date it has; any other write leaves it off the schedule |
| `AllocationOutcomes.SweepPrunes` | x/allocation/keeper/prune.go:122-251 | The sweep removes the earliest due options, all of them up to twenty, burns exactly their balances and leaves every other option as it was |
| `AllocationBlocks.ResolveIntegratedInv` | x/allocation/keeper/abci.go:36-101 | A stream's lapses, settle and handlers together keep the invariant |
| `AllocationBlocks.BeginBlockInv` | x/allocation/keeper/abci.go:24-34 | The whole start of a block keeps the invariant |
| `AllocationBlocks.ResyncSlashedInv` | x/allocation/keeper/hooks.go:161-176 | Resyncing the operators of slashed validators keeps the invariant; SlashedReplayed states the records it leaves |
| `AllocationLimits.WeightedVoterExact` | x/allocation/keeper/external_voters.go:218-242 | After filing a weighted voter, every slate reached by issuing more options stays supported by its votes if and only if all positive weights name issued ids |
| `AllocationLimits.WeightedVoterRuns` | x/allocation/keeper/external_voters.go:218-242 | After filing a weighted voter, each live option carries its voters' weight in every state of every admissible run if and only if all positive weights name issued ids |
| `AllocationLimits.UnissuedHalts` | x/allocation/keeper/allocation.go:486-591 | A concrete weighted vote on an unissued id which, once that id is issued and the vote withdrawn, halts the chain |
| `AllocationLimits.EmissionRate` | x/allocation/keeper/allocation.go:266-297 | A stream emits exactly a million units a second |
| `AllocationLimits.EmissionBounds` | x/allocation/keeper/allocation.go:266-297 | Over n settles the amount minted is at most the rate times the time, and short of it by less than n |
| `AllocationLimits.SettleAllMints` | x/allocation/keeper/allocation.go:266-324 | With positive weight, a series of settles raises the coins held by exactly that amount |
| `AllocationLimits.LazyCollects` | x/allocation/keeper/allocation.go:386-392 | One lazy settle over k advances collects at least what k eager ones collect and at most k-1 more |
| `AllocationGenesis.FreshInv` | x/allocation/keeper/genesis.go:64-186 | A funded fresh genesis satisfies the invariant |
| `AllocationGenesis.FreshSlate` | x/allocation/keeper/genesis.go:64-186 | A fresh chain has one integrated option on Caretaker, holding the seed, and two on Groundworks, holding nothing; no votes, weight or settled time |
| `AllocationGenesis.SeedKept` | x/allocation/keeper/genesis.go:64-186 | Every accepted genesis has its seed on the books: a fresh one as a balance, and a file with streams carries none |
| `AllocationGenesis.FromFreshGenesis` | x/allocation/keeper/genesis.go:22-186 | No run from an accepted fresh genesis reaches a halt |
| `AllocationGenesis.GenesisRoundTrip` | x/allocation/keeper/genesis.go:191-386 | Importing an export keeps options, index, epoch, id sequence, residue and every voter's live contributions, rebuilds both running sums exactly, and keeps the invariant and the slack |
| `AllocationGenesis.ExportIsAccepted` | x/allocation/keeper/genesis.go:22-62 | An export that validates is imported without error, to that state |
| `AllocationExport.ExportValidExact` | x/allocation/types/genesis.go:31-187 | A reachable state's export validates if and only if only Groundworks has struck options and each vote exported is a split within bounds, leased exactly on Groundworks, or an unleased list of positive weights on distinct options that sums to the stored weight |
| `AllocationExport.UnleasedExport` | x/allocation/keeper/external_voters.go:85-96 | A concrete state reached by one call of the keeper's method whose export the import refuses: a Groundworks split filed without a lease |
| `AllocationFiling.RunExports` | x/allocation/keeper/genesis.go:277-386 | In every run of calls as the repository's callers make them, from an accepted fresh genesis, the state exports a file that validates and is imported without error, to the state the round trip gives |
| `AllocationFiling.StepFiled` | x/allocation/keeper/external_voters.go:85-276 | Every such call keeps all stored votes within bounds, leased exactly when a split on Groundworks, and struck options on Groundworks alone |
| `AllocationGenesis.RestartPaysNothing` | x/allocation/keeper/genesis.go:191-267 | The first settle after an import mints nothing for the gap and moves no index |
| `AllocationImport.ImportExact` | x/allocation/keeper/genesis.go:22-62 | An accepted genesis establishes the invariant if and only if the file covers residue, balances and unsettled claims from the account, gives each option not struck its current voters' contributions, and holds no vote of a later epoch |
| `AllocationImport.FromSoundFile` | x/allocation/keeper/genesis.go:22-267 | No run from an accepted file meeting that condition reaches a halt |
| `AllocationHalts.SoundFileNeverHalts` | x/allocation/keeper/genesis.go:22-62 | From an accepted file meeting that condition there is no admissible run that halts |
| `AllocationHalts.UnsoundFileHalts` | x/allocation/keeper/genesis.go:22-62 | Every accepted file with streams whose account does not cover residue and balances with all options settled, one of whose streams has current votes outweighing its total, or which lists a later epoch's vote with weight on an unstruck option, has an admissible run that halts |
| `AllocationHalts.UncoveredHalts` | x/allocation/keeper/invariants.go:122-153 | From any state whose cursors are unstarted or past some block time, if the coins do not cover residue, accrued balances and what settling some options adds, some admissible run halts |
| `AllocationHalts.OverclaimedHalts` | x/allocation/keeper/allocation.go:486-591 | From any state whose two weight totals agree and are not negative, if the live contributions of some current voters outweigh them, some admissible run halts |
| `AllocationHalts.EarlyHalts` | x/allocation/keeper/allocation.go:655-690 | From any state with sound books, a later epoch's vote with weight on an unstruck option has an admissible run that halts: resets up to its epoch, then its withdrawal |
| `AllocationImport.UnbackedGenesis` | x/allocation/keeper/genesis.go:49-62 | A concrete accepted file whose unsettled claim is not covered: settling the option halts the chain |
| `AllocationImport.UnsupportedGenesis` | x/allocation/types/genesis.go:138-183 | A concrete accepted and fully covered file whose option carries less than its voter put on it: withdrawing the vote halts the chain |
| `AllocationImport.EarlyGenesis` | x/allocation/types/genesis.go:138-183 | A concrete accepted file with a vote of the next epoch: after a reset, withdrawing the vote halts the chain |
| `AllocationGenesisKeeper.Validate` | x/allocation/types/genesis.go:31-187 | The validation loops accept a genesis exactly when it is valid: no stream, option or voter twice, sums exact, splits within bounds, leases only where they apply |
| `AllocationGenesisKeeper.ValidateStream` | x/allocation/types/genesis.go:52-184 | One stream's checks hold exactly when it is valid |
| `AllocationGenesisKeeper.ValidateWeightedVoter` | x/allocation/types/genesis.go:192-218 | The weighted voter's checks hold exactly when each weight is positive on a distinct option on file and they sum to the weight |
| `AllocationGenesisKeeper.RestoreStream` | x/allocation/keeper/genesis.go:191-267 | Restoring a stream step by step gives the specified ledger |
| `AllocationGenesisKeeper.RestoreVoters` | x/allocation/keeper/genesis.go:249-264 | The voters and the queued leases are those of the entries |
| `AllocationKeeper.Keeper.SetOption` | x/allocation/keeper/allocation.go:83-131 | The new state is the specified one: record, both running sums and schedule |
| `AllocationKeeper.Keeper.AppendOption` | x/allocation/keeper/allocation.go:345-382 | Takes the next id, and keeps the invariant of every run |
| `AllocationKeeper.Keeper.AdvanceTo` | x/allocation/keeper/allocation.go:251-262 | Keeps the invariant: no settlement passes a counted lease and every claim stays covered |
| `AllocationKeeper.Keeper.AdvanceIndexTo` | x/allocation/keeper/allocation.go:230-244 | Keeps the invariant, whatever second it is asked to settle to |
| `AllocationKeeper.Keeper.WriteVoter` | x/allocation/keeper/allocation.go:486-591 | The loops over old and new contributions reach the specified ledger: totals, record and queue |
| `AllocationKeeper.Keeper.ResyncVoterAt` | x/allocation/keeper/allocation.go:439-450 | The filtering loop reaches the specified ledger, and keeps the invariant at any non-negative weight |
| `AllocationKeeper.Keeper.ValidateSplit` | x/allocation/keeper/external_voters.go:31-79 | The loop accepts a split exactly when it is valid against the options on file |
| `AllocationKeeper.Keeper.SetVoterSplit` | x/allocation/keeper/external_voters.go:85-96 | Accepts exactly the valid splits with weight, changes nothing on a refusal, and keeps the invariant |
| `AllocationKeeper.Keeper.ApplySplit` | x/allocation/keeper/external_voters.go:101-135 | Accepts exactly the valid splits with weight, leases them on Groundworks, changes nothing on a refusal, and keeps the invariant |
| `AllocationKeeper.Keeper.ResyncVoter` | x/allocation/keeper/external_voters.go:142-174 | Replaying a voter at any non-negative weight keeps the invariant |
| `AllocationKeeper.Keeper.ResyncFromBonded` | x/allocation/keeper/hooks.go:30-76 | Replaying an operator at whatever bond is left keeps the invariant |
| `AllocationKeeper.Keeper.SetWeightedVoter` | x/allocation/keeper/external_voters.go:187-212 | Refuses negative and repeated weights and changes nothing then; keeps the invariant when the positive ones name issued ids |
| `AllocationKeeper.Keeper.SetWeightedVoterSettled` | x/allocation/keeper/external_voters.go:218-234 | Refuses negative weights and changes nothing then; keeps the invariant when the positive ones name issued ids |
| `AllocationKeeper.Keeper.MoveVoter` | x/allocation/keeper/external_voters.go:255-276 | Moving a vote to another key keeps the invariant |
| `AllocationKeeper.Keeper.DrawFromOption` | x/allocation/keeper/allocation.go:621-645 | At a rate of at most the whole balance, the draw is covered by the account, and the invariant holds before and after it is paid out |
| `AllocationKeeper.Keeper.ClaimAllocation` | x/allocation/keeper/msg_server_claim_allocation.go:22-87 | Under the invariant succeeds exactly when the option is claimable by the caller; reports what left the account; a refusal leaves the state as it was; keeps the invariant |
| `AllocationKeeper.Keeper.SweepResidue` | x/allocation/keeper/keeper.go:273-294 | Keeps the invariant, whether the sink works or not |
| `AllocationKeeper.Keeper.ResetAllocations` | x/allocation/keeper/allocation.go:655-690 | The loop over the options reaches the specified ledger, under the epoch returned, and keeps the invariant |
| `AllocationKeeper.Keeper.RemoveGroundworksOption` | x/allocation/keeper/removal.go:67-162 | Under the invariant always succeeds and keeps it; a refusal leaves the state as it was |
| `AllocationKeeper.Keeper.SweepPrunableOptions` | x/allocation/keeper/prune.go:122-176 | The capped loop reaches the specified ledger and keeps the invariant |
| `AllocationKeeper.Keeper.Lapse` | x/allocation/keeper/lease.go:181-234 | The loop over the leases of one time reaches the specified state |
| `AllocationKeeper.Keeper.SweepLapses` | x/allocation/keeper/lease.go:100-139 | The loop ends without the left-behind error, in the specified ledger, and keeps the invariant |
| `AllocationKeeper.Keeper.ResolveIntegrated` | x/allocation/keeper/abci.go:36-101 | The loop over the handlers reaches the specified ledger and keeps the invariant, whatever they report |
| `AllocationKeeper.Keeper.BeginBlocker` | x/allocation/keeper/abci.go:24-34 | The whole start of a block keeps the invariant |
| `AllocationKeeper.Keeper.ResyncSlashed` | x/allocation/keeper/hooks.go:161-176 | The loop reaches the specified ledger and keeps the invariant |
| `AllocationKeeper.Keeper.DrawAndPay` | x/allocation/keeper/allocation.go:621-645 | Under the invariant and a rate of at most the whole balance, a draw and its payment succeed and keep the invariant; a refusal leaves the state as it was |
| `AllocationKeeper.Keeper.ClearVoter` | x/allocation/keeper/allocation.go:600-602 | Withdrawing a vote keeps the invariant |
| `AllocationKeeper.Keeper.EndBlocker` | x/allocation/module/module.go:137-145 | Fails exactly in a halting state; under the invariant never fails and keeps it |
| `AllocationNode.Execute` | x/allocation/keeper/allocation.go:83-690 | Each call given to the keeper is the specified step; an admissible one from the invariant keeps it and does not halt |
| `AllocationNode.RunCalls` | x/allocation/module/module.go:137-145 | An admissible run of calls given to the keeper never halts and carries every call out |
| `AllocationKeeper.Keeper.CheckStreamWeight` | x/allocation/keeper/invariants.go:79-98 | The walk reports the declared total and the actual sum of the options |
| `AllocationKeeper.Keeper.WalkAccrued` | x/allocation/keeper/invariants.go:238-248 | The walk reports the actual sum of all balances |
| `AllocationKeeper.Keeper.CheckSolvency` | x/allocation/keeper/invariants.go:286-316 | Exactly one of shortfall and surplus can be positive, and they reconcile coins with debts |
| `AllocationKeeper.Keeper.AssertHotInvariants` | x/allocation/keeper/invariants.go:122-153 | Passes exactly when the chain does not halt, and always under the invariant |
| `AllocationKeeper.Keeper.AssertInvariants` | x/allocation/keeper/invariants.go:167-233 | Passes exactly when all sums are exact and debts are covered, and always under the invariant |
| `Merkle.Tree.Set` | zk/merkle/merkle.go:123-144 | Writing a leaf leaves every node at every level the recursive hash of its leaf range |
| `Merkle.Tree.Append` | zk/merkle/merkle.go:102-112 | Appends one leaf at the next index, refused exactly when full; every node stays the hash of its range |
| `Merkle.Tree.Update` | zk/merkle/merkle.go:116-121 | Rewrites one appended leaf, refused exactly when out of range; every node stays the hash of its range |
| `Merkle.Tree.RootNode` | zk/merkle/merkle.go:87-99 | The root is the recursive hash of the leaf sequence alone |
| `Merkle.Tree.PathOf` | zk/merkle/merkle.go:150-164 | The siblings given lead from the leaf to the root |
| `Merkle.ComputeRoot` | zk/merkle/merkle.go:167-177 | The loop computes the specified climb |
| `Merkle.PathReachesRoot` | zk/merkle/merkle.go:150-177 | Every slot's own path leads from its leaf, empty or not, to the root |
| `Merkle.RootFixesLeaf` | zk/merkle/merkle.go:167-177 | A path reaching the root from any index fixes the leaf at the index's low 32 bits, or exhibits two pairs with one hash at one level |
| `Merkle.Untouched` | zk/merkle/merkle.go:123-144 | A leaf affects only the subtrees above it |
| `SortedLinks.InsertSorted` | zk/indexed/indexed.go:132-163 | Inserting a value after its low leaf keeps the list sorted from the sentinel and appends the value in insertion order |
| `SortedLinks.WalkVisitsAll` | zk/indexed/indexed.go:6-17 | Following the links from the sentinel visits every entry exactly once, strictly ascending, and stops at the largest |
| `SortedLinks.AbsentIffLowLeaf` | zk/indexed/indexed.go:15-17 | A nonzero value is absent if and only if some leaf is its low leaf |
| `SortedLinks.SortedUnique` | zk/indexed/indexed.go:6-17 | The values in insertion order determine every link |
| `SortedLinks.LowFromIndex` | zk/indexed/indexed.go:112-129 | What the index finds around an absent value is exactly its low leaf |
| `SortedLinks.LinkFromIndex` | zk/debt/debt.go:100-120 | A leaf is rebuilt exactly from its value and the index |
| `SortedLinks.MemIndex.Search` | zk/indexed/mem.go:21-23 | Binary search finds the first position whose value is at least the one sought |
| `SortedLinks.MemIndex.Get` | zk/indexed/mem.go:25-31 | Found exactly when recorded, with its index |
| `SortedLinks.MemIndex.Below` | zk/indexed/mem.go:33-39 | The largest recorded value below, or none exactly when there is none |
| `SortedLinks.MemIndex.Above` | zk/indexed/mem.go:41-50 | The least recorded value above, or none exactly when there is none |
| `SortedLinks.MemIndex.Put` | zk/indexed/mem.go:52-60 | Splices the value in order into both slices; they stay distinct and in step if and only if the value was not yet recorded |
| `IndexedTree.Tree.Insert` | zk/indexed/indexed.go:132-163 | Refuses 0, a value present and a full tree, exactly; otherwise appends the value and keeps tree, list and index in step |
| `IndexedTree.Tree.Neighbours` | zk/indexed/indexed.go:112-129 | Gives the low leaf of an absent value, with its index |
| `IndexedTree.Tree.NonMembership` | zk/indexed/indexed.go:174-198 | Every absent nonzero value gets a witness that verifies under the current root, on the empty tree too |
| `IndexedTree.Tree.RootNode` | zk/indexed/indexed.go:98-103 | The root is that of the list with its sentinel, written or not |
| `IndexedTree.WitnessSound` | zk/indexed/indexed.go:201-209 | Any witness that verifies means the value is absent, or exhibits a collision on the path or at the leaf, or a leaf hashing to the empty value |
| `IndexedTree.Rebuild` | zk/indexed/indexed.go:213-221 | Succeeds exactly when the values are nonzero, distinct and fit, and then holds them in order |
| `DebtTree.Tree.Set` | zk/debt/debt.go:141-182 | Refuses 0 and a new row in a full tree, exactly; otherwise records the figure, adding a row or rewriting its leaf, and keeps everything in step |
| `DebtTree.Tree.LeafOf` | zk/debt/debt.go:100-120 | The leaf rebuilt for a key is the row in the tree |
| `DebtTree.Tree.Low` | zk/debt/debt.go:124-134 | Gives the low leaf of a key without a row |
| `DebtTree.Tree.Lookup` | zk/debt/debt.go:193-218 | The witness is accepted for every exposure no smaller than the row's figure, and reads that figure, or the exposure without a row, on the empty tree too |
| `DebtTree.WitnessSound` | zk/debt/debt.go:222-239 | Any accepted witness for a nonzero key reads the row's latest figure, or the exposure without a row, or exhibits broken hash inputs |
| `DebtTree.Rebuild` | zk/debt/debt.go:249-257 | Succeeds exactly when no key is 0 and the distinct keys fit beside the sentinel; then the rows are those recorded in turn, each with its latest figure |
| `OrchardProofs.VerifySequential` | zk/orchard/bundle.go:293-303 | Returns the first failing action in bundle and action order, a panic included, or none |
| `OrchardProofs.InputsBind` | zk/orchard/bundle.go:170-181 | Equal public inputs mean equal anchor, nullifier, commitment, point coordinates and sighash, and the reverse |
| `OrchardSchedule.VerifyProofs` | zk/orchard/bundle.go:232-269 | For any number of processors and any schedule, ends with exactly the sequential answer |
| `OrchardSchedule.EveryInterleaving` | zk/orchard/bundle.go:232-269 | Any sequence of steps of producer and workers is bounded in length, is never stuck short of returning, and returns the first failing action |
| `OrchardSchedule.StepWorks` | zk/orchard/bundle.go:244-262 | Every step keeps the invariant of channel, workers and slots, and uses up work |
| `OrchardSchedule.NoDeadlock` | zk/orchard/bundle.go:244-262 | Some step is enabled in every state that has not returned |
| `OrchardSchedule.ListJobs` | zk/orchard/bundle.go:233-239 | The loops list every action in order |
| `OrchardBalance.BalanceExact` | zk/orchard/bundle.go:14-20 | Within the bounds on actions, values and balances, the binding key's value part vanishes modulo the order if and only if spends less outputs equal the public balance over the integers in every asset |
| `OrchardBalance.KeyCoeff` | zk/orchard/bundle.go:120-133 | The key's coefficient on an asset is the residue of spends less outputs less balance; on the blinding base, of the blindings |
| `OrchardBalance.CommitCoeff` | zk/orchard/value.go:16-20 | A commitment's coefficient on an asset is the residue of what it spends less what it makes |
| `OrchardBalance.BindingKey` | zk/orchard/bundle.go:120-133 | The loops compute the specified key, or fail exactly when a base does |
| `OrchardBalance.BindingSigningKey` | zk/orchard/value.go:25-32 | The loop gives the sum of the blindings modulo the order |
| `OrchardBalance.HonestKey` | zk/orchard/bundle.go:118-133 | A balanced bundle's key is the sum of its blindings times the blinding base |
| `OrchardBinding.SignedVerifies` | zk/orchard/binding.go:46-95 | A signature with a nonzero nonce is accepted under its key, and refused as an identity key exactly when the secret is zero |
| `OrchardBinding.HonestBundleVerifies` | zk/orchard/bundle.go:190-196 | An honest balanced bundle passes the balance check exactly when its blindings do not cancel |
| `OrchardBinding.SignersBalance` | zk/orchard/binding.go:20-28 | Two accepted answers on one commitment, to challenges whose difference has the given inverse modulo the order, force the bundle to balance in every asset |
| `OrchardBinding.OneSignature` | zk/orchard/binding.go:73-95 | An accepted signature is determined by its commitment bytes |
| `OrchardBinding.ValidateBasic` | zk/orchard/bundle.go:142-167 | The loops accept a bundle exactly when it is well formed: counts, points, distinct nullifiers, positive balances one per asset, signature length |
| `OrchardSighash.SighashBinds` | zk/orchard/bundle.go:105-113 | Equal sighashes mean equal type, chain, memo, timeout, gas, fields and bundles but for proofs and signatures, or two colliding inputs of the two computations are exhibited |
| `OrchardSighash.SighashIgnoresProofs` | zk/orchard/bundle.go:54-56 | Messages that differ only in proofs and binding signatures have one sighash |
| `OrchardSighash.DigestBinds` | zk/orchard/bundle.go:62-74 | Equal digests mean equal bundles but for proofs and signatures, or a collision is exhibited |
| `OrchardSighash.BuildDigest` | zk/orchard/bundle.go:62-74 | The loops compute the specified digest |
| `OrchardSighash.BuildSighash` | zk/orchard/bundle.go:105-113 | The loop computes the specified sighash |
| `OrchardSighash.SplitChunks` | zk/privacy/privacy.go:201-210 | The loop computes the specified chunks |
| `OrchardSighash.BytesInputInjective` | zk/privacy/privacy.go:212-219 | Different byte strings of any length are hashed from different inputs |
| `OrchardSighash.ChunksCanonical` | zk/privacy/privacy.go:199-210 | Every chunk is below the field's order |
| `Address.DecodeOfEncode` | zk/privacy/address.go:40-80 | Every well-formed address is read back from its encoding, lower or upper case |
| `Address.DecodeExact` | zk/privacy/address.go:54-80 | A string decodes to an address if and only if it is that address's encoding in all-lower or all-upper case |
| `Address.DecodeEncode` | zk/privacy/address.go:115-157 | Any prefix and symbols are read back from their bech32m text |
| `Address.EncodeDecode` | zk/privacy/address.go:130-157 | Text that decodes is the encoding of its result, in one case |
| `Address.WindowOfText` | zk/privacy/address.go:130-157 | Two accepted texts of any length with one prefix and one length that agree up to case outside six consecutive characters are the same up to case |
| `AddressVectors.ShortestText` | zk/privacy/address.go:130-157 | BIP-350's "A1LQFN3A" decodes to an empty payload under "a" |
| `AddressVectors.EverySymbol` | zk/privacy/address.go:82-101 | BIP-350's text of all 32 symbols, from the last to the first under "abcdef", decodes to them |
| `AddressVectors.Bech32Refused` | zk/privacy/address.go:86 | A valid bech32 text of BIP-173 is refused |
| `AddressVectors.AddressForm` | zk/privacy/address.go:11-47 | Every address is 116 characters from "erthz1" on, and its symbols are the bytes 0x01, the owner key big-endian and the encryption key |
| `AddressBits.RegroupRoundTrip` | zk/privacy/address.go:161-184 | Bytes regrouped to symbols with padding come back |
| `AddressBits.RegroupCanonical` | zk/privacy/address.go:161-184 | Symbols that regroup to bytes are the only ones that do: padding is short and zero |
| `AddressChecksum.StepInjective` | zk/privacy/address.go:88-101 | Each polymod step is injective on 30-bit states |
| `AddressChecksum.LastSymbols` | zk/privacy/address.go:88-101 | The last six symbols enter the state linearly, as themselves |
| `AddressChecksum.ChecksumUnique` | zk/privacy/address.go:115-128 | Six symbols complete a valid text if and only if they are the checksum |
| `AddressChecksum.WindowDetected` | zk/privacy/address.go:88-101 | Texts of any length that differ only inside a window of six symbols have different states and never both pass |
| `AddressCodec.RegroupBits` | zk/privacy/address.go:161-184 | The loop over a 64-bit accumulator that overflows computes the specified regrouping and its errors |
| `AddressCodec.Bech32Polymod` | zk/privacy/address.go:88-101 | The loop computes the specified state |
| `AddressCodec.EncodeText` | zk/privacy/address.go:115-128 | The loops compute the specified text |
| `AddressCodec.DecodeText` | zk/privacy/address.go:130-157 | The loops compute the specified result and errors |
| `AddressCodec.EncodeAddress` | zk/privacy/address.go:40-47 | The text written is read back |
| `AddressCodec.DecodeAddress` | zk/privacy/address.go:54-80 | What is accepted is the encoding of the result, in one case |
| `Chamber.ChamberBeforeGov` | x/assembly/keeper/abci.go:50-83 | After the pass succeeds, whatever is still due was ratified at its own bar and is untouched, or cannot be decoded; every due proposal is ratified, demoted to a round ending after the block under the next number, or failed, forgotten and out of the queue; each one's ballot is closed and its votes count no more; nothing else moved |
| `Chamber.ApprovedStands` | x/assembly/keeper/abci.go:86-188 | A due proposal approved at its own bar that nothing makes fail stays in the queue untouched |
| `Chamber.ResolveSettles` | x/assembly/keeper/abci.go:86-213 | One proposal's resolution, or the refusal after it, settles it: its round ends with the ballot closed and an empty tally, and it is ratified, demoted, or refused for exactly the reasons there are |
| `Chamber.PassExact` | x/assembly/keeper/abci.go:50-83 | The pass succeeds if and only if every due proposal can be resolved or else refused, by the state it starts from |
| `Chamber.ResolveKeeps` | x/assembly/keeper/abci.go:86-213 | One proposal's resolution touches no other proposal, entry, round, ballot, tally or subject |
| `Chamber.ApprovesExact` | x/assembly/types/keys.go:66-89 | Up to n votes the bar is the share it names if and only if 3n fits 64 bits on the regular track, and 4n on the expedited one |
| `Chamber.ApprovesWraps` | x/assembly/types/keys.go:84-89 | The least unanimous tally beyond either bound reaches the share and does not carry |
| `ChamberKeeper.Keeper.ResolveDueProposals` | x/assembly/keeper/abci.go:50-83 | The loop takes exactly the due entries in queue order and drops the writes of a failed branch; when it succeeds, whatever is still due was ratified at its own bar and is untouched, or cannot be decoded |
| `ChamberKeeper.Keeper.ResolveDueProposal` | x/assembly/keeper/abci.go:86-188 | A due proposal it resolves ends ratified, demoted or refused with its round's votes gone, and no other proposal is touched |
| `ProofCache.KeyInputInjective` | zk/ultrahonk/cache.go:38-56 | Different keys, proofs or inputs are hashed from different bytes |
| `ProofCache.BuildKeyInput` | zk/ultrahonk/cache.go:38-56 | The loop writes the specified bytes |
| `ProofCache.AddRing` | zk/ultrahonk/cache.go:80-94 | Adding a key keeps the set equal to the duplicate-free ring of the newest keys, oldest first |
| `ProofCache.Bounded` | zk/ultrahonk/cache.go:31-36 | The cache never holds more than its capacity |
| `ProofCache.VerifiedCache.Insert` | zk/ultrahonk/cache.go:80-94 | The new state is the specified one, and the key joins the insertion log unless held |
| `ProofCache.VerifiedCache.Verify` | zk/ultrahonk/cache.go:60-78 | A hit answers yes and changes nothing; a miss answers as the verifier, counts the call and remembers only what verified |
| `ProofCacheRun.AnyInterleaving` | zk/ultrahonk/cache.go:60-94 | After any interleaving of any calls the set is the ring within capacity, every answer is the verifier's or some call's remembered query collides with it, and the counter counts the verifications |
| `ProofCacheRun.HitSound` | zk/ultrahonk/cache.go:60-78 | A hit means the query verifies, or exhibits a remembered query with the same key and different bytes |

## Left out

- AllocationLimits.WeightedVoterExact: quantifies over the slates reached by issuing options after the call; WeightedVoterRuns over every later run.
- AllocationRun.RunIsSound: takes from callers that weights passed in are non-negative, that a weighted voter names issued options and that no draw is above its whole balance; the last two are shown above to be exactly what is needed, and the weight sources (a fixed human weight, a sum of bonded tokens) give no negative weight.
- AllocationRun.RunRespectsLeases: covers retirements that succeed; failed retirements and the retry queue are not modelled.
- AllocationRun.EveryoneIsPaid: takes both streams already settled to the block time, as the start of a block leaves them; EveryoneCanBePaid starts from any state and settles them first.
- AllocationLimits.SettleAllMints: allows nothing between the settles; RunEmission bounds the emission of every run.
- AllocationGenesis.ExportIsAccepted: takes an export that validates; ExportValidExact says exactly when it does, and RunExports that it does in every run of the repository's own calls.
- AllocationFiling.RunExports: takes from callers what the list above names, and starts from a genesis without streams.
- AllocationHalts.UnsoundFileHalts: not the exact halting condition; a file whose options carry more than their votes fails ImportExact's condition, but no halting run is shown for it.
- AllocationBlocks.SweepPrunableInv: only keeps the invariant; SweepRemovesIdle and SweepPrunes say what was removed.
- AllocationBallots.SlashedReplayed: says nothing of an operator named more than once; the source keeps them in a set.
- AllocationBallots.MoveFiles: takes a stored weight that is not negative, as the invariant gives it.
- AllocationKeeper.Keeper.SweepLapses: reports success because no retirement fails in this model.
- OrchardBinding.SpecialSoundness: is given an inverse of the challenges' difference, since the order's primality is not proved.
- OrchardSchedule.VerifyProofs: the verifier is a function of proof and inputs, so one that answers differently on a second call is outside the model.
- Chamber.ChamberBeforeGov: relies on governance queueing each proposal once, at its own end time, and on ballot ids being handed out once.
- ProofCacheRun.AnyInterleaving: takes lengths below 2^64, as the 8-byte prefixes do.
- Amounts, weights and times are unbounded integers; 256-bit overflow and the wrap of nanosecond times are not modelled.
- Voter keys are numbers in the order of their bytes; the two spellings of one address are one key.
- Option descriptions, events, gas, logging and store errors are not modelled; a discarded branch is all or nothing.
- Handlers, the residue sink and the bank move exactly what they report; staking weights are inputs.
- Deposits, the stake tally recorded on a refused proposal and its reason text are left out of the assembly model, as are removal ballots, orphaned ballots and the purge of closed votes.
- Field and curve arithmetic, Poseidon2, SHA-256 and SHA-512 are parameters; field elements are natural numbers, and hashing to a value base is a base per asset.
- Point encodings are a parameter with the one round trip a signature needs.
- The order of fields in a hash input and the tags before them are definitions; the theorems need only that the inputs differ.
- Address text is ASCII; Unicode case folding is outside the codec.
- The wasm, IBC, ante, dex, personhood and shielded staking modules are not modelled.
