/** Votes: every live option carries exactly the weight its current voters put on it. */
module AllocationVotes {
  import opened AllocationTypes
  import opened AllocationLedger
  import opened AllocationBooks
  import opened AllocationSettle
  import Sums

  // ---------------------------------------------------------------- the invariant

  ghost function SupportBy(voters: map<VoterKey, Voter>, epoch: nat, id: int, k: VoterKey): int {
    if k in voters && voters[k].epoch == epoch then ContributionTo(Contributions(voters[k]), id) else 0
  }

  ghost function SupportTerms(voters: map<VoterKey, Voter>, epoch: nat, id: int): VoterKey -> int {
    k => SupportBy(voters, epoch, id, k)
  }

  /** The weight the current epoch's stored voters put on one option. */
  ghost function Support(voters: map<VoterKey, Voter>, epoch: nat, id: int): int {
    Sums.Sum(voters.Keys, SupportTerms(voters, epoch, id))
  }

  /** Every option a list names was issued. */
  predicate Issued(cs: seq<Contribution>, seqNo: nat) {
    forall c | c in cs :: c.option <= seqNo
  }

  ghost predicate VoterOk(v: Voter, epoch: nat, seqNo: nat) {
    v.epoch <= epoch && v.weight >= 0 && NonNegative(Contributions(v)) && Issued(Contributions(v), seqNo)
  }

  ghost predicate Supported(st: Stream) {
    forall id | Live(st.options, id) :: st.options[id].amount == Support(st.voters, st.epoch, id)
  }

  /** Every lease still counted is in the lapse queue. */
  ghost predicate LeasesQueued(st: Stream) {
    forall k | k in st.voters && st.voters[k].epoch == st.epoch && st.voters[k].expiresAt != 0 ::
      (st.voters[k].expiresAt, k) in st.lapses
  }

  ghost predicate HandlerSet(st: Stream) {
    forall id :: id in st.integrated
      <==> id in st.options && st.options[id].kind == Integrated && !st.options[id].removed
  }

  ghost predicate Tallied(st: Stream) {
    && st.total == st.summed
    && Supported(st)
    && (forall k | k in st.voters :: VoterOk(st.voters[k], st.epoch, st.seqNo))
    && HandlerSet(st)
  }

  ghost predicate Votes(st: Stream) {
    Tallied(st) && LeasesQueued(st)
  }

  /** Everything a reachable state satisfies. */
  ghost predicate Inv(l: Ledger) {
    && Books(l)
    && Slack(l) >= 0
    && Votes(l.caretaker)
    && Votes(l.groundworks)
    && LeasesRespected(l.history)
  }

  // ---------------------------------------------------------------- applying contributions

  /** b is a with each live option's weight moved by its contributions. */
  ghost predicate Reweighted(a: map<int, AllocationOption>, b: map<int, AllocationOption>, cs: seq<Contribution>) {
    && a.Keys == b.Keys
    && forall id | id in a ::
         && b[id].removed == a[id].removed && b[id].kind == a[id].kind
         && b[id].amount == a[id].amount + (if a[id].removed then 0 else ContributionTo(cs, id))
  }

  ghost predicate Applied(l: Ledger, m: Ledger, s: StreamId, cs: seq<Contribution>) {
    && SameVotes(l.At(s), m.At(s))
    && m.At(Other(s)) == l.At(Other(s))
    && m.held == l.held && m.residue == l.residue
    && Reweighted(l.At(s).options, m.At(s).options, cs)
    && m.At(s).summed == l.At(s).summed + LiveSum(l.At(s).options, cs)
  }

  lemma WroteKeepsLeases(history: seq<Event>, e: Event)
    requires LeasesRespected(history) && e.Wrote?
    ensures LeasesRespected(history + [e])
  {
  }

  /** Writing a record worth no more than the one it replaces. */
  lemma WriteNoRicher(l: Ledger, s: StreamId, id: int, o: AllocationOption, now: nat)
    requires Books(l) && LeasesRespected(l.history)
    requires id in l.At(s).options && OptionOk(o, l.At(s).index)
    requires Worth(o, l.At(s).index) <= Worth(l.At(s).options[id], l.At(s).index)
    ensures var m := SetOption(l, s, id, o, now);
      && Books(m) && Slack(m) >= Slack(l) && LeasesRespected(m.history)
  {
    SetOptionFrame(l, s, id, o, now);
    WroteKeepsLeases(l.history, Wrote(Seconds(now), s, id, o));
    SetOptionBooks(l, s, id, o, now);
  }

  /** A settled option may take any new weight without becoming worth more. */
  lemma ReweighWorth(o: AllocationOption, index: int, amount: int)
    requires OptionOk(o, index) && amount >= 0 && (o.removed ==> amount == 0)
    ensures var n := SettleOption(o, index).(amount := amount);
      OptionOk(n, index) && Worth(n, index) <= Worth(o, index)
  {
    SettleOptionWorth(o, index);
    var n := SettleOption(o, index).(amount := amount);
    assert n.lastIndex == index;
    assert Claim(n, index) == 0;
  }

  /** One contribution: the books hold and the slack does not fall. */
  lemma AddContributionBooks(l: Ledger, s: StreamId, c: Contribution, now: nat)
    requires Books(l) && LeasesRespected(l.history)
    requires Live(l.At(s).options, c.option) ==> l.At(s).options[c.option].amount + c.amount >= 0
    ensures var m := AddContribution(l, s, c, now);
      && Books(m) && Slack(m) >= Slack(l) && LeasesRespected(m.history)
  {
    var st := l.At(s);
    if Live(st.options, c.option) {
      var o := st.options[c.option];
      var n := SettleOption(o, st.index).(amount := o.amount + c.amount);
      assert AddContribution(l, s, c, now) == SetOption(l, s, c.option, n, now);
      hide SetOption, Slack, Worth, SettleOption, AddContribution, Schedule, Idle, LeasesRespected;
      ReweighWorth(o, st.index, o.amount + c.amount);
      WriteNoRicher(l, s, c.option, n, now);
    }
  }

  lemma SingleContribution(options: map<int, AllocationOption>, c: Contribution)
    ensures forall id :: ContributionTo([c], id) == if c.option == id then c.amount else 0
    ensures LiveSum(options, [c]) == if Live(options, c.option) then c.amount else 0
  {
    assert [c][..0] == [];
  }

  lemma AddedOne(a: map<int, AllocationOption>, b: map<int, AllocationOption>, c: Contribution)
    requires Live(a, c.option) && c.option in b && b == a[c.option := b[c.option]]
    requires !b[c.option].removed && b[c.option].kind == a[c.option].kind
      && b[c.option].amount == a[c.option].amount + c.amount
    ensures Reweighted(a, b, [c]) && LiveSum(a, [c]) == c.amount
  {
    SingleContribution(a, c);
  }

  lemma AddedNone(a: map<int, AllocationOption>, c: Contribution)
    requires !Live(a, c.option)
    ensures Reweighted(a, a, [c]) && LiveSum(a, [c]) == 0
  {
    SingleContribution(a, c);
  }

  lemma AddContributionFrame(l: Ledger, s: StreamId, c: Contribution, now: nat)
    ensures Applied(l, AddContribution(l, s, c, now), s, [c])
  {
    var st := l.At(s);
    var m := AddContribution(l, s, c, now);
    if Live(st.options, c.option) {
      var o := SettleOption(st.options[c.option], st.index);
      SetOptionFrame(l, s, c.option, o.(amount := o.amount + c.amount), now);
      AddedOne(st.options, m.At(s).options, c);
    } else {
      AddedNone(st.options, c);
    }
  }

  lemma LiveSumAgrees(a: map<int, AllocationOption>, b: map<int, AllocationOption>, cs: seq<Contribution>)
    requires forall id :: Live(a, id) == Live(b, id)
    ensures LiveSum(a, cs) == LiveSum(b, cs)
  {
  }

  lemma AppliedTwice(l: Ledger, m: Ledger, n: Ledger, s: StreamId, cs: seq<Contribution>, c: Contribution)
    requires Applied(l, m, s, cs) && Applied(m, n, s, [c])
    ensures Applied(l, n, s, cs + [c])
  {
    assert (cs + [c])[..|cs|] == cs && [c][..0] == [];
    assert forall id :: ContributionTo([c], id) == if c.option == id then c.amount else 0;
    assert forall id :: ContributionTo(cs + [c], id) == ContributionTo(cs, id) + ContributionTo([c], id);
    assert Live(l.At(s).options, c.option) == Live(m.At(s).options, c.option);
    assert LiveSum(m.At(s).options, [c]) == if Live(m.At(s).options, c.option) then c.amount else 0;
    assert LiveSum(l.At(s).options, cs + [c]) == LiveSum(l.At(s).options, cs) + LiveSum(m.At(s).options, [c]);
  }

  lemma {:induction false} AddContributionsFrame(l: Ledger, s: StreamId, cs: seq<Contribution>, now: nat)
    ensures Applied(l, AddContributions(l, s, cs, now), s, cs)
  {
    if cs != [] {
      var front, c := cs[..|cs| - 1], cs[|cs| - 1];
      var m := AddContributions(l, s, front, now);
      AddContributionsFrame(l, s, front, now);
      AddContributionFrame(m, s, c, now);
      AppliedTwice(l, m, AddContribution(m, s, c, now), s, front, c);
      assert front + [c] == cs;
    }
  }

  /** No prefix of the contributions drives a live option below zero. */
  ghost predicate Safe(options: map<int, AllocationOption>, cs: seq<Contribution>) {
    forall n, id | 0 <= n <= |cs| && Live(options, id) :: options[id].amount + ContributionTo(cs[..n], id) >= 0
  }

  lemma {:induction false} AddContributionsBooks(l: Ledger, s: StreamId, cs: seq<Contribution>, now: nat)
    requires Books(l) && LeasesRespected(l.history) && Safe(l.At(s).options, cs)
    ensures var m := AddContributions(l, s, cs, now);
      && Books(m) && Slack(m) >= Slack(l) && LeasesRespected(m.history)
  {
    if cs != [] {
      var front, c := cs[..|cs| - 1], cs[|cs| - 1];
      var m := AddContributions(l, s, front, now);
      forall n | 0 <= n <= |front| ensures cs[..n] == front[..n] {
      }
      AddContributionsBooks(l, s, front, now);
      AddContributionsFrame(l, s, front, now);
      assert cs[..|cs|] == cs;
      if Live(l.At(s).options, c.option) {
        assert l.At(s).options[c.option].amount + ContributionTo(cs[..|cs|], c.option) >= 0;
      }
      AddContributionBooks(m, s, c, now);
    }
  }

  lemma {:induction false} PrefixBound(cs: seq<Contribution>, n: nat, id: int)
    requires n <= |cs|
    ensures NonNegative(cs) ==> 0 <= ContributionTo(cs[..n], id)
    ensures NonNegative(Negated(cs)) ==> ContributionTo(cs[..n], id) >= ContributionTo(cs, id)
    decreases |cs| - n
  {
    if NonNegative(cs) {
      ContributionToNonNegative(cs[..n], id);
    }
    if n == |cs| {
      assert cs[..n] == cs;
    } else {
      PrefixBound(cs, n + 1, id);
      assert cs[..n + 1][..n] == cs[..n];
      if NonNegative(Negated(cs)) {
        assert Negated(cs)[n] in Negated(cs);
      }
    }
  }

  /** Adding is safe; so is taking off no more than is there. */
  lemma SafeIf(options: map<int, AllocationOption>, cs: seq<Contribution>)
    requires forall id | id in options :: options[id].amount >= 0
    requires NonNegative(cs) || NonNegative(Negated(cs))
    requires forall id | Live(options, id) :: options[id].amount + ContributionTo(cs, id) >= 0
    ensures Safe(options, cs)
  {
    forall n, id | 0 <= n <= |cs| && Live(options, id)
      ensures options[id].amount + ContributionTo(cs[..n], id) >= 0
    {
      PrefixBound(cs, n, id);
    }
  }

  // ---------------------------------------------------------------- one voter's support

  lemma SupportBound(voters: map<VoterKey, Voter>, epoch: nat, seqNo: nat, id: int, k: VoterKey)
    requires forall j | j in voters :: VoterOk(voters[j], epoch, seqNo)
    ensures Support(voters, epoch, id) >= 0
    ensures k in voters && voters[k].epoch == epoch ==>
      ContributionTo(Contributions(voters[k]), id) <= Support(voters, epoch, id)
  {
    forall j | j in voters.Keys ensures SupportTerms(voters, epoch, id)(j) >= 0 {
      ContributionToNonNegative(Contributions(voters[j]), id);
    }
    Sums.NonNegative(voters.Keys, SupportTerms(voters, epoch, id));
    if k in voters {
      Sums.TermBound(voters.Keys, k, SupportTerms(voters, epoch, id));
    }
  }

  lemma SupportFiled(voters: map<VoterKey, Voter>, epoch: nat, id: int, k: VoterKey, v: Voter)
    requires v.epoch == epoch
    ensures Support(voters[k := v], epoch, id) ==
            Support(voters, epoch, id) - SupportBy(voters, epoch, id, k) + ContributionTo(Contributions(v), id)
  {
    assert voters[k := v].Keys == voters.Keys + {k};
    Sums.Write(voters.Keys, k, SupportTerms(voters, epoch, id), SupportTerms(voters[k := v], epoch, id));
  }

  lemma SupportDropped(voters: map<VoterKey, Voter>, epoch: nat, id: int, k: VoterKey)
    ensures Support(voters - {k}, epoch, id) == Support(voters, epoch, id) - SupportBy(voters, epoch, id, k)
  {
    assert (voters - {k}).Keys == voters.Keys - {k};
    Sums.Drop(voters.Keys, k, SupportTerms(voters, epoch, id), SupportTerms(voters - {k}, epoch, id));
  }

  lemma WeightNonNegative(st: Stream)
    requires StreamBooks(st)
    ensures st.summed >= 0
  {
    forall k | k in st.options.Keys ensures Amounts(st.options)(k) >= 0 {
      assert OptionOk(st.options[k], st.index);
    }
    Sums.NonNegative(st.options.Keys, Amounts(st.options));
  }

  // ---------------------------------------------------------------- replacing one voter

  /** The record a write files and the contributions it applies say the same. */
  ghost predicate Filing(rec: Voter, add: seq<Contribution>, keep: bool, seqNo: nat) {
    && NonNegative(add) && Issued(add, seqNo)
    && (forall id :: ContributionTo(if keep then Contributions(rec) else [], id) == ContributionTo(add, id))
    && (keep ==> rec.weight >= 0 && NonNegative(Contributions(rec)) && Issued(Contributions(rec), seqNo))
  }

  /** The options after a voter's old contribution came off and its new one went on. */
  ghost predicate Replaced(st: Stream, b: map<int, AllocationOption>, key: VoterKey, add: seq<Contribution>) {
    && b.Keys == st.options.Keys
    && forall id | id in b ::
         && b[id].removed == st.options[id].removed && b[id].kind == st.options[id].kind
         && (!b[id].removed ==>
              b[id].amount == st.options[id].amount - SupportBy(st.voters, st.epoch, id, key) + ContributionTo(add, id))
  }

  lemma PreviousSupport(st: Stream, key: VoterKey, id: int)
    ensures ContributionTo(Previous(st, key), id) == SupportBy(st.voters, st.epoch, id, key)
    ensures ContributionTo(Negated(Previous(st, key)), id) == -SupportBy(st.voters, st.epoch, id, key)
  {
    ContributionToNegated(Previous(st, key), id);
  }

  /** Taking a stored contribution off never drives a live option negative. */
  lemma TakeOffSafe(st: Stream, key: VoterKey)
    requires StreamBooks(st) && Tallied(st)
    ensures Safe(st.options, Negated(Previous(st, key)))
  {
    var prev := Previous(st, key);
    forall c | c in Negated(Negated(prev)) ensures c.amount >= 0 {
      var i :| 0 <= i < |prev| && c == Negated(Negated(prev))[i];
      assert prev[i] in prev;
    }
    forall id | Live(st.options, id) ensures st.options[id].amount + ContributionTo(Negated(prev), id) >= 0 {
      PreviousSupport(st, key, id);
      SupportBound(st.voters, st.epoch, st.seqNo, id, key);
    }
    forall id | id in st.options ensures st.options[id].amount >= 0 {
      assert OptionOk(st.options[id], st.index);
    }
    SafeIf(st.options, Negated(prev));
  }

  /** A stream whose voter was replaced along with its contributions is still supported. */
  lemma ReplacedSupport(st: Stream, m: Stream, key: VoterKey, rec: Voter, add: seq<Contribution>, keep: bool)
    requires Tallied(st) && Filing(rec, add, keep, st.seqNo) && rec.epoch == st.epoch
    requires Replaced(st, m.options, key, add) && m.epoch == st.epoch
    requires m.voters == if keep then st.voters[key := rec] else st.voters - {key}
    ensures Supported(m)
  {
    forall id | Live(m.options, id) ensures m.options[id].amount == Support(m.voters, m.epoch, id) {
      assert Live(st.options, id);
      if keep {
        SupportFiled(st.voters, st.epoch, id, key, rec);
      } else {
        SupportDropped(st.voters, st.epoch, id, key);
        assert ContributionTo([], id) == ContributionTo(add, id);
      }
    }
  }

  /** Both halves of a write: the stored contribution off, the new one on. */
  lemma ReplaceContributions(l: Ledger, s: StreamId, key: VoterKey, add: seq<Contribution>, now: nat)
    requires Books(l) && Tallied(l.At(s)) && LeasesRespected(l.history) && NonNegative(add)
    ensures var st := l.At(s);
      var off := Negated(Previous(st, key));
      var m := AddContributions(AddContributions(l, s, off, now), s, add, now);
      && Books(m) && Slack(m) >= Slack(l) && LeasesRespected(m.history)
      && SameVotes(st, m.At(s)) && m.At(Other(s)) == l.At(Other(s))
      && Replaced(st, m.At(s).options, key, add)
      && m.At(s).summed == st.summed + LiveSum(st.options, off) + LiveSum(st.options, add)
  {
    var st := l.At(s);
    var off := Negated(Previous(st, key));
    var a := AddContributions(l, s, off, now);
    assert StreamBooks(st);
    TakeOffSafe(st, key);
    AddContributionsBooks(l, s, off, now);
    AddContributionsFrame(l, s, off, now);
    assert StreamBooks(a.At(s));
    forall id | id in a.At(s).options ensures a.At(s).options[id].amount >= 0 {
      assert OptionOk(a.At(s).options[id], a.At(s).index);
    }
    forall id | Live(a.At(s).options, id) ensures a.At(s).options[id].amount + ContributionTo(add, id) >= 0 {
      ContributionToNonNegative(add, id);
    }
    SafeIf(a.At(s).options, add);
    AddContributionsBooks(a, s, add, now);
    AddContributionsFrame(a, s, add, now);
    LiveSumAgrees(a.At(s).options, st.options, add);
    forall id | id in st.options ensures ContributionTo(off, id) == -SupportBy(st.voters, st.epoch, id, key) {
      PreviousSupport(st, key, id);
    }
  }

  /** Books and slack read neither the voters nor the lease queue. */
  lemma VotesOutsideBooks(l: Ledger, m: Ledger, s: StreamId)
    requires m == l.With(s, l.At(s).(voters := m.At(s).voters, lapses := m.At(s).lapses, total := m.At(s).total,
                                     epoch := m.At(s).epoch, integrated := m.At(s).integrated))
    requires Books(l)
    ensures Books(m) && Slack(m) == Slack(l)
  {
    hide Schedule, Idle, Weight, Accrued, Unsettled, OptionOk;
    SameSchedule(l, m, s);
    assert StreamBooks(l.At(s));
    assert StreamBooks(m.At(s)) && StreamBooks(m.At(Other(s)));
  }

  /** Every counted lease but one voter's own is queued. */
  ghost predicate LeasesQueuedBut(st: Stream, key: VoterKey) {
    forall k | k in st.voters && k != key && st.voters[k].epoch == st.epoch && st.voters[k].expiresAt != 0 ::
      (st.voters[k].expiresAt, k) in st.lapses
  }

  /** The invariant, with the lease of the voter about to be replaced set aside. */
  ghost predicate InvBut(l: Ledger, s: StreamId, key: VoterKey) {
    && Books(l)
    && Slack(l) >= 0
    && Tallied(l.At(s)) && LeasesQueuedBut(l.At(s), key)
    && Votes(l.At(Other(s)))
    && LeasesRespected(l.history)
  }

  lemma QueueFollows(st: Stream, m: Stream, key: VoterKey, rec: Voter, keep: bool)
    requires LeasesQueuedBut(st, key) && m.epoch == st.epoch
    requires m.voters == if keep then st.voters[key := rec] else st.voters - {key}
    requires m.lapses ==
      if keep && rec.expiresAt != 0 then Unqueued(st, key) + {(rec.expiresAt, key)} else Unqueued(st, key)
    ensures LeasesQueued(m)
  {
  }

  function Refiled(l: Ledger, s: StreamId, key: VoterKey, add: seq<Contribution>, now: nat): Ledger {
    var st := l.At(s);
    var off := Negated(Previous(st, key));
    AddContributions(AddContributions(l.With(s, st.(lapses := Unqueued(st, key))), s, off, now), s, add, now)
  }

  /** m is l2 with the voter's record and lease filed and the total stored. */
  ghost predicate VoterFiled(st: Stream, l2: Ledger, m: Ledger, s: StreamId, key: VoterKey, filed: Voter, keep: bool) {
    && m == l2.With(s, l2.At(s).(total := m.At(s).total, voters := m.At(s).voters, lapses := m.At(s).lapses))
    && m.At(s).voters == (if keep then st.voters[key := filed] else st.voters - {key})
    && m.At(s).lapses ==
      if keep && filed.expiresAt != 0 then Unqueued(st, key) + {(filed.expiresAt, key)} else Unqueued(st, key)
  }

  lemma WriteVoterShape(l: Ledger, s: StreamId, key: VoterKey, rec: Voter, add: seq<Contribution>, keep: bool, now: nat)
    requires SameVotes(l.At(s).(lapses := Unqueued(l.At(s), key)), Refiled(l, s, key, add, now).At(s))
    ensures VoterFiled(l.At(s), Refiled(l, s, key, add, now), WriteVoter(l, s, key, rec, add, keep, now), s, key,
                       rec.(expiresAt := LeaseOf(l.At(s), key, rec), epoch := l.At(s).epoch), keep)
    ensures WriteVoter(l, s, key, rec, add, keep, now).At(s).total ==
            Clamped(l.At(s).total + LiveSum(l.At(s).options, Negated(Previous(l.At(s), key)))
              + LiveSum(l.At(s).options, add))
  {
  }

  lemma HandlerSetSame(a: Stream, b: Stream)
    requires HandlerSet(a) && a.options == b.options && a.integrated == b.integrated
    ensures HandlerSet(b)
  {
  }

  lemma ReplacedSame(a: Stream, b: Stream, options: map<int, AllocationOption>, key: VoterKey, add: seq<Contribution>)
    requires a.options == b.options && a.voters == b.voters && a.epoch == b.epoch
    requires Replaced(b, options, key, add)
    ensures Replaced(a, options, key, add)
  {
  }

  lemma RefiledBooks(l: Ledger, s: StreamId, key: VoterKey, add: seq<Contribution>, now: nat)
    requires InvBut(l, s, key) && NonNegative(add)
    ensures var st := l.At(s);
      var m := Refiled(l, s, key, add, now);
      && Books(m) && Slack(m) >= 0 && LeasesRespected(m.history)
      && SameVotes(st.(lapses := Unqueued(st, key)), m.At(s)) && m.At(Other(s)) == l.At(Other(s))
      && Replaced(st, m.At(s).options, key, add)
      && m.At(s).summed == st.summed + LiveSum(st.options, Negated(Previous(st, key))) + LiveSum(st.options, add)
  {
    hide Books, Slack, AddContributions, LiveSum, Support, SupportBy, HandlerSet, Negated, LeasesRespected, NonNegative;
    var st := l.At(s);
    var l1 := l.With(s, st.(lapses := Unqueued(st, key)));
    VotesOutsideBooks(l, l1, s);
    assert Tallied(l1.At(s)) by {
      HandlerSetSame(st, l1.At(s));
    }
    ReplaceContributions(l1, s, key, add, now);
    assert Previous(l1.At(s), key) == Previous(st, key);
    ReplacedSame(st, l1.At(s), Refiled(l, s, key, add, now).At(s).options, key, add);
  }

  lemma FiledVotes(st: Stream, l2: Ledger, m: Ledger, s: StreamId, key: VoterKey, filed: Voter, add: seq<Contribution>,
                   keep: bool)
    requires Tallied(st) && LeasesQueuedBut(st, key) && Filing(filed, add, keep, st.seqNo) && filed.epoch == st.epoch
    requires SameVotes(st.(lapses := Unqueued(st, key)), l2.At(s)) && Replaced(st, l2.At(s).options, key, add)
    requires VoterFiled(st, l2, m, s, key, filed, keep)
    requires m.At(s).total == l2.At(s).summed
    ensures Votes(m.At(s))
  {
    ReplacedSupport(st, m.At(s), key, filed, add, keep);
    QueueFollows(st, m.At(s), key, filed, keep);
  }

  /** Replacing a voter keeps every invariant, and the clamp on the total never acts. */
  lemma WriteVoterInv(l: Ledger, s: StreamId, key: VoterKey, rec: Voter, add: seq<Contribution>, keep: bool, now: nat)
    requires InvBut(l, s, key) && Filing(rec, add, keep, l.At(s).seqNo)
    ensures Inv(WriteVoter(l, s, key, rec, add, keep, now))
    ensures var st := l.At(s);
      WriteVoter(l, s, key, rec, add, keep, now).At(s).total ==
      st.total + LiveSum(st.options, Negated(Previous(st, key))) + LiveSum(st.options, add)
  {
    var st := l.At(s);
    var l2 := Refiled(l, s, key, add, now);
    var m := WriteVoter(l, s, key, rec, add, keep, now);
    var filed := rec.(expiresAt := LeaseOf(st, key, rec), epoch := st.epoch);
    RefiledBooks(l, s, key, add, now);
    WriteVoterShape(l, s, key, rec, add, keep, now);
    WeightNonNegative(l2.At(s));
    VotesOutsideBooks(l2, m, s);
    assert Contributions(filed) == Contributions(rec);
    FiledVotes(st, l2, m, s, key, filed, add, keep);
    assert Votes(m.At(Other(s)));
  }

  /** A stream's votes read nothing of an option but its kind, weight and mark. */
  lemma VotesKept(a: Stream, b: Stream)
    requires Votes(a) && b.total == a.total && b.summed == a.summed && b.voters == a.voters && b.epoch == a.epoch
    requires b.seqNo == a.seqNo && b.lapses == a.lapses && b.integrated == a.integrated
      && b.options.Keys == a.options.Keys
    requires forall id | id in a.options ::
      && b.options[id].amount == a.options[id].amount && b.options[id].kind == a.options[id].kind
      && b.options[id].removed == a.options[id].removed
    ensures Votes(b)
  {
    forall id | Live(b.options, id) ensures b.options[id].amount == Support(b.voters, b.epoch, id) {
      assert Live(a.options, id);
    }
  }
}
