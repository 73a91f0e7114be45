/** When an accepted genesis satisfies the invariant every run theorem starts from: exactly
    when the file itself backs its claims, counts its votes and holds no vote of a later
    epoch. For never halting that is sufficient. */
module AllocationImport {
  import opened AllocationTypes
  import opened AllocationLedger
  import opened AllocationBooks
  import opened AllocationSettle
  import opened AllocationVotes
  import opened AllocationOps
  import opened AllocationBlocks
  import opened AllocationRun
  import opened AllocationGenesis
  import Orders
  import Sums

  // ---------------------------------------------------------------- the condition

  /** Balances and unsettled claims of the listed options, scaled. */
  function EntryWorth(es: seq<OptionEntry>, index: int): int {
    if es == [] then 0 else
    var o := es[|es| - 1].option;
    EntryWorth(es[..|es| - 1], index) + PRECISION * o.accrued + o.amount * (index - o.lastIndex)
  }

  function FileWorth(gs: seq<StreamState>): int {
    if gs == [] then 0 else
    FileWorth(gs[..|gs| - 1]) + EntryWorth(gs[|gs| - 1].options, gs[|gs| - 1].rewardIndex)
  }

  /** What the listed voters of an epoch put on one option. */
  function FileSupport(vs: seq<VoterEntry>, epoch: nat, id: int): int {
    if vs == [] then 0 else
    var v := vs[|vs| - 1].voter;
    FileSupport(vs[..|vs| - 1], epoch, id) + if v.epoch == epoch then ContributionTo(Contributions(v), id) else 0
  }

  /** Each option not struck carries what the stream's current voters put on it, and no
      voter is of an epoch still to come. */
  predicate StreamCounted(g: StreamState) {
    && (forall i | 0 <= i < |g.options| && !g.options[i].option.removed ::
          g.options[i].option.amount == FileSupport(g.voters, g.epoch, g.options[i].id))
    && (forall i | 0 <= i < |g.voters| :: g.voters[i].voter.epoch <= g.epoch)
  }

  /** The account covers the residue, every balance and every unsettled claim in the file,
      and every stream's votes are counted. */
  predicate SoundFile(gs: GenesisState, held: int) {
    && PRECISION * (held - gs.residue) >= FileWorth(gs.streams)
    && forall i | 0 <= i < |gs.streams| :: StreamCounted(gs.streams[i])
  }

  // ---------------------------------------------------------------- options

  function EntryAccrued(es: seq<OptionEntry>): int {
    if es == [] then 0 else EntryAccrued(es[..|es| - 1]) + es[|es| - 1].option.accrued
  }

  function FileAccrued(gs: seq<StreamState>): int {
    if gs == [] then 0 else FileAccrued(gs[..|gs| - 1]) + EntryAccrued(gs[|gs| - 1].options)
  }

  lemma RestoreOptionSums(l: Ledger, s: StreamId, e: OptionEntry, now: nat)
    requires Books(l) && 1 <= e.id <= l.At(s).seqNo && OptionOk(e.option, l.At(s).index) && e.id !in l.At(s).options
    ensures var m := RestoreOption(l, s, e, now);
      && Slack(m) == Slack(l) - Worth(e.option, l.At(s).index)
      && m.At(s).summed == l.At(s).summed + e.option.amount
      && m.summedAccrued == l.summedAccrued + e.option.accrued
  {
    hide Books, Slack, SetOption, OptionOk, Worth;
    SetOptionBooks(l, s, e.id, e.option, now);
    SetOptionFrame(l, s, e.id, e.option, now);
    assert Books(SetOption(l, s, e.id, e.option, now));
    VotesOutsideBooks(SetOption(l, s, e.id, e.option, now), RestoreOption(l, s, e, now), s);
  }

  lemma {:induction false} RestoreOptionsSums(l: Ledger, s: StreamId, es: seq<OptionEntry>, now: nat)
    requires Books(l) && HandlerSet(l.At(s)) && LeasesRespected(l.history)
    requires l.At(s).options == map[] && EntriesOk(l.At(s), es)
    ensures var m := RestoreOptions(l, s, es, now);
      && Slack(m) == Slack(l) - EntryWorth(es, l.At(s).index)
      && m.At(s).summed == l.At(s).summed + EntrySum(es)
      && m.summedAccrued == l.summedAccrued + EntryAccrued(es)
  {
    hide Books, HandlerSet, LeasesRespected, RestoreOption, OptionOk, Holds, Slack;
    if es != [] {
      var front, e := es[..|es| - 1], es[|es| - 1];
      RestoreOptionsSums(l, s, front, now);
      RestoreOptionsBooks(l, s, front, now);
      NotHeld(RestoreOptions(l, s, front, now).At(s).options, front, e);
      RestoreOptionSums(RestoreOptions(l, s, front, now), s, e, now);
    }
  }

  lemma NotHeld(options: map<int, AllocationOption>, es: seq<OptionEntry>, e: OptionEntry)
    requires Holds(options, es) && forall i | 0 <= i < |es| :: es[i].id != e.id
    ensures e.id !in options
  {
  }

  // ---------------------------------------------------------------- votes

  lemma {:induction false} SupportOfFile(vs: seq<VoterEntry>, epoch: nat, id: int)
    requires forall i, j | 0 <= i < j < |vs| :: vs[i].key != vs[j].key
    ensures Support(VoterMap(vs), epoch, id) == FileSupport(vs, epoch, id)
  {
    if vs != [] {
      var front, e := vs[..|vs| - 1], vs[|vs| - 1];
      SupportOfFile(front, epoch, id);
      VoterMapHas(front);
      SupportAdded(VoterMap(front), epoch, id, e.key, e.voter);
    }
  }

  lemma SupportAdded(voters: map<VoterKey, Voter>, epoch: nat, id: int, k: VoterKey, v: Voter)
    requires k !in voters
    ensures Support(voters[k := v], epoch, id) ==
            Support(voters, epoch, id) + if v.epoch == epoch then ContributionTo(Contributions(v), id) else 0
  {
    hide ContributionTo, Contributions;
    assert voters[k := v].Keys == voters.Keys + {k};
    Sums.Write(voters.Keys, k, SupportTerms(voters, epoch, id), SupportTerms(voters[k := v], epoch, id));
  }

  /** Every lease is in the lapse queue, counted or not. */
  ghost predicate AllQueued(st: Stream) {
    forall k | k in st.voters && st.voters[k].expiresAt != 0 :: (st.voters[k].expiresAt, k) in st.lapses
  }

  /** What an import makes of one stream, votes aside. */
  ghost predicate Restored(st: Stream, g: StreamState, now: nat) {
    && HandlerSet(st) && AllQueued(st) && st.total == st.summed == g.totalWeight
    && st.lastUpkeep == RestoredUpkeep(g.lastUpkeep, now)
    && Holds(st.options, g.options) && st.voters == VoterMap(g.voters)
    && st.epoch == g.epoch && st.seqNo == g.optionSeq && st.index == g.rewardIndex
  }

  lemma VoterNamesIssued(g: StreamState, v: Voter)
    requires StreamValid(g) && VoterValid(g, v) && v.epoch <= g.epoch
    ensures VoterOk(v, g.epoch, g.optionSeq)
  {
    hide EntrySum, ShareSum, Total;
    if v.optionWeights == [] {
      SplitNonNegative(v.percentages, v.weight);
    }
    forall c | c in Contributions(v) ensures c.option <= g.optionSeq {
      var i :| 0 <= i < |Contributions(v)| && Contributions(v)[i] == c;
      assert Listed(g, c.option);
    }
  }

  /** A restored stream's votes are in order exactly when the file counts them. */
  lemma VotesOfFile(st: Stream, g: StreamState, now: nat)
    requires Restored(st, g, now) && StreamValid(g)
    ensures Votes(st) <==> StreamCounted(g)
  {
    hide Support, FileSupport, VoterMap, HandlerSet, VoterOk, VoterValid, EntrySum;
    VoterMapHas(g.voters);
    forall id ensures Support(st.voters, st.epoch, id) == FileSupport(g.voters, g.epoch, id) {
      SupportOfFile(g.voters, g.epoch, id);
    }
    forall id | Live(st.options, id)
      ensures exists i | 0 <= i < |g.options| :: g.options[i].id == id && g.options[i].option == st.options[id]
    {
      var i :| 0 <= i < |g.options| && g.options[i].id == id;
      assert st.options[g.options[i].id] == g.options[i].option;
    }
    assert Supported(st) <==> forall i | 0 <= i < |g.options| && !g.options[i].option.removed ::
      g.options[i].option.amount == FileSupport(g.voters, g.epoch, g.options[i].id) by {
      if Supported(st) {
        forall i | 0 <= i < |g.options| && !g.options[i].option.removed
          ensures g.options[i].option.amount == FileSupport(g.voters, g.epoch, g.options[i].id)
        {
          assert Live(st.options, g.options[i].id);
        }
      }
    }
    EpochsOfFile(st, g);
  }

  lemma EpochsOfFile(st: Stream, g: StreamState)
    requires st.voters == VoterMap(g.voters) && st.epoch == g.epoch && st.seqNo == g.optionSeq && StreamValid(g)
    ensures (forall k | k in st.voters :: VoterOk(st.voters[k], st.epoch, st.seqNo))
            <==> (forall i | 0 <= i < |g.voters| :: g.voters[i].voter.epoch <= g.epoch)
  {
    hide VoterMap, VoterValid, EntrySum;
    VoterMapHas(g.voters);
    if forall i | 0 <= i < |g.voters| :: g.voters[i].voter.epoch <= g.epoch {
      forall k | k in st.voters ensures VoterOk(st.voters[k], st.epoch, st.seqNo) {
        var i :| 0 <= i < |g.voters| && g.voters[i].key == k;
        assert VoterValid(g, g.voters[i].voter);
        VoterNamesIssued(g, g.voters[i].voter);
      }
    }
    if forall k | k in st.voters :: VoterOk(st.voters[k], st.epoch, st.seqNo) {
      forall i | 0 <= i < |g.voters| ensures g.voters[i].voter.epoch <= g.epoch {
        assert VoterOk(st.voters[g.voters[i].key], st.epoch, st.seqNo);
      }
    }
  }

  // ---------------------------------------------------------------- streams

  lemma ValidEntries(g: StreamState, st: Stream)
    requires StreamValid(g) && st.seqNo == g.optionSeq && st.index == g.rewardIndex
    ensures EntriesOk(st, g.options)
  {
    hide EntrySum, VoterValid;
    forall i | 0 <= i < |g.options|
      ensures 1 <= g.options[i].id <= st.seqNo && OptionOk(g.options[i].option, st.index) {
      assert OptionValid(g, g.options[i]);
    }
  }

  lemma QueuedLeases(st: Stream, vs: seq<VoterEntry>)
    requires st.voters == VoterMap(vs) && st.lapses >= LeaseSet(vs)
    requires forall i, j | 0 <= i < j < |vs| :: vs[i].key != vs[j].key
    ensures AllQueued(st)
  {
    hide VoterMap;
    VoterMapHas(vs);
    forall k | k in st.voters && st.voters[k].expiresAt != 0 ensures (st.voters[k].expiresAt, k) in st.lapses {
      var i :| 0 <= i < |vs| && vs[i].key == k;
      assert (vs[i].voter.expiresAt, vs[i].key) in LeaseSet(vs);
    }
  }

  lemma BlankSlack(l: Ledger, s: StreamId, st: Stream)
    requires l.At(s) == EMPTY_STREAM && st.options == map[]
    ensures Slack(l.With(s, st)) == Slack(l)
  {
    assert Accrued(map[]) == 0 && Unsettled(map[], st.index) == 0 && Unsettled(map[], 0) == 0;
  }

  /** A valid stream is restored whole, and takes its worth out of the slack. */
  lemma RestoredStream(l: Ledger, g: StreamState, now: nat)
    requires Books(l) && LeasesRespected(l.history) && l.At(g.stream) == EMPTY_STREAM && StreamValid(g)
    ensures var m := RestoreStream(l, g, now);
      && Books(m) && LeasesRespected(m.history) && Restored(m.At(g.stream), g, now)
      && Slack(m) == Slack(l) - EntryWorth(g.options, g.rewardIndex)
      && m.summedAccrued == l.summedAccrued + EntryAccrued(g.options)
      && m.At(Other(g.stream)) == l.At(Other(g.stream)) && m.held == l.held && m.residue == l.residue
  {
    hide Books, Slack, LeasesRespected, VoterMap, LeaseSet, RestoreOptions, HandlerSet, EntriesOk, Holds, AllQueued,
      OptionValid, VoterValid, EntryWorth, EntrySum, EntryAccrued, RestoredUpkeep;
    var s := g.stream;
    var st := EMPTY_STREAM.(index := g.rewardIndex, total := g.totalWeight, epoch := g.epoch, seqNo := g.optionSeq,
      lastUpkeep := RestoredUpkeep(g.lastUpkeep, now));
    BlankStream(l, s, st);
    BlankSlack(l, s, st);
    ValidEntries(g, st);
    RestoreOptionsBooks(l.With(s, st), s, g.options, now);
    RestoreOptionsSums(l.With(s, st), s, g.options, now);
    var l1 := RestoreOptions(l.With(s, st), s, g.options, now);
    var m := RestoreStream(l, g, now);
    VotesOutsideBooks(l1, m, s);
    HandlerSetSame(l1.At(s), m.At(s));
    QueuedLeases(m.At(s), g.voters);
  }

  ghost predicate Lists(gs: seq<StreamState>, s: StreamId) {
    exists i | 0 <= i < |gs| :: gs[i].stream == s
  }

  lemma {:induction false} RestoredStreams(l: Ledger, gs: seq<StreamState>, now: nat)
    requires Books(l) && LeasesRespected(l.history) && l.caretaker == EMPTY_STREAM && l.groundworks == EMPTY_STREAM
    requires forall i, j | 0 <= i < j < |gs| :: gs[i].stream != gs[j].stream
    requires forall i | 0 <= i < |gs| :: StreamValid(gs[i])
    ensures var m := RestoreStreams(l, gs, now);
      && Books(m) && LeasesRespected(m.history) && m.held == l.held && m.residue == l.residue
      && Slack(m) == Slack(l) - FileWorth(gs) && m.summedAccrued == l.summedAccrued + FileAccrued(gs)
      && (forall i | 0 <= i < |gs| :: Restored(m.At(gs[i].stream), gs[i], now))
      && (forall s | !Lists(gs, s) :: m.At(s) == EMPTY_STREAM)
  {
    hide Books, Slack, LeasesRespected, Restored, RestoreStream, EntryWorth, EntryAccrued, StreamValid;
    if gs != [] {
      var front, g := gs[..|gs| - 1], gs[|gs| - 1];
      RestoredStreams(l, front, now);
      var r := RestoreStreams(l, front, now);
      assert !Lists(front, g.stream);
      RestoredStream(r, g, now);
      var m := RestoreStream(r, g, now);
      forall i | 0 <= i < |gs| ensures Restored(m.At(gs[i].stream), gs[i], now) {
        if i < |front| {
          assert front[i] == gs[i] && gs[i].stream == Other(g.stream);
        }
      }
      forall s | !Lists(gs, s) ensures m.At(s) == EMPTY_STREAM {
        assert gs[|gs| - 1].stream != s;
        forall i | 0 <= i < |front| ensures front[i].stream != s {
          assert gs[i].stream != s;
        }
        assert !Lists(front, s) && s == Other(g.stream);
      }
    }
  }

  lemma EmptySlack(residue: int, held: int)
    ensures Slack(EmptyLedger(residue, held)) == PRECISION * (held - residue)
  {
    assert Accrued(map[]) == 0 && Unsettled(map[], 0) == 0;
  }

  lemma NoVotes()
    ensures Votes(EMPTY_STREAM)
  {
    assert Weight(map[]) == 0;
  }

  lemma RestoredInv(m: Ledger, gs: seq<StreamState>, now: nat)
    requires Books(m) && LeasesRespected(m.history)
    requires forall i | 0 <= i < |gs| :: StreamValid(gs[i]) && Restored(m.At(gs[i].stream), gs[i], now)
    requires forall s | !Lists(gs, s) :: m.At(s) == EMPTY_STREAM
    ensures Inv(m) <==> Slack(m) >= 0 && forall i | 0 <= i < |gs| :: StreamCounted(gs[i])
  {
    hide Books, Slack, LeasesRespected, Restored, Votes, StreamCounted, StreamValid;
    NoVotes();
    forall i | 0 <= i < |gs| ensures Votes(m.At(gs[i].stream)) <==> StreamCounted(gs[i]) {
      VotesOfFile(m.At(gs[i].stream), gs[i], now);
    }
    forall s ensures Votes(m.At(s)) || exists i | 0 <= i < |gs| :: gs[i].stream == s && !StreamCounted(gs[i]) {
      if i :| 0 <= i < |gs| && gs[i].stream == s {
        assert Votes(m.At(gs[i].stream)) <==> StreamCounted(gs[i]);
      } else {
        assert !Lists(gs, s);
      }
    }
    assert m.At(Caretaker) == m.caretaker && m.At(Groundworks) == m.groundworks;
  }

  /** An accepted genesis establishes the invariant if and only if the file is sound: the
      account covers residue, balances and unsettled claims, each option not struck carries
      its current voters' contributions, and no voter is of an epoch to come. */
  lemma ImportExact(gs: GenesisState, held: int, now: nat)
    requires InitGenesis(gs, held, now).Done?
    ensures Inv(InitGenesis(gs, held, now).ledger) <==> SoundFile(gs, held)
  {
    hide Inv, Slack, Books, StreamValid, StreamCounted, RestoreStreams, Fresh, Restored, FileWorth;
    if gs.streams == [] {
      FreshFunded(gs.seed, gs.residue, held, now);
      FreshInv(gs.seed, gs.residue, held, now);
      NoWorth();
    } else {
      var l := EmptyLedger(gs.residue, held);
      SolventStart(gs.residue, held);
      EmptySlack(gs.residue, held);
      RestoredStreams(l, gs.streams, now);
      RestoredInv(RestoreStreams(l, gs.streams, now), gs.streams, now);
    }
  }

  lemma NoWorth()
    ensures FileWorth([]) == 0
  {
  }

  /** So no run from an accepted sound file reaches a halt. */
  lemma FromSoundFile(gs: GenesisState, held: int, start: nat, calls: seq<(Op, nat)>, n: nat)
    requires InitGenesis(gs, held, start).Done? && SoundFile(gs, held)
    requires AdmissibleRun(InitGenesis(gs, held, start).ledger, calls) && n <= |calls|
    ensures !Halts(After(InitGenesis(gs, held, start).ledger, calls, n))
  {
    hide InitGenesis, After, AdmissibleRun, Inv, SoundFile;
    ImportExact(gs, held, start);
    RunIsSound(InitGenesis(gs, held, start).ledger, calls, n);
  }

  // ---------------------------------------------------------------- accepted files that halt

  /** A file of one Caretaker option. */
  function OneOption(index: int, o: AllocationOption, vs: seq<VoterEntry>): StreamState {
    StreamState(Caretaker, index, o.amount, 0, 0, 1, [OptionEntry(1, o)], vs)
  }

  /** What such a file imports as, on an empty account. */
  lemma OneOptionImport(index: int, o: AllocationOption, vs: seq<VoterEntry>, now: nat)
    requires StreamValid(OneOption(index, o, vs)) && o.accrued == 0 && o.kind == Address
    ensures var r := InitGenesis(GenesisState(0, 0, [OneOption(index, o, vs)]), 0, now);
      && r.Done? && !Halts(r.ledger) && r.ledger.held == 0 && r.ledger.residue == 0 && r.ledger.summedAccrued == 0
      && r.ledger.caretaker.options == map[1 := o] && r.ledger.caretaker.voters == VoterMap(vs)
      && r.ledger.caretaker.index == index && r.ledger.caretaker.epoch == 0 && r.ledger.caretaker.lastUpkeep == 0
      && r.ledger.caretaker.total == r.ledger.caretaker.summed == o.amount
  {
    hide SetOption, VoterMap, LeaseSet, StreamValid;
    var g := OneOption(index, o, vs);
    var es := [OptionEntry(1, o)];
    var l0 := EmptyLedger(0, 0);
    assert [g][..0] == [] && RestoreStreams(l0, [g], now) == RestoreStream(l0, g, now);
    var st := EMPTY_STREAM.(index := index, total := o.amount, seqNo := 1);
    assert es[..0] == [];
    SetOptionFrame(l0.With(Caretaker, st), Caretaker, 1, o, now);
    assert RestoreOptions(l0.With(Caretaker, st), Caretaker, es, now) ==
      SetOption(l0.With(Caretaker, st), Caretaker, 1, o, now);
    assert Valid(GenesisState(0, 0, [g]));
  }

  /** The funding check looks at settled balances only: an unsettled claim nobody paid for
      is accepted, and the next settlement of its option halts the chain. */
  lemma UnbackedGenesis(now: nat)
    ensures var o := AllocationOption(Address, "", "", 1, 0, 0, false);
      var r := InitGenesis(GenesisState(0, 0, [OneOption(PRECISION, o, [])]), 0, now);
      r.Done? && !Halts(r.ledger) && Halts(DrawFromOption(r.ledger, Caretaker, 1, 0, now).0)
  {
    hide SetOption, InitGenesis;
    var o := AllocationOption(Address, "", "", 1, 0, 0, false);
    OneEntry(OptionEntry(1, o));
    OneOptionImport(PRECISION, o, [], now);
    var l := InitGenesis(GenesisState(0, 0, [OneOption(PRECISION, o, [])]), 0, now).ledger;
    var paid := SettleOption(o, PRECISION);
    assert paid.accrued == 1 && Drawn(paid, 0) == 0;
    SetOptionFrame(l, Caretaker, 1, paid.(accrued := 1), now);
  }

  lemma OneEntry(e: OptionEntry)
    ensures EntrySum([e]) == e.option.amount
  {
    assert [e][..0] == [];
  }

  lemma OneShare(percent: nat)
    ensures ShareSum([Share(1, percent)]) == percent
  {
    assert [Share(1, percent)][..0] == [];
  }

  /** Withdrawing a vote takes what it put on the one option off the running sum, while
      the total is clamped at zero. */
  lemma Withdrawn(l: Ledger, key: VoterKey, w: int, now: nat)
    requires Live(l.caretaker.options, 1) && key in l.caretaker.voters
    requires l.caretaker.voters[key].epoch == l.caretaker.epoch
    requires Contributions(l.caretaker.voters[key]) == [Contribution(1, w)]
    ensures var m := ClearVoter(l, Caretaker, key, now);
      m.caretaker.summed == l.caretaker.summed - w && m.caretaker.total == Clamped(l.caretaker.total - w)
  {
    hide SetOption, Contributions;
    var st := l.caretaker;
    var off := Negated([Contribution(1, w)]);
    assert off == [Contribution(1, -w)] && off[..0] == [];
    assert LiveSum(st.options, off) == -w && LiveSum(st.options, []) == 0;
    assert SplitContributions([], 0) == [] && ExistingSplit(st.options, []) == [];
    var l1 := l.With(Caretaker, st.(lapses := Unqueued(st, key)));
    var o := SettleOption(st.options[1], st.index);
    assert AddContributions(l1, Caretaker, off, now) == AddContribution(l1, Caretaker, off[0], now);
    SetOptionFrame(l1, Caretaker, 1, o.(amount := o.amount - w), now);
  }

  function OneVote(weight: int, epoch: nat): VoterEntry {
    VoterEntry(7, Voter([Share(1, 100)], [], weight, 0, epoch))
  }

  lemma OneVoteCounts(weight: int, epoch: nat)
    requires weight >= 0
    ensures Contributions(OneVote(weight, epoch).voter) == [Contribution(1, weight)]
    ensures VoterMap([OneVote(weight, epoch)]) == map[7 := OneVote(weight, epoch).voter]
  {
    assert [OneVote(weight, epoch)][..0] == [];
    assert Quo(weight * 100, 100) == weight;
  }

  /** Nothing compares amounts with votes: an option carrying less than its voter put on it
      is accepted, fully backed, and withdrawing the vote halts the chain. */
  lemma UnsupportedGenesis(now: nat)
    ensures var o := AllocationOption(Address, "", "", 1, 0, 0, false);
      var r := InitGenesis(GenesisState(0, 0, [OneOption(0, o, [OneVote(5, 0)])]), 0, now);
      r.Done? && !Halts(r.ledger) && Halts(ClearVoter(r.ledger, Caretaker, 7, now))
  {
    hide InitGenesis, ClearVoter, VoterMap;
    var o := AllocationOption(Address, "", "", 1, 0, 0, false);
    OneEntry(OptionEntry(1, o));
    OneShare(100);
    OneVoteCounts(5, 0);
    OneOptionImport(0, o, [OneVote(5, 0)], now);
    Withdrawn(InitGenesis(GenesisState(0, 0, [OneOption(0, o, [OneVote(5, 0)])]), 0, now).ledger, 7, 5, now);
  }

  /** Nor does anything compare epochs: a vote of the next epoch is accepted, comes alive at
      the next reset without ever having been counted, and withdrawing it halts the chain. */
  lemma EarlyGenesis(now: nat)
    ensures var o := AllocationOption(Address, "", "", 0, 0, 0, false);
      var r := InitGenesis(GenesisState(0, 0, [OneOption(0, o, [OneVote(5, 1)])]), 0, now);
      && r.Done? && !Halts(r.ledger)
      && Halts(ClearVoter(ResetAllocations(r.ledger, Caretaker, now), Caretaker, 7, now))
  {
    hide InitGenesis, ClearVoter, VoterMap, ResetAllocations;
    var o := AllocationOption(Address, "", "", 0, 0, 0, false);
    OneEntry(OptionEntry(1, o));
    OneShare(100);
    OneVoteCounts(5, 1);
    OneOptionImport(0, o, [OneVote(5, 1)], now);
    var l := InitGenesis(GenesisState(0, 0, [OneOption(0, o, [OneVote(5, 1)])]), 0, now).ledger;
    ResetOne(l, o, now);
    Withdrawn(ResetAllocations(l, Caretaker, now), 7, 5, now);
  }

  lemma ResetOne(l: Ledger, o: AllocationOption, now: nat)
    requires l.caretaker.options == map[1 := o] && !o.removed && o.amount == 0 && l.caretaker.lastUpkeep == 0
    ensures var m := ResetAllocations(l, Caretaker, now).caretaker;
      && Live(m.options, 1) && m.epoch == l.caretaker.epoch + 1 && m.voters == l.caretaker.voters
      && m.summed == l.caretaker.summed && m.total == 0
  {
    hide SetOption, Orders.Ascending;
    var l1 := AdvanceTo(l, Caretaker, now);
    var ids := Orders.Ascending(l1.caretaker.options.Keys);
    assert ids == [1] by { assert 1 in ids && forall i | 0 <= i < |ids| :: ids[i] in ids; }
    assert ids[..0] == [];
    var retired := SettleOption(o, l1.caretaker.index).(amount := 0);
    SetOptionFrame(l1, Caretaker, 1, retired, now);
    assert RetireAll(l1, Caretaker, ids, now) == RetireOption(l1, Caretaker, 1, now) ==
      SetOption(l1, Caretaker, 1, retired, now);
  }
}
