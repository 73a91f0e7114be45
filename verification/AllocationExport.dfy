/** When an export validates: exactly when the records it is made of are ones the import
    rules allow. */
module AllocationExport {
  import opened AllocationTypes
  import opened AllocationLedger
  import opened AllocationBooks
  import opened AllocationSettle
  import opened AllocationVotes
  import opened AllocationOps
  import opened AllocationGenesis
  import opened AllocationImport
  import opened AllocationOnward
  import Orders

  // ---------------------------------------------------------------- the condition

  /** A stored vote the import rules allow: a split within bounds, leased exactly on
      Groundworks, or an unleased list of positive weights on distinct options whose sum
      is the stored weight. Options that are gone do not matter. */
  predicate VoterExportable(s: StreamId, options: map<int, AllocationOption>, v: Voter) {
    var shares, kept := ExistingSplit(options, v.percentages), KeptWeights(options, v.optionWeights);
    && v.expiresAt >= 0
    && (forall i | 0 <= i < |shares| :: shares[i].percent <= 100) && ShareSum(shares) <= 100
    && if v.optionWeights == [] then (v.expiresAt != 0 <==> s == Groundworks)
       else && v.expiresAt == 0 && shares == [] && DistinctOptions(kept)
            && (forall i | 0 <= i < |kept| :: kept[i].amount > 0)
            && (|kept| == |v.optionWeights| ==> Total(kept) == v.weight)
  }

  /** Every vote that would be exported is allowed, and only Groundworks has struck options. */
  ghost predicate StreamExportable(s: StreamId, st: Stream) {
    && (forall k | k in st.voters && Exported(st.options, st.voters[k]) :: VoterExportable(s, st.options, st.voters[k]))
    && (forall id | id in st.options && st.options[id].removed :: s == Groundworks)
  }

  // ---------------------------------------------------------------- one voter

  lemma ExportVoterValid(s: StreamId, st: Stream, g: StreamState, v: Voter)
    requires g.stream == s && Holds(st.options, g.options) && v.weight >= 0 && Exported(st.options, v)
    requires v.optionWeights != [] ==> NonNegative(v.optionWeights)
    ensures VoterValid(g, ExportVoter(st.options, v)) <==> VoterExportable(s, st.options, v)
  {
    hide ShareSum, Total, DistinctOptions;
    var shares, kept := ExistingSplit(st.options, v.percentages), KeptWeights(st.options, v.optionWeights);
    if |kept| == |v.optionWeights| {
      KeptAll(st.options, v.optionWeights);
    }
    KeptNonNegative(st.options, v.optionWeights);
    forall i | 0 <= i < |shares| ensures Listed(g, shares[i].option) {
      assert shares[i] in shares;
    }
    forall i | 0 <= i < |kept| ensures Listed(g, kept[i].option) {
      assert kept[i] in kept;
    }
  }

  lemma KeptNonNegative(options: map<int, AllocationOption>, ws: seq<Contribution>)
    requires NonNegative(ws)
    ensures Total(KeptWeights(options, ws)) >= 0
  {
    TotalNonNegative(KeptWeights(options, ws));
  }

  // ---------------------------------------------------------------- one stream

  /** The listed amounts sum to the weight of the options: restoring them would say so. */
  lemma EntriesWeigh(st: Stream, es: seq<OptionEntry>)
    requires EntriesOk(st, es) && Holds(st.options, es) && st.index >= 0
    ensures EntrySum(es) == Weight(st.options)
  {
    hide Books, Weight, EntrySum, EntriesOk, Holds, RestoreOptions, HandlerSet, LeasesRespected, EntryWorth, Slack;
    SolventStart(0, 0);
    var blank := EMPTY_STREAM.(index := st.index, seqNo := st.seqNo);
    BlankStream(EmptyLedger(0, 0), Caretaker, blank);
    var l := EmptyLedger(0, 0).With(Caretaker, blank);
    SameEntries(st, blank, es);
    RestoreOptionsBooks(l, Caretaker, es, 0);
    RestoreOptionsSums(l, Caretaker, es, 0);
    var m := RestoreOptions(l, Caretaker, es, 0);
    SameOptions(st.options, m.caretaker.options, es);
    assert StreamBooks(m.caretaker) by { BooksOf(m); }
  }

  lemma BooksOf(l: Ledger)
    requires Books(l)
    ensures StreamBooks(l.caretaker)
  {
  }

  lemma StruckEntries(s: StreamId, st: Stream, g: StreamState)
    requires g.stream == s && g.rewardIndex == st.index && g.optionSeq == st.seqNo
    requires EntriesOk(st, g.options) && Holds(st.options, g.options)
    ensures (forall i | 0 <= i < |g.options| :: OptionValid(g, g.options[i]))
            <==> (forall id | id in st.options && st.options[id].removed :: s == Groundworks)
  {
    if forall i | 0 <= i < |g.options| :: OptionValid(g, g.options[i]) {
      forall id | id in st.options && st.options[id].removed ensures s == Groundworks {
        var i :| 0 <= i < |g.options| && g.options[i].id == id;
        assert OptionValid(g, g.options[i]);
      }
    }
  }

  lemma VoterEntries(s: StreamId, st: Stream, g: StreamState)
    requires g == ExportStream(s, st) && Holds(st.options, g.options)
    requires forall k | k in st.voters :: VoterOk(st.voters[k], st.epoch, st.seqNo)
    ensures forall i, j | 0 <= i < j < |g.voters| :: g.voters[i].key != g.voters[j].key
    ensures (forall i | 0 <= i < |g.voters| :: VoterValid(g, g.voters[i].voter)) <==>
            (forall k | k in st.voters && Exported(st.options, st.voters[k]) ::
              VoterExportable(s, st.options, st.voters[k]))
  {
    hide Exported, ExportVoter, ExportVoters, ExportOptions, Orders.Ascending, VoterExportable, VoterValid, Holds,
      VoterOk;
    var keys := Orders.Ascending(st.voters.Keys);
    ExportedVoters(st, keys);
    forall k | k in st.voters && Exported(st.options, st.voters[k])
      ensures VoterValid(g, ExportVoter(st.options, st.voters[k])) <==> VoterExportable(s, st.options, st.voters[k])
    {
      StoredOk(st.voters[k], st.epoch, st.seqNo);
      ExportVoterValid(s, st, g, st.voters[k]);
    }
    if forall i | 0 <= i < |g.voters| :: VoterValid(g, g.voters[i].voter) {
      forall k | k in st.voters && Exported(st.options, st.voters[k])
        ensures VoterExportable(s, st.options, st.voters[k]) {
        assert k in keys;
        var i :| 0 <= i < |g.voters| && g.voters[i].key == k;
        assert VoterValid(g, g.voters[i].voter);
      }
    }
  }

  lemma StoredOk(v: Voter, epoch: nat, seqNo: nat)
    requires VoterOk(v, epoch, seqNo)
    ensures v.weight >= 0 && (v.optionWeights != [] ==> NonNegative(v.optionWeights))
  {
  }

  lemma StreamExportValid(s: StreamId, st: Stream)
    requires StreamBooks(st) && Votes(st)
    ensures StreamValid(ExportStream(s, st)) <==> StreamExportable(s, st)
  {
    hide Weight, EntrySum, EntriesOk, Holds, OptionValid, VoterValid, ExportOptions, ExportVoters, Orders.Ascending,
      VoterExportable, Exported, VoterOk, Supported, LeasesQueued, HandlerSet;
    var g := ExportStream(s, st);
    ExportedEntries(st);
    EntriesWeigh(st, g.options);
    StruckEntries(s, st, g);
    VoterEntries(s, st, g);
    WeightNonNegative(st);
    DistinctEntries(st, g.options);
  }

  lemma DistinctEntries(st: Stream, es: seq<OptionEntry>)
    requires EntriesOk(st, es)
    ensures forall i, j | 0 <= i < j < |es| :: es[i].id != es[j].id
  {
  }

  /** A reachable state's export validates if and only if its stored votes and struck
      options are ones the import rules allow. */
  lemma ExportValidExact(l: Ledger)
    requires Inv(l)
    ensures Valid(Export(l))
      <==> StreamExportable(Caretaker, l.caretaker) && StreamExportable(Groundworks, l.groundworks)
  {
    hide StreamValid, StreamExportable, ExportStream, Votes, Slack, Idle, Schedule, LeasesRespected;
    SplitInv(l);
    StreamExportValid(Caretaker, l.caretaker);
    StreamExportValid(Groundworks, l.groundworks);
    ExportNames(l);
    var gs := Export(l).streams;
    assert gs[0] == ExportStream(Caretaker, l.caretaker) && gs[1] == ExportStream(Groundworks, l.groundworks);
  }

  lemma ExportNames(l: Ledger)
    ensures ExportStream(Caretaker, l.caretaker).stream == Caretaker
    ensures ExportStream(Groundworks, l.groundworks).stream == Groundworks
  {
  }

  /** It does not always: a split filed on Groundworks without a lease, as SetVoterSplit
      files it, makes an export that its own import refuses. */
  lemma UnleasedExport(now: nat)
    ensures var r := SetVoterSplit(Fresh(0, 0, 0, now), Groundworks, 7, [Share(1, 100)], 5, now);
      r.Done? && Inv(r.ledger) && !Valid(Export(r.ledger))
        && InitGenesis(Export(r.ledger), r.ledger.held, now) == Refused
  {
    hide Inv, Valid, Export, RestoreStreams, ResyncVoterAt, AdvanceTo, Fresh, AppendOption;
    var l := Fresh(0, 0, 0, now);
    FreshInv(0, 0, 0, now);
    FreshSlate(now);
    OneShare(100);
    SetVoterSplitInv(l, Groundworks, 7, [Share(1, 100)], 5, now);
    AdvanceInv(l, Groundworks, now);
    var l1 := AdvanceTo(l, Groundworks, now);
    FiledUnleased(l1, now);
    ExportValidExact(ResyncVoterAt(l1, Groundworks, 7, [Share(1, 100)], 5, 0, now));
  }

  lemma FreshSlate(now: nat)
    ensures Live(Fresh(0, 0, 0, now).groundworks.options, 1) && Fresh(0, 0, 0, now).groundworks.voters == map[]
  {
    hide SetOption;
    var l0 := EmptyLedger(0, 0);
    AppendSums(l0, Caretaker, now);
    var l2 := AppendOption(l0, Caretaker, Integrated, "", "", now);
    AppendSums(l2, Groundworks, now);
    var l3 := AppendOption(l2, Groundworks, Integrated, "", "", now);
    AppendSums(l3, Groundworks, now);
    AppendVoters(l2, now);
    AppendVoters(l3, now);
  }

  lemma AppendVoters(l: Ledger, now: nat)
    ensures AppendOption(l, Groundworks, Integrated, "", "", now).groundworks.voters == l.groundworks.voters
  {
    hide SetOption;
    var st := l.groundworks;
    SetOptionFrame(l.With(Groundworks, st.(seqNo := st.seqNo + 1)), Groundworks, st.seqNo + 1,
                   AllocationOption(Integrated, "", "", 0, 0, st.index, false), now);
  }

  lemma FiledUnleased(l: Ledger, now: nat)
    requires Live(l.groundworks.options, 1) && l.groundworks.voters == map[]
    ensures var m := ResyncVoterAt(l, Groundworks, 7, [Share(1, 100)], 5, 0, now);
      !StreamExportable(Groundworks, m.groundworks)
  {
    hide ResyncVoterAt, Clock;
    var shares := [Share(1, 100)];
    var m := ResyncVoterAt(l, Groundworks, 7, shares, 5, 0, now);
    FiledRecord(l, now);
    ResyncVoterAtOnward(l, Groundworks, 7, shares, 5, 0, now);
    KeptShare(m.groundworks.options);
  }

  lemma KeptShare(options: map<int, AllocationOption>)
    requires 1 in options
    ensures ExistingSplit(options, [Share(1, 100)]) == [Share(1, 100)]
  {
    assert [Share(1, 100)][..0] == [];
  }

  lemma FiledRecord(l: Ledger, now: nat)
    requires Live(l.groundworks.options, 1) && l.groundworks.voters == map[]
    ensures var m := ResyncVoterAt(l, Groundworks, 7, [Share(1, 100)], 5, 0, now);
      7 in m.groundworks.voters && m.groundworks.voters[7] == Voter([Share(1, 100)], [], 5, 0, l.groundworks.epoch)
  {
    hide AddContributions, ExistingSplit, SplitContributions, LiveSum;
    var st := l.groundworks;
    KeptShare(st.options);
    var cs := SplitContributions([Share(1, 100)], 5);
    assert Negated([]) == [];
    var l1 := l.With(Groundworks, st.(lapses := Unqueued(st, 7)));
    NoContributions(l1, now);
    FrameVoters(l1, cs, now);
  }

  lemma FrameVoters(l: Ledger, cs: seq<Contribution>, now: nat)
    ensures AddContributions(l, Groundworks, cs, now).groundworks.voters == l.groundworks.voters
  {
    hide AddContributions;
    AddContributionsFrame(l, Groundworks, cs, now);
  }

  lemma NoContributions(l: Ledger, now: nat)
    ensures AddContributions(l, Groundworks, [], now) == l
  {
  }
}
