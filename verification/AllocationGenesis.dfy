/** Export, validation and import of the allocation module's state. */
module AllocationGenesis {
  import opened AllocationTypes
  import opened AllocationLedger
  import opened AllocationBooks
  import opened AllocationSettle
  import opened AllocationVotes
  import opened AllocationOps
  import opened AllocationBlocks
  import opened AllocationRun
  import Orders
  import Sums

  datatype OptionEntry = OptionEntry(id: int, option: AllocationOption)

  datatype VoterEntry = VoterEntry(key: VoterKey, voter: Voter)

  datatype StreamState = StreamState(
    stream: StreamId,
    rewardIndex: int,
    totalWeight: int,
    epoch: nat,
    lastUpkeep: int,
    optionSeq: nat,
    options: seq<OptionEntry>,
    voters: seq<VoterEntry>)

  datatype GenesisState = GenesisState(seed: int, residue: int, streams: seq<StreamState>)

  // ---------------------------------------------------------------- export

  function ExportOptions(options: map<int, AllocationOption>, ids: seq<int>): seq<OptionEntry>
    requires forall i | 0 <= i < |ids| :: ids[i] in options
  {
    if ids == [] then [] else
    ExportOptions(options, ids[..|ids| - 1]) + [OptionEntry(ids[|ids| - 1], options[ids[|ids| - 1]])]
  }

  /** The option weights a weighted voter puts on options that still exist. */
  function KeptWeights(options: map<int, AllocationOption>, ws: seq<Contribution>): (r: seq<Contribution>)
    ensures forall c | c in r :: c in ws && c.option in options
    ensures |r| <= |ws|
  {
    if ws == [] then [] else
    var last := ws[|ws| - 1];
    var r := KeptWeights(options, ws[..|ws| - 1]);
    if last.option in options then r + [last] else r
  }

  /** A voter without the options pruned since; a weighted voter's weight is the sum of
      what remains. */
  function ExportVoter(options: map<int, AllocationOption>, v: Voter): Voter {
    var v1 := v.(percentages := ExistingSplit(options, v.percentages));
    if |KeptWeights(options, v.optionWeights)| < |v.optionWeights| then
      var kept := KeptWeights(options, v.optionWeights);
      v1.(optionWeights := kept, weight := Total(kept))
    else v1
  }

  /** A voter every option of which is gone is not exported. */
  predicate Exported(options: map<int, AllocationOption>, v: Voter) {
    if v.optionWeights != [] then KeptWeights(options, v.optionWeights) != []
    else ExistingSplit(options, v.percentages) != []
  }

  function ExportVoters(st: Stream, keys: seq<VoterKey>): seq<VoterEntry>
    requires forall k | k in keys :: k in st.voters
  {
    if keys == [] then [] else
    var front := ExportVoters(st, keys[..|keys| - 1]);
    var k := keys[|keys| - 1];
    if Exported(st.options, st.voters[k])
    then front + [VoterEntry(k, ExportVoter(st.options, st.voters[k]))] else front
  }

  /** The settlement cursor is left out, so a restart pays nothing for the gap. */
  function ExportStream(s: StreamId, st: Stream): StreamState {
    StreamState(s, st.index, st.total, st.epoch, 0, st.seqNo,
      ExportOptions(st.options, Orders.Ascending(st.options.Keys)),
      ExportVoters(st, Orders.Ascending(st.voters.Keys)))
  }

  function Export(l: Ledger): GenesisState {
    GenesisState(0, l.residue, [ExportStream(Caretaker, l.caretaker), ExportStream(Groundworks, l.groundworks)])
  }

  // ---------------------------------------------------------------- validation

  predicate OptionValid(st: StreamState, e: OptionEntry) {
    && 1 <= e.id <= st.optionSeq
    && (e.option.removed ==> e.option.amount == 0 && e.option.accrued == 0 && st.stream == Groundworks)
    && e.option.amount >= 0
    && e.option.accrued >= 0
    && e.option.lastIndex <= st.rewardIndex
  }

  function EntrySum(entries: seq<OptionEntry>): int {
    if entries == [] then 0 else EntrySum(entries[..|entries| - 1]) + entries[|entries| - 1].option.amount
  }

  predicate Listed(st: StreamState, id: int) {
    exists i | 0 <= i < |st.options| :: st.options[i].id == id
  }

  predicate WeightedValid(st: StreamState, v: Voter) {
    v.optionWeights != [] ==>
      && v.percentages == []
      && DistinctOptions(v.optionWeights)
      && (forall i | 0 <= i < |v.optionWeights| ::
        v.optionWeights[i].amount > 0 && Listed(st, v.optionWeights[i].option))
      && Total(v.optionWeights) == v.weight
  }

  predicate VoterValid(st: StreamState, v: Voter) {
    && v.weight >= 0
    && v.expiresAt >= 0
    && (v.expiresAt != 0 ==> st.stream == Groundworks && v.optionWeights == [])
    && (forall i | 0 <= i < |v.percentages| :: Listed(st, v.percentages[i].option) && v.percentages[i].percent <= 100)
    && ShareSum(v.percentages) <= 100
    && (st.stream == Groundworks && v.optionWeights == [] && v.percentages != [] ==> v.expiresAt != 0)
    && WeightedValid(st, v)
  }

  predicate StreamValid(st: StreamState) {
    && st.rewardIndex >= 0 && st.totalWeight >= 0 && st.lastUpkeep >= 0
    && (forall i | 0 <= i < |st.options| :: OptionValid(st, st.options[i]))
    && (forall i, j | 0 <= i < j < |st.options| :: st.options[i].id != st.options[j].id)
    && EntrySum(st.options) == st.totalWeight
    && (forall i, j | 0 <= i < j < |st.voters| :: st.voters[i].key != st.voters[j].key)
    && (forall i | 0 <= i < |st.voters| :: VoterValid(st, st.voters[i].voter))
  }

  predicate Valid(gs: GenesisState) {
    && gs.seed >= 0
    && (gs.streams != [] ==> gs.seed == 0)
    && gs.residue >= 0
    && (forall i, j | 0 <= i < j < |gs.streams| :: gs.streams[i].stream != gs.streams[j].stream)
    && (forall i | 0 <= i < |gs.streams| :: StreamValid(gs.streams[i]))
  }

  // ---------------------------------------------------------------- import

  function EmptyLedger(residue: int, held: int): Ledger {
    Ledger(EMPTY_STREAM, EMPTY_STREAM, 0, residue, {}, held, [])
  }

  /** An imported option comes back as it was; the sums, the handler set and the removal
      schedule, which are derived, are rebuilt around it. */
  function RestoreOption(l: Ledger, s: StreamId, e: OptionEntry, now: nat): Ledger {
    var l1 := SetOption(l, s, e.id, e.option, now);
    var st := l1.At(s);
    if e.option.kind == Integrated && !e.option.removed
    then l1.With(s, st.(integrated := st.integrated + {e.id})) else l1
  }

  function RestoreOptions(l: Ledger, s: StreamId, es: seq<OptionEntry>, now: nat): Ledger {
    if es == [] then l else RestoreOption(RestoreOptions(l, s, es[..|es| - 1], now), s, es[|es| - 1], now)
  }

  function VoterMap(vs: seq<VoterEntry>): map<VoterKey, Voter> {
    if vs == [] then map[] else VoterMap(vs[..|vs| - 1])[vs[|vs| - 1].key := vs[|vs| - 1].voter]
  }

  function LeaseSet(vs: seq<VoterEntry>): set<(int, VoterKey)> {
    set i | 0 <= i < |vs| && vs[i].voter.expiresAt != 0 :: (vs[i].voter.expiresAt, vs[i].key)
  }

  /** The cursor of a stream that was running moves up to the genesis time. */
  function RestoredUpkeep(lastUpkeep: int, now: nat): int {
    if lastUpkeep != 0 && now > lastUpkeep then now else lastUpkeep
  }

  function RestoreStream(l: Ledger, g: StreamState, now: nat): Ledger {
    var st := l.At(g.stream).(
      index := g.rewardIndex, total := g.totalWeight, epoch := g.epoch, seqNo := g.optionSeq,
      lastUpkeep := RestoredUpkeep(g.lastUpkeep, now));
    var l1 := RestoreOptions(l.With(g.stream, st), g.stream, g.options, now);
    l1.With(g.stream, l1.At(g.stream).(
      voters := VoterMap(g.voters), lapses := l1.At(g.stream).lapses + LeaseSet(g.voters)))
  }

  function RestoreStreams(l: Ledger, gs: seq<StreamState>, now: nat): Ledger {
    if gs == [] then l else RestoreStream(RestoreStreams(l, gs[..|gs| - 1], now), gs[|gs| - 1], now)
  }

  /** A fresh chain: option 1 of each stream, the emergency fund, and the seed. */
  function Fresh(seed: int, residue: int, held: int, now: nat): Ledger {
    var l1 := AppendOption(EmptyLedger(residue, held), Caretaker, Integrated, "", "", now);
    var l2 := if seed > 0 && 1 in l1.caretaker.options
      then SetOption(l1, Caretaker, 1, l1.caretaker.options[1].(accrued := seed), now) else l1;
    AppendOption(AppendOption(l2, Groundworks, Integrated, "", "", now), Groundworks, Integrated, "", "", now)
  }

  /** An import must validate, and the module account must back what it carries. */
  function InitGenesis(gs: GenesisState, held: int, now: nat): Outcome {
    if !Valid(gs) then Refused else
    var l := if gs.streams != [] then RestoreStreams(EmptyLedger(gs.residue, held), gs.streams, now)
             else Fresh(gs.seed, gs.residue, held, now);
    if l.held < l.summedAccrued + l.residue then Refused else Done(l)
  }

  // ---------------------------------------------------------------- a fresh chain

  lemma EmptyInv(residue: int, held: int)
    requires 0 <= residue <= held
    ensures Inv(EmptyLedger(residue, held))
    ensures Slack(EmptyLedger(residue, held)) == PRECISION * (held - residue)
  {
    var l := EmptyLedger(residue, held);
    assert forall s :: l.At(s) == EMPTY_STREAM;
    assert Weight(map[]) == 0 && Accrued(map[]) == 0 && Unsettled(map[], 0) == 0;
    assert StreamBooks(EMPTY_STREAM) && Votes(EMPTY_STREAM) && Schedule(l) && Idle(l);
  }

  lemma SeedInv(l: Ledger, seed: int, now: nat)
    requires Inv(l) && 1 in l.caretaker.options && seed > 0
    requires l.caretaker.options[1].accrued == 0 && l.caretaker.options[1].amount == 0
      && !l.caretaker.options[1].removed
    requires Slack(l) >= PRECISION * seed
    ensures Inv(SetOption(l, Caretaker, 1, l.caretaker.options[1].(accrued := seed), now))
  {
    hide Slack, SetOption, LeasesRespected, Votes, Schedule, Idle;
    var o := l.caretaker.options[1].(accrued := seed);
    SplitInv(l);
    StreamOptionOk(l.caretaker, 1);
    RewriteInv(l, Caretaker, 1, o, now);
    assert Worth(o, l.caretaker.index) == PRECISION * seed;
  }

  lemma AppendedSlack(l: Ledger, s: StreamId, kind: Kind, now: nat)
    requires Inv(l)
    ensures var m := AppendOption(l, s, kind, "", "", now);
      && Slack(m) == Slack(l) && m.held == l.held && m.residue == l.residue
      && m.At(s).options ==
        l.At(s).options[l.At(s).seqNo + 1 := AllocationOption(kind, "", "", 0, 0, l.At(s).index, false)]
  {
    hide Slack, SetOption, Schedule, Idle, LeasesRespected, Votes, Books;
    var st := l.At(s);
    var id := st.seqNo + 1;
    var o := AllocationOption(kind, "", "", 0, 0, st.index, false);
    var l1 := l.With(s, st.(seqNo := id));
    SequenceOutsideBooks(l, s, id);
    NewOption(l, s, id);
    SetOptionFrame(l1, s, id, o, now);
    SetOptionBooks(l1, s, id, o, now);
    var m := AppendOption(l, s, kind, "", "", now);
    VotesOutsideBooks(SetOption(l1, s, id, o, now), m, s);
  }

  /** A funded fresh genesis satisfies the invariant. */
  lemma FreshInv(seed: int, residue: int, held: int, now: nat)
    requires 0 <= seed && 0 <= residue && seed + residue <= held
    ensures Inv(Fresh(seed, residue, held, now))
  {
    hide Inv, Slack, AppendOption, SetOption;
    EmptyInv(residue, held);
    var l0 := EmptyLedger(residue, held);
    AppendOptionInv(l0, Caretaker, Integrated, "", "", now);
    AppendedSlack(l0, Caretaker, Integrated, now);
    var l1 := AppendOption(l0, Caretaker, Integrated, "", "", now);
    if seed > 0 {
      SeedInv(l1, seed, now);
    }
    var l2 := if seed > 0 then SetOption(l1, Caretaker, 1, l1.caretaker.options[1].(accrued := seed), now) else l1;
    AppendOptionInv(l2, Groundworks, Integrated, "", "", now);
    AppendOptionInv(AppendOption(l2, Groundworks, Integrated, "", "", now), Groundworks, Integrated, "", "", now);
  }

  lemma FreshFunded(seed: int, residue: int, held: int, now: nat)
    requires seed >= 0 && residue >= 0
    ensures var l := Fresh(seed, residue, held, now);
      l.held == held && l.summedAccrued == seed && l.residue == residue
  {
    hide SetOption;
    var l0 := EmptyLedger(residue, held);
    AppendSums(l0, Caretaker, now);
    var l1 := AppendOption(l0, Caretaker, Integrated, "", "", now);
    if seed > 0 {
      SetOptionFrame(l1, Caretaker, 1, l1.caretaker.options[1].(accrued := seed), now);
    }
    var l2 := if seed > 0 then SetOption(l1, Caretaker, 1, l1.caretaker.options[1].(accrued := seed), now) else l1;
    assert 1 !in l2.groundworks.options && l2.groundworks.options == map[] && l2.groundworks.seqNo == 0;
    AppendSums(l2, Groundworks, now);
    AppendSums(AppendOption(l2, Groundworks, Integrated, "", "", now), Groundworks, now);
  }

  lemma AppendSums(l: Ledger, s: StreamId, now: nat)
    ensures var m := AppendOption(l, s, Integrated, "", "", now);
      var id := l.At(s).seqNo + 1;
      && m.held == l.held && m.residue == l.residue
      && m.summedAccrued == l.summedAccrued - AccruedAt(l.At(s).options, id)
      && m.At(Other(s)) == l.At(Other(s)) && m.At(s).seqNo == id
      && m.At(s).options == l.At(s).options[id := AllocationOption(Integrated, "", "", 0, 0, l.At(s).index, false)]
  {
    hide SetOption;
    var st := l.At(s);
    var id := st.seqNo + 1;
    SetOptionFrame(l.With(s, st.(seqNo := id)), s, id, AllocationOption(Integrated, "", "", 0, 0, st.index, false),
      now);
  }

  /** A fresh chain has one integrated option on Caretaker, holding the seed, and two on
      Groundworks, holding nothing; no votes, no weight, no settled time. */
  lemma FreshSlate(seed: int, residue: int, held: int, now: nat)
    requires seed >= 0
    ensures var l := Fresh(seed, residue, held, now);
      && l.caretaker.options == map[1 := AllocationOption(Integrated, "", "", 0, seed, 0, false)]
      && l.groundworks.options == map[1 := AllocationOption(Integrated, "", "", 0, 0, 0, false),
                                      2 := AllocationOption(Integrated, "", "", 0, 0, 0, false)]
      && forall s :: l.At(s).voters == map[] && l.At(s).total == 0 && l.At(s).index == 0 && l.At(s).lastUpkeep == 0
  {
    hide SetOption;
    var l0 := EmptyLedger(residue, held);
    AppendSums(l0, Caretaker, now);
    AppendVotes(l0, Caretaker, now);
    var l1 := AppendOption(l0, Caretaker, Integrated, "", "", now);
    if seed > 0 {
      SetOptionFrame(l1, Caretaker, 1, l1.caretaker.options[1].(accrued := seed), now);
    }
    var l2 := if seed > 0 then SetOption(l1, Caretaker, 1, l1.caretaker.options[1].(accrued := seed), now) else l1;
    assert l2.groundworks == EMPTY_STREAM;
    AppendSums(l2, Groundworks, now);
    AppendVotes(l2, Groundworks, now);
    var l3 := AppendOption(l2, Groundworks, Integrated, "", "", now);
    AppendSums(l3, Groundworks, now);
    AppendVotes(l3, Groundworks, now);
    var l := Fresh(seed, residue, held, now);
    assert l.caretaker == l.At(Caretaker) && l.groundworks == l.At(Groundworks);
  }

  /** Every accepted genesis has its seed on the books: a file with streams carries none. */
  lemma SeedKept(gs: GenesisState, held: int, now: nat)
    requires InitGenesis(gs, held, now).Done?
    ensures if gs.streams == [] then InitGenesis(gs, held, now).ledger.summedAccrued == gs.seed else gs.seed == 0
  {
    hide Fresh, RestoreStreams;
    if gs.streams == [] {
      FreshFunded(gs.seed, gs.residue, held, now);
    }
  }

  lemma AppendVotes(l: Ledger, s: StreamId, now: nat)
    ensures var m := AppendOption(l, s, Integrated, "", "", now);
      && m.At(s).voters == l.At(s).voters && m.At(s).total == l.At(s).total && m.At(s).index == l.At(s).index
      && m.At(s).lastUpkeep == l.At(s).lastUpkeep
  {
    hide SetOption;
    var st := l.At(s);
    var id := st.seqNo + 1;
    SetOptionFrame(l.With(s, st.(seqNo := id)), s, id, AllocationOption(Integrated, "", "", 0, 0, st.index, false),
      now);
  }

  /** Every admissible run from an accepted fresh genesis is sound. */
  lemma FromFreshGenesis(gs: GenesisState, held: int, start: nat, calls: seq<(Op, nat)>, n: nat)
    requires gs.streams == [] && InitGenesis(gs, held, start).Done?
    requires AdmissibleRun(InitGenesis(gs, held, start).ledger, calls) && n <= |calls|
    ensures !Halts(After(InitGenesis(gs, held, start).ledger, calls, n))
  {
    hide After, Fresh, Inv, AdmissibleRun;
    FreshFunded(gs.seed, gs.residue, held, start);
    FreshInv(gs.seed, gs.residue, held, start);
    RunIsSound(InitGenesis(gs, held, start).ledger, calls, n);
  }

  // ---------------------------------------------------------------- the round trip

  lemma {:induction false} ExportedOptions(options: map<int, AllocationOption>, ids: seq<int>)
    requires forall i | 0 <= i < |ids| :: ids[i] in options
    ensures var es := ExportOptions(options, ids);
      |es| == |ids| && forall i | 0 <= i < |ids| :: ids[i] in options && es[i] == OptionEntry(ids[i], options[ids[i]])
  {
    if ids != [] {
      ExportedOptions(options, ids[..|ids| - 1]);
    }
  }

  ghost predicate EntriesOk(st: Stream, es: seq<OptionEntry>) {
    && (forall i | 0 <= i < |es| :: 1 <= es[i].id <= st.seqNo && OptionOk(es[i].option, st.index))
    && (forall i, j | 0 <= i < j < |es| :: es[i].id != es[j].id)
  }

  lemma RestoreOptionBooks(l: Ledger, s: StreamId, e: OptionEntry, now: nat)
    requires Books(l) && HandlerSet(l.At(s)) && LeasesRespected(l.history)
    requires 1 <= e.id <= l.At(s).seqNo && OptionOk(e.option, l.At(s).index) && e.id !in l.At(s).options
    ensures var m := RestoreOption(l, s, e, now);
      && Books(m) && HandlerSet(m.At(s)) && LeasesRespected(m.history)
      && m.At(s).options == l.At(s).options[e.id := e.option]
      && SameVotes(l.At(s), m.At(s).(integrated := l.At(s).integrated))
      && m.At(Other(s)) == l.At(Other(s)) && m.held == l.held && m.residue == l.residue
  {
    hide Books, Slack, SetOption, LeasesRespected, OptionOk;
    SetOptionBooks(l, s, e.id, e.option, now);
    SetOptionFrame(l, s, e.id, e.option, now);
    WroteKeepsLeases(l.history, Wrote(Seconds(now), s, e.id, e.option));
    VotesOutsideBooks(SetOption(l, s, e.id, e.option, now), RestoreOption(l, s, e, now), s);
  }

  lemma {:induction false} RestoreOptionsBooks(l: Ledger, s: StreamId, es: seq<OptionEntry>, now: nat)
    requires Books(l) && HandlerSet(l.At(s)) && LeasesRespected(l.history)
    requires l.At(s).options == map[] && EntriesOk(l.At(s), es)
    ensures var m := RestoreOptions(l, s, es, now);
      && Books(m) && HandlerSet(m.At(s)) && LeasesRespected(m.history)
      && SameVotes(l.At(s), m.At(s).(integrated := l.At(s).integrated))
      && m.At(Other(s)) == l.At(Other(s)) && m.held == l.held && m.residue == l.residue
      && Holds(m.At(s).options, es)
  {
    hide Books, HandlerSet, LeasesRespected, RestoreOption, OptionOk, Holds;
    HoldsNothing();
    if es != [] {
      var front, e := es[..|es| - 1], es[|es| - 1];
      RestoreOptionsBooks(l, s, front, now);
      var m := RestoreOptions(l, s, front, now);
      HoldsMore(m.At(s).options, front, e);
      RestoreOptionBooks(m, s, e, now);
      assert front + [e] == es;
    }
  }

  /** The options are exactly the listed entries. */
  ghost predicate Holds(options: map<int, AllocationOption>, es: seq<OptionEntry>) {
    && (forall id :: id in options <==> exists i | 0 <= i < |es| :: es[i].id == id)
    && (forall i | 0 <= i < |es| :: es[i].id in options && options[es[i].id] == es[i].option)
  }

  lemma HoldsNothing()
    ensures Holds(map[], [])
  {
  }

  lemma HoldsMore(options: map<int, AllocationOption>, es: seq<OptionEntry>, e: OptionEntry)
    requires Holds(options, es) && forall i | 0 <= i < |es| :: es[i].id != e.id
    ensures e.id !in options && Holds(options[e.id := e.option], es + [e])
  {
    var fs, after := es + [e], options[e.id := e.option];
    forall id | id in after ensures exists i | 0 <= i < |fs| :: fs[i].id == id {
      if id == e.id {
        assert fs[|es|].id == id;
      } else {
        var i :| 0 <= i < |es| && es[i].id == id;
        assert fs[i].id == id;
      }
    }
  }

  lemma {:induction false} VoterMapHas(vs: seq<VoterEntry>)
    requires forall i, j | 0 <= i < j < |vs| :: vs[i].key != vs[j].key
    ensures forall k :: k in VoterMap(vs) <==> exists i | 0 <= i < |vs| :: vs[i].key == k
    ensures forall i | 0 <= i < |vs| :: vs[i].key in VoterMap(vs) && VoterMap(vs)[vs[i].key] == vs[i].voter
  {
    if vs != [] {
      VoterMapHas(vs[..|vs| - 1]);
    }
  }

  /** vs is the export of the voters listed in keys. */
  ghost predicate ExportsOf(st: Stream, keys: seq<VoterKey>, vs: seq<VoterEntry>) {
    && (forall i | 0 <= i < |vs| ::
      vs[i].key in keys && vs[i].key in st.voters && Exported(st.options, st.voters[vs[i].key])
          && vs[i].voter == ExportVoter(st.options, st.voters[vs[i].key]))
    && (forall k | k in keys && k in st.voters && Exported(st.options, st.voters[k]) ::
      exists i | 0 <= i < |vs| :: vs[i].key == k)
    && (forall i, j | 0 <= i < j < |vs| :: vs[i].key < vs[j].key)
  }

  lemma ExportsOneMore(st: Stream, front: seq<VoterKey>, k: VoterKey, ws: seq<VoterEntry>)
    requires ExportsOf(st, front, ws) && k in st.voters && Exported(st.options, st.voters[k])
    requires forall j | j in front :: j < k
    ensures ExportsOf(st, front + [k], ws + [VoterEntry(k, ExportVoter(st.options, st.voters[k]))])
  {
    hide Exported, ExportVoter;
    var vs := ws + [VoterEntry(k, ExportVoter(st.options, st.voters[k]))];
    forall j | j in front + [k] && j in st.voters && Exported(st.options, st.voters[j])
      ensures exists i | 0 <= i < |vs| :: vs[i].key == j
    {
      if j in front {
        var i :| 0 <= i < |ws| && ws[i].key == j;
        assert vs[i].key == j;
      } else {
        assert vs[|ws|].key == j;
      }
    }
  }

  lemma ExportsNoMore(st: Stream, front: seq<VoterKey>, k: VoterKey, ws: seq<VoterEntry>)
    requires ExportsOf(st, front, ws) && k in st.voters && !Exported(st.options, st.voters[k])
    ensures ExportsOf(st, front + [k], ws)
  {
    hide Exported, ExportVoter;
  }

  lemma {:induction false} ExportedVoters(st: Stream, keys: seq<VoterKey>)
    requires forall k | k in keys :: k in st.voters
    requires forall i, j | 0 <= i < j < |keys| :: keys[i] < keys[j]
    ensures ExportsOf(st, keys, ExportVoters(st, keys))
  {
    hide Exported, ExportVoter;
    if keys != [] {
      var front, k := keys[..|keys| - 1], keys[|keys| - 1];
      ExportedVoters(st, front);
      hide ExportsOf;
      assert k in keys && front + [k] == keys;
      if Exported(st.options, st.voters[k]) {
        ExportsOneMore(st, front, k, ExportVoters(st, front));
      } else {
        ExportsNoMore(st, front, k, ExportVoters(st, front));
      }
    }
  }

  lemma {:induction false} KeptSplitContribution(options: map<int, AllocationOption>, shares: seq<Share>, weight: int,
                                                 id: int)
    requires id in options
    ensures ContributionTo(SplitContributions(ExistingSplit(options, shares), weight), id)
         == ContributionTo(SplitContributions(shares, weight), id)
  {
    if shares != [] {
      var front := shares[..|shares| - 1];
      KeptSplitContribution(options, front, weight, id);
      assert SplitContributions(shares, weight)[..|shares| - 1] == SplitContributions(front, weight);
      var kept := ExistingSplit(options, shares);
      if shares[|shares| - 1].option in options {
        assert SplitContributions(kept, weight)[..|kept| - 1] ==
          SplitContributions(ExistingSplit(options, front), weight);
      }
    }
  }

  lemma {:induction false} KeptWeightContribution(options: map<int, AllocationOption>, ws: seq<Contribution>, id: int)
    requires id in options
    ensures ContributionTo(KeptWeights(options, ws), id) == ContributionTo(ws, id)
  {
    if ws != [] {
      KeptWeightContribution(options, ws[..|ws| - 1], id);
      var r, kept := KeptWeights(options, ws[..|ws| - 1]), KeptWeights(options, ws);
      if ws[|ws| - 1].option in options {
        assert kept[..|kept| - 1] == r;
      }
    }
  }

  lemma {:induction false} KeptAll(options: map<int, AllocationOption>, ws: seq<Contribution>)
    requires |KeptWeights(options, ws)| == |ws|
    ensures KeptWeights(options, ws) == ws
  {
    if ws != [] {
      KeptAll(options, ws[..|ws| - 1]);
    }
  }

  /** An exported voter puts on each existing option exactly what it did; one that is
      left out put nothing on any. */
  lemma ExportKeepsContribution(options: map<int, AllocationOption>, v: Voter, id: int)
    requires id in options
    ensures ContributionTo(Contributions(ExportVoter(options, v)), id) == ContributionTo(Contributions(v), id)
            || !Exported(options, v)
    ensures !Exported(options, v) ==> ContributionTo(Contributions(v), id) == 0
  {
    hide ContributionTo;
    KeptSplitContribution(options, v.percentages, v.weight, id);
    KeptWeightContribution(options, v.optionWeights, id);
    Nothing(id);
    EmptySplit(options, v.weight);
    if |KeptWeights(options, v.optionWeights)| == |v.optionWeights| {
      KeptAll(options, v.optionWeights);
    }
  }

  lemma Nothing(id: int)
    ensures ContributionTo([], id) == 0
  {
  }

  lemma ExportedOk(options: map<int, AllocationOption>, v: Voter, epoch: nat, seqNo: nat)
    requires VoterOk(v, epoch, seqNo) && forall id | id in options :: id <= seqNo
    ensures VoterOk(ExportVoter(options, v), epoch, seqNo)
  {
    var w := ExportVoter(options, v);
    if v.optionWeights != [] {
      TotalNonNegative(KeptWeights(options, v.optionWeights));
      if w.optionWeights == [] {
        SplitNonNegative(w.percentages, w.weight);
        ExistingNamed(options, v.percentages, w.weight, seqNo);
      }
    } else {
      SplitNonNegative(w.percentages, w.weight);
      ExistingNamed(options, v.percentages, w.weight, seqNo);
    }
  }

  lemma ExistingNamed(options: map<int, AllocationOption>, shares: seq<Share>, weight: int, seqNo: nat)
    requires forall id | id in options :: id <= seqNo
    ensures Issued(SplitContributions(ExistingSplit(options, shares), weight), seqNo)
  {
    var kept := ExistingSplit(options, shares);
    forall c | c in SplitContributions(kept, weight) ensures c.option <= seqNo {
      var i :| 0 <= i < |kept| && c == SplitContributions(kept, weight)[i];
      assert kept[i] in kept;
    }
  }

  /** What an import gives back of one stream of the state it was exported from. */
  ghost predicate RoundTripped(a: Stream, b: Stream) {
    && b.options == a.options
    && b.index == a.index && b.epoch == a.epoch && b.seqNo == a.seqNo && b.total == a.total
    && b.summed == Weight(a.options)
    && b.lastUpkeep == 0
    && b.voters.Keys <= a.voters.Keys
    && (forall k | k in b.voters ::
      b.voters[k].epoch == a.voters[k].epoch && b.voters[k].expiresAt == a.voters[k].expiresAt)
    && (forall k, id | id in a.options :: SupportBy(b.voters, b.epoch, id, k) == SupportBy(a.voters, a.epoch, id, k))
  }

  lemma VotersRoundTrip(st: Stream)
    ensures var vs := ExportVoters(st, Orders.Ascending(st.voters.Keys));
      var b := VoterMap(vs);
      && b.Keys <= st.voters.Keys
      && (forall k | k in b :: Exported(st.options, st.voters[k]) && b[k] == ExportVoter(st.options, st.voters[k]))
      && (forall k | k in st.voters && Exported(st.options, st.voters[k]) :: k in b)
      && (forall k | k in b && b[k].expiresAt != 0 :: (b[k].expiresAt, k) in LeaseSet(vs))
  {
    hide Exported, ExportVoter, Orders.Ascending, VoterMap;
    var keys := Orders.Ascending(st.voters.Keys);
    var vs := ExportVoters(st, keys);
    ExportedVoters(st, keys);
    VoterMapHas(vs);
    var b := VoterMap(vs);
    forall k | k in b
      ensures k in st.voters && Exported(st.options, st.voters[k]) && b[k] == ExportVoter(st.options, st.voters[k])
      ensures b[k].expiresAt != 0 ==> (b[k].expiresAt, k) in LeaseSet(vs)
    {
      var i :| 0 <= i < |vs| && vs[i].key == k;
      assert b[vs[i].key] == vs[i].voter;
    }
  }

  lemma ExportVoterKeeps(options: map<int, AllocationOption>, v: Voter)
    ensures ExportVoter(options, v).epoch == v.epoch && ExportVoter(options, v).expiresAt == v.expiresAt
  {
  }

  lemma SupportRoundTrip(st: Stream, b: map<VoterKey, Voter>, id: int)
    requires id in st.options && b.Keys <= st.voters.Keys
    requires forall k | k in b :: Exported(st.options, st.voters[k]) && b[k] == ExportVoter(st.options, st.voters[k])
    requires forall k | k in st.voters && Exported(st.options, st.voters[k]) :: k in b
    ensures Support(b, st.epoch, id) == Support(st.voters, st.epoch, id)
    ensures forall k :: SupportBy(b, st.epoch, id, k) == SupportBy(st.voters, st.epoch, id, k)
  {
    hide Exported, ExportVoter, Contributions;
    var f, g := SupportTerms(b, st.epoch, id), SupportTerms(st.voters, st.epoch, id);
    forall k ensures SupportBy(b, st.epoch, id, k) == SupportBy(st.voters, st.epoch, id, k) {
      if k in st.voters {
        ExportKeepsContribution(st.options, st.voters[k], id);
        ExportVoterKeeps(st.options, st.voters[k]);
      }
    }
    Sums.Same(b.Keys, f, g);
    forall k | k in st.voters.Keys - b.Keys ensures g(k) == 0 {
      ExportKeepsContribution(st.options, st.voters[k], id);
    }
    Sums.Restrict(st.voters.Keys, b.Keys, g);
  }

  /** The options of an exported stream validate structurally. */
  lemma ExportedEntries(st: Stream)
    requires StreamBooks(st)
    ensures var es := ExportOptions(st.options, Orders.Ascending(st.options.Keys));
      EntriesOk(st, es) && Holds(st.options, es)
  {
    hide Orders.Ascending, ExportOptions, OptionOk, Holds, EntriesOk, StreamBooks;
    var ids := Orders.Ascending(st.options.Keys);
    ExportedOptions(st.options, ids);
    var es := ExportOptions(st.options, ids);
    EntriesHold(st.options, ids, es);
    EntriesSound(st, ids, es);
  }

  lemma EntriesSound(st: Stream, ids: seq<int>, es: seq<OptionEntry>)
    requires StreamBooks(st) && |es| == |ids|
    requires forall i | 0 <= i < |ids| :: ids[i] in st.options && es[i] == OptionEntry(ids[i], st.options[ids[i]])
    requires forall i, j | 0 <= i < j < |ids| :: ids[i] < ids[j]
    ensures EntriesOk(st, es)
  {
    hide OptionOk, Weight;
  }

  lemma EntriesHold(options: map<int, AllocationOption>, ids: seq<int>, es: seq<OptionEntry>)
    requires |es| == |ids| && forall i | 0 <= i < |ids| :: es[i].id == ids[i]
    requires forall i | 0 <= i < |ids| :: ids[i] in options && es[i].option == options[ids[i]]
    requires forall id | id in options :: id in ids
    ensures Holds(options, es)
  {
    forall id | id in options ensures exists i | 0 <= i < |es| :: es[i].id == id {
      var i :| 0 <= i < |ids| && ids[i] == id;
      assert es[i].id == id;
    }
  }

  lemma RestoredStreamVotes(a: Stream, b: Stream, vs: seq<VoterEntry>)
    requires StreamBooks(a) && Votes(a) && vs == ExportVoters(a, Orders.Ascending(a.voters.Keys))
    requires b.options == a.options && b.epoch == a.epoch && b.seqNo == a.seqNo && b.total == a.total
    requires b.summed == Weight(b.options) && HandlerSet(b)
    requires b.voters == VoterMap(vs) && b.lapses >= LeaseSet(vs)
    requires b.index == a.index && b.lastUpkeep == 0
    ensures Votes(b) && RoundTripped(a, b)
  {
    hide Exported, ExportVoter, ExportVoters, VoterMap, Orders.Ascending, Support, Weight, OptionOk, SupportBy,
      HandlerSet;
    VotersRoundTrip(a);
    forall id | id in a.options
      ensures Support(b.voters, a.epoch, id) == Support(a.voters, a.epoch, id)
      ensures forall k :: SupportBy(b.voters, a.epoch, id, k) == SupportBy(a.voters, a.epoch, id, k)
    {
      SupportRoundTrip(a, b.voters, id);
    }
    forall k | k in b.voters ensures VoterOk(b.voters[k], b.epoch, b.seqNo)
      ensures b.voters[k].epoch == a.voters[k].epoch && b.voters[k].expiresAt == a.voters[k].expiresAt
    {
      ExportedOk(a.options, a.voters[k], a.epoch, a.seqNo);
      ExportVoterKeeps(a.options, a.voters[k]);
    }
  }

  /** A stream about to be restored: nothing of it is there yet. */
  lemma BlankStream(l: Ledger, s: StreamId, st: Stream)
    requires Books(l) && l.At(s) == EMPTY_STREAM
    requires st == EMPTY_STREAM.(index := st.index, total := st.total, epoch := st.epoch, seqNo := st.seqNo,
                                 lastUpkeep := st.lastUpkeep)
    requires st.index >= 0
    ensures Books(l.With(s, st)) && HandlerSet(st)
  {
    hide Schedule, Idle, Weight, Accrued;
    SameSchedule(l, l.With(s, st), s);
    assert StreamBooks(EMPTY_STREAM);
    assert StreamBooks(l.With(s, st).At(s)) && StreamBooks(l.With(s, st).At(Other(s)));
  }

  lemma RestoreStreamInv(l: Ledger, s: StreamId, a: Stream, now: nat)
    requires Books(l) && LeasesRespected(l.history) && l.At(s) == EMPTY_STREAM
    requires StreamBooks(a) && Votes(a)
    ensures var m := RestoreStream(l, ExportStream(s, a), now);
      && Books(m) && LeasesRespected(m.history) && Votes(m.At(s)) && RoundTripped(a, m.At(s))
      && m.At(Other(s)) == l.At(Other(s)) && m.held == l.held && m.residue == l.residue
  {
    hide Schedule, Idle, Weight, Accrued, LeasesRespected, Votes, RoundTripped, ExportOptions,
      ExportVoters, VoterMap, LeaseSet, Orders.Ascending, RestoreOptions, OptionOk, HandlerSet, EntriesOk, Holds;
    var g := ExportStream(s, a);
    var st := EMPTY_STREAM.(index := a.index, total := a.total, epoch := a.epoch, seqNo := a.seqNo);
    BlankStream(l, s, st);
    ExportedEntries(a);
    SameEntries(a, st, g.options);
    RestoreOptionsBooks(l.With(s, st), s, g.options, now);
    var l1 := RestoreOptions(l.With(s, st), s, g.options, now);
    SameOptions(a.options, l1.At(s).options, g.options);
    var m := RestoreStream(l, g, now);
    VotesOutsideBooks(l1, m, s);
    assert StreamBooks(m.At(s));
    assert HandlerSet(m.At(s)) by { HandlerSetSame(l1.At(s), m.At(s)); }
    RestoredStreamVotes(a, m.At(s), g.voters);
  }

  lemma SameEntries(a: Stream, b: Stream, es: seq<OptionEntry>)
    requires EntriesOk(a, es) && a.seqNo == b.seqNo && a.index == b.index
    ensures EntriesOk(b, es)
  {
  }

  lemma SameOptions(a: map<int, AllocationOption>, b: map<int, AllocationOption>, es: seq<OptionEntry>)
    requires Holds(a, es) && Holds(b, es)
    ensures a == b
  {
    forall id | id in a ensures id in b && a[id] == b[id] {
      var i :| 0 <= i < |es| && es[i].id == id;
      assert a[es[i].id] == b[es[i].id];
    }
    assert forall id :: id in b ==> id in a;
  }

  /** The state an export of l restores to, at the balance l held. */
  function Reimported(l: Ledger, now: nat): Ledger {
    RestoreStreams(EmptyLedger(l.residue, l.held), Export(l).streams, now)
  }

  lemma ReimportedSteps(l: Ledger, now: nat)
    ensures Reimported(l, now) ==
      RestoreStream(RestoreStream(EmptyLedger(l.residue, l.held), ExportStream(Caretaker, l.caretaker), now),
                    ExportStream(Groundworks, l.groundworks), now)
  {
    hide RestoreStream, ExportStream;
    var gs := Export(l).streams;
    assert gs[..1] == [gs[0]] && gs[..1][..0] == [];
    assert RestoreStreams(EmptyLedger(l.residue, l.held), gs[..1], now) ==
           RestoreStream(EmptyLedger(l.residue, l.held), gs[0], now);
  }

  lemma SlackRoundTrip(l: Ledger, m: Ledger)
    requires m.held == l.held && m.residue == l.residue
    requires RoundTripped(l.caretaker, m.caretaker) && RoundTripped(l.groundworks, m.groundworks)
    ensures Slack(m) == Slack(l)
  {
    hide SupportBy;
    assert StreamWorth(m.caretaker) == StreamWorth(l.caretaker);
    assert StreamWorth(m.groundworks) == StreamWorth(l.groundworks);
  }

  lemma SolventStart(residue: int, held: int)
    ensures residue >= 0 ==> Books(EmptyLedger(residue, held)) && LeasesRespected([])
  {
    var l := EmptyLedger(residue, held);
    assert forall s :: l.At(s) == EMPTY_STREAM;
    assert Weight(map[]) == 0 && Accrued(map[]) == 0;
    assert StreamBooks(EMPTY_STREAM) && Schedule(l) && Idle(l);
  }

  /** Exporting a reachable state and importing it at the same balance gives back every
      option record, index, epoch, id sequence and total, the residue, and every voter's
      live contribution; the derived sums are exact and the invariant holds again. */
  lemma GenesisRoundTrip(l: Ledger, now: nat)
    requires Inv(l)
    ensures var m := Reimported(l, now);
      && Inv(m) && Slack(m) == Slack(l)
      && RoundTripped(l.caretaker, m.caretaker) && RoundTripped(l.groundworks, m.groundworks)
      && m.residue == l.residue && m.held == l.held && m.summedAccrued == l.summedAccrued
  {
    hide Slack, Votes, RoundTripped, RestoreStream, ExportStream, Schedule, Idle, LeasesRespected, StreamBooks, Accrued;
    SplitInv(l);
    SolventStart(l.residue, l.held);
    ReimportedSteps(l, now);
    var l0 := EmptyLedger(l.residue, l.held);
    RestoreStreamInv(l0, Caretaker, l.caretaker, now);
    var l1 := RestoreStream(l0, ExportStream(Caretaker, l.caretaker), now);
    assert l1.At(Groundworks) == l0.At(Other(Caretaker)) == EMPTY_STREAM;
    RestoreStreamInv(l1, Groundworks, l.groundworks, now);
    var m := RestoreStream(l1, ExportStream(Groundworks, l.groundworks), now);
    assert m.caretaker == l1.At(Other(Groundworks)) == l1.caretaker;
    SlackRoundTrip(l, m);
    SameAccrued(l.caretaker, m.caretaker);
    SameAccrued(l.groundworks, m.groundworks);
  }

  lemma SameAccrued(a: Stream, b: Stream)
    requires RoundTripped(a, b)
    ensures Accrued(b.options) == Accrued(a.options)
  {
  }

  /** So an export that validates is always accepted. */
  lemma ExportIsAccepted(l: Ledger, now: nat)
    requires Inv(l) && Valid(Export(l))
    ensures InitGenesis(Export(l), l.held, now) == Done(Reimported(l, now))
  {
    hide Inv, RestoreStreams, ExportStream, Valid;
    GenesisRoundTrip(l, now);
    NoHalt(Reimported(l, now));
  }

  /** The first settlement after an import mints nothing: the restart gap is not paid. */
  lemma RestartPaysNothing(l: Ledger, s: StreamId, start: nat, t: int)
    requires Inv(l)
    ensures var m := Reimported(l, start); var n := SettleTo(m, s, t);
      n.held == m.held && n.At(s).index == m.At(s).index && n.residue == m.residue && n.At(s).lastUpkeep == t
  {
    hide Inv, RestoreStreams, ExportStream, SupportBy, Weight;
    GenesisRoundTrip(l, start);
  }
}
