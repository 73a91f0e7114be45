/** Genesis as the module runs it: validation by running sums and seen-sets, and the
    walks that export and restore a stream. */
module AllocationGenesisKeeper {
  import opened AllocationTypes
  import opened AllocationLedger
  import opened AllocationGenesis
  import opened AllocationKeeper

  /** The ids of the first n listed options. */
  function ListedIds(st: StreamState, n: nat): set<int>
    requires n <= |st.options|
  {
    set i | 0 <= i < n :: st.options[i].id
  }

  method ValidateOptions(st: StreamState) returns (ok: bool, seen: set<int>)
    ensures ok <==>
      && (forall i | 0 <= i < |st.options| :: OptionValid(st, st.options[i]))
      && (forall i, j | 0 <= i < j < |st.options| :: st.options[i].id != st.options[j].id)
      && EntrySum(st.options) == st.totalWeight
    ensures ok ==> forall id :: id in seen <==> Listed(st, id)
  {
    seen := {};
    var summed := 0;
    for n := 0 to |st.options|
      invariant forall i | 0 <= i < n :: OptionValid(st, st.options[i])
      invariant forall i, j | 0 <= i < j < n :: st.options[i].id != st.options[j].id
      invariant seen == ListedIds(st, n)
      invariant summed == EntrySum(st.options[..n])
    {
      var e := st.options[n];
      assert st.options[..n + 1][..n] == st.options[..n];
      if e.id < 1 || e.id > st.optionSeq || e.id in seen {
        return false, {};
      }
      seen := seen + {e.id};
      if e.option.removed && (e.option.amount != 0 || e.option.accrued != 0 || st.stream != Groundworks) {
        return false, {};
      }
      if e.option.amount < 0 || e.option.accrued < 0 || e.option.lastIndex > st.rewardIndex {
        return false, {};
      }
      summed := summed + e.option.amount;
    }
    assert st.options[..|st.options|] == st.options;
    ok := summed == st.totalWeight;
  }

  method ValidateWeightedVoter(st: StreamState, v: Voter, options: set<int>) returns (ok: bool)
    requires forall id :: id in options <==> Listed(st, id)
    ensures ok <==> WeightedValid(st, v)
  {
    var ws := v.optionWeights;
    if ws == [] {
      return true;
    }
    if v.percentages != [] {
      return false;
    }
    var sum := 0;
    var seen: set<int> := {};
    for n := 0 to |ws|
      invariant forall i | 0 <= i < n :: ws[i].amount > 0 && Listed(st, ws[i].option) && ws[i].option in seen
      invariant forall x | x in seen :: exists i | 0 <= i < n :: ws[i].option == x
      invariant forall i, j | 0 <= i < j < n :: ws[i].option != ws[j].option
      invariant sum == Total(ws[..n])
    {
      assert ws[..n + 1][..n] == ws[..n];
      if ws[n].option !in options || ws[n].option in seen || ws[n].amount <= 0 {
        return false;
      }
      seen := seen + {ws[n].option};
      sum := sum + ws[n].amount;
    }
    assert ws[..|ws|] == ws;
    return sum == v.weight;
  }

  method ValidateVoter(st: StreamState, v: Voter, options: set<int>) returns (ok: bool)
    requires forall id :: id in options <==> Listed(st, id)
    ensures ok <==> VoterValid(st, v)
  {
    hide Listed, WeightedValid;
    if v.weight < 0 || v.expiresAt < 0 || (v.expiresAt != 0 && (st.stream != Groundworks || v.optionWeights != [])) {
      return false;
    }
    var pct := 0;
    for n := 0 to |v.percentages|
      invariant forall i | 0 <= i < n :: Listed(st, v.percentages[i].option) && v.percentages[i].percent <= 100
      invariant pct == ShareSum(v.percentages[..n])
    {
      assert v.percentages[..n + 1][..n] == v.percentages[..n];
      if v.percentages[n].option !in options || v.percentages[n].percent > 100 {
        return false;
      }
      pct := pct + v.percentages[n].percent;
    }
    assert v.percentages[..|v.percentages|] == v.percentages;
    if v.percentages != [] && pct > 100 {
      return false;
    }
    if st.stream == Groundworks && v.optionWeights == [] && v.percentages != [] && v.expiresAt == 0 {
      return false;
    }
    ok := ValidateWeightedVoter(st, v, options);
  }

  method ValidateStream(st: StreamState) returns (ok: bool)
    ensures ok <==> StreamValid(st)
  {
    hide Listed, OptionValid, VoterValid, EntrySum;
    if st.rewardIndex < 0 || st.totalWeight < 0 || st.lastUpkeep < 0 {
      return false;
    }
    var options;
    ok, options := ValidateOptions(st);
    if !ok {
      return;
    }
    var seen: set<VoterKey> := {};
    for n := 0 to |st.voters|
      invariant forall i | 0 <= i < n :: st.voters[i].key in seen && VoterValid(st, st.voters[i].voter)
      invariant forall x | x in seen :: exists i | 0 <= i < n :: st.voters[i].key == x
      invariant forall i, j | 0 <= i < j < n :: st.voters[i].key != st.voters[j].key
    {
      if st.voters[n].key in seen {
        return false;
      }
      seen := seen + {st.voters[n].key};
      ok := ValidateVoter(st, st.voters[n].voter, options);
      if !ok {
        return;
      }
    }
    ok := true;
  }

  /** Refuses a genesis file exactly when it breaks one of the module's rules. */
  method Validate(gs: GenesisState) returns (ok: bool)
    ensures ok <==> Valid(gs)
  {
    hide StreamValid;
    if gs.seed < 0 || (gs.streams != [] && gs.seed > 0) || gs.residue < 0 {
      return false;
    }
    var seen: set<StreamId> := {};
    for n := 0 to |gs.streams|
      invariant forall i | 0 <= i < n :: gs.streams[i].stream in seen && StreamValid(gs.streams[i])
      invariant forall x | x in seen :: exists i | 0 <= i < n :: gs.streams[i].stream == x
      invariant forall i, j | 0 <= i < j < n :: gs.streams[i].stream != gs.streams[j].stream
    {
      if gs.streams[n].stream in seen {
        return false;
      }
      seen := seen + {gs.streams[n].stream};
      ok := ValidateStream(gs.streams[n]);
      if !ok {
        return;
      }
    }
    return true;
  }

  method RestoreOption(k: Keeper, s: StreamId, e: OptionEntry, now: nat)
    modifies k
    ensures k.View() == AllocationGenesis.RestoreOption(old(k.View()), s, e, now)
  {
    hide AllocationLedger.SetOption;
    k.SetOption(s, e.id, e.option, now);
    if e.option.kind == Integrated && !e.option.removed {
      k.Put(s, k.At(s).(integrated := k.At(s).integrated + {e.id}));
    }
  }

  /** Writes one exported stream back, rebuilding the sums, the handler set, the removal
      schedule and the lease queue. */
  method RestoreStream(k: Keeper, g: StreamState, now: nat)
    modifies k
    ensures k.View() == AllocationGenesis.RestoreStream(old(k.View()), g, now)
  {
    hide AllocationGenesis.RestoreOption;
    var s := g.stream;
    var lastUpkeep := g.lastUpkeep;
    if lastUpkeep != 0 && now > lastUpkeep {
      lastUpkeep := now;
    }
    k.Put(s, k.At(s).(
      index := g.rewardIndex, total := g.totalWeight, epoch := g.epoch, seqNo := g.optionSeq,
        lastUpkeep := lastUpkeep));
    ghost var l := k.View();
    for i := 0 to |g.options|
      invariant k.View() == RestoreOptions(l, s, g.options[..i], now)
    {
      assert g.options[..i + 1][..i] == g.options[..i];
      RestoreOption(k, s, g.options[i], now);
    }
    assert g.options[..|g.options|] == g.options;
    var voters, leases := RestoreVoters(g.voters);
    k.Put(s, k.At(s).(voters := voters, lapses := k.At(s).lapses + leases));
  }

  method RestoreVoters(vs: seq<VoterEntry>) returns (voters: map<VoterKey, Voter>, leases: set<(int, VoterKey)>)
    ensures voters == VoterMap(vs) && leases == LeaseSet(vs)
  {
    voters, leases := map[], {};
    for i := 0 to |vs|
      invariant voters == VoterMap(vs[..i]) && leases == LeaseSet(vs[..i])
    {
      assert vs[..i + 1][..i] == vs[..i];
      voters := voters[vs[i].key := vs[i].voter];
      assert LeaseSet(vs[..i + 1]) ==
        LeaseSet(vs[..i]) + (if vs[i].voter.expiresAt != 0 then {(vs[i].voter.expiresAt, vs[i].key)} else {}) by {
        forall x | x in LeaseSet(vs[..i]) ensures x in LeaseSet(vs[..i + 1]) {
          var j :| 0 <= j < i && vs[..i][j].voter.expiresAt != 0 && x == (vs[..i][j].voter.expiresAt, vs[..i][j].key);
          assert vs[..i + 1][j] == vs[..i][j];
        }
        if vs[i].voter.expiresAt != 0 {
          assert vs[..i + 1][i] == vs[i];
        }
      }
      if vs[i].voter.expiresAt != 0 {
        leases := leases + {(vs[i].voter.expiresAt, vs[i].key)};
      }
    }
    assert vs[..|vs|] == vs;
  }
}
