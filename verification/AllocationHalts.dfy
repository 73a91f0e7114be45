/** Why an unsound file halts the chain: from any state, calls that settle what is not
    covered, withdraw votes that outweigh the total, or bring a later epoch's vote alive. */
module AllocationHalts {
  import opened AllocationTypes
  import opened AllocationLedger
  import opened AllocationBooks
  import opened AllocationSettle
  import opened AllocationVotes
  import opened AllocationOps
  import opened AllocationPayments
  import opened AllocationBlocks
  import opened AllocationRun
  import opened AllocationGenesis
  import opened AllocationImport
  import Orders

  /** Some run of admissible calls from l reaches a halting state. */
  ghost predicate CanHalt(l: Ledger) {
    exists calls, n: nat | n <= |calls| && AdmissibleRun(l, calls) :: Halts(After(l, calls, n))
  }

  /** Calls whose admissibility depends on no state. */
  predicate Plain(op: Op) {
    op.Clear? || op.Reset? || (op.Draw? && op.ppm == 0)
  }

  lemma PlainRun(l: Ledger, calls: seq<(Op, nat)>)
    requires forall i | 0 <= i < |calls| :: Plain(calls[i].0)
    ensures AdmissibleRun(l, calls)
  {
  }

  // ---------------------------------------------------------------- claims not covered

  /** No time is left to settle: the cursor is unset, or not before the block. */
  predicate Late(st: Stream, now: nat) {
    st.lastUpkeep == 0 || st.lastUpkeep >= now
  }

  /** What settling an option would add to its balance. */
  function Gain(l: Ledger, p: (StreamId, int)): int
    requires p.1 in l.At(p.0).options
  {
    SettleOption(l.At(p.0).options[p.1], l.At(p.0).index).accrued - l.At(p.0).options[p.1].accrued
  }

  function Gains(l: Ledger, ps: seq<(StreamId, int)>): int
    requires forall i | 0 <= i < |ps| :: ps[i].1 in l.At(ps[i].0).options
  {
    if ps == [] then 0 else Gains(l, ps[..|ps| - 1]) + Gain(l, ps[|ps| - 1])
  }

  /** Draws of nothing, which settle the options they name. */
  function Draws(ps: seq<(StreamId, int)>, now: nat): (r: seq<(Op, nat)>)
    ensures |r| == |ps| && forall i | 0 <= i < |ps| :: r[i] == (Draw(ps[i].0, ps[i].1, 0), now)
  {
    seq(|ps|, i requires 0 <= i < |ps| => (Draw(ps[i].0, ps[i].1, 0), now))
  }

  lemma NoTime(l: Ledger, s: StreamId, now: nat)
    requires Late(l.At(s), now)
    ensures var m := AdvanceTo(l, s, now);
      && m == l.With(s, m.At(s)).(history := m.history) && m.At(s) == l.At(s).(lastUpkeep := m.At(s).lastUpkeep)
      && Late(m.At(s), now)
  {
    hide Orders.Least;
  }

  /** l after the draws so far: the options named are settled, the others as they were. */
  ghost predicate Drawn0(l: Ledger, m: Ledger, ps: seq<(StreamId, int)>, now: nat)
    requires forall i | 0 <= i < |ps| :: ps[i].1 in l.At(ps[i].0).options
  {
    && m.summedAccrued == l.summedAccrued + Gains(l, ps)
    && m.held == l.held && m.residue == l.residue
    && (forall s :: Late(m.At(s), now) && m.At(s).index == l.At(s).index)
    && (forall s, id | id in l.At(s).options && (s, id) !in ps ::
          id in m.At(s).options && m.At(s).options[id] == l.At(s).options[id])
  }

  lemma DrawNothing(m: Ledger, s: StreamId, id: int, now: nat)
    requires id in m.At(s).options && Late(m.At(s), now)
    ensures var n := Step(m, Draw(s, id, 0), now);
      && n.summedAccrued == m.summedAccrued + Gain(m, (s, id)) && n.held == m.held && n.residue == m.residue
      && n.At(Other(s)) == m.At(Other(s)) && Late(n.At(s), now) && n.At(s).index == m.At(s).index
      && n.At(s).options == m.At(s).options[id := SettleOption(m.At(s).options[id], m.At(s).index)]
  {
    hide SetOption, AdvanceTo, SettleOption;
    NoTime(m, s, now);
    var l1 := AdvanceTo(m, s, now);
    var o := SettleOption(m.At(s).options[id], m.At(s).index);
    assert o.accrued * 0 == 0 && Drawn(o, 0) == 0;
    assert o.(accrued := o.accrued - 0) == o;
    SetOptionFrame(l1, s, id, o, now);
  }

  lemma {:induction false} DrawsSettle(l: Ledger, ps: seq<(StreamId, int)>, now: nat, n: nat)
    requires forall i | 0 <= i < |ps| :: ps[i].1 in l.At(ps[i].0).options
    requires forall i, j | 0 <= i < j < |ps| :: ps[i] != ps[j]
    requires (forall s :: Late(l.At(s), now)) && n <= |ps|
    ensures Drawn0(l, After(l, Draws(ps, now), n), ps[..n], now)
  {
    hide Step, Draws, Gain;
    if n > 0 {
      DrawsSettle(l, ps, now, n - 1);
      var m := After(l, Draws(ps, now), n - 1);
      var (s, id) := ps[n - 1];
      assert ps[..n][..n - 1] == ps[..n - 1] && ps[..n][n - 1] == ps[n - 1];
      assert (s, id) !in ps[..n - 1];
      assert m.At(s).options[id] == l.At(s).options[id];
      SameGain(l, m, s, id);
      DrawNothing(m, s, id, now);
      DrawStep(l, ps, now, n);
      Drawn0More(l, m, Step(m, Draw(s, id, 0), now), ps, s, id, n, now);
    }
  }

  lemma SameGain(l: Ledger, m: Ledger, s: StreamId, id: int)
    requires id in l.At(s).options && id in m.At(s).options
    requires m.At(s).options[id] == l.At(s).options[id] && m.At(s).index == l.At(s).index
    ensures Gain(m, (s, id)) == Gain(l, (s, id))
  {
  }

  lemma DrawStep(l: Ledger, ps: seq<(StreamId, int)>, now: nat, n: nat)
    requires 0 < n <= |ps|
    ensures After(l, Draws(ps, now), n) == Step(After(l, Draws(ps, now), n - 1), Draw(ps[n - 1].0, ps[n - 1].1, 0), now)
  {
  }

  lemma Drawn0More(l: Ledger, m: Ledger, k: Ledger, ps: seq<(StreamId, int)>, s: StreamId, id: int, n: nat, now: nat)
    requires forall i | 0 <= i < |ps| :: ps[i].1 in l.At(ps[i].0).options
    requires 0 < n <= |ps| && ps[n - 1] == (s, id) && Drawn0(l, m, ps[..n - 1], now)
    requires k.summedAccrued == m.summedAccrued + Gain(l, (s, id)) && k.held == m.held && k.residue == m.residue
    requires k.At(Other(s)) == m.At(Other(s)) && Late(k.At(s), now) && k.At(s).index == m.At(s).index
    requires k.At(s).options.Keys == m.At(s).options.Keys
    requires forall j | j in m.At(s).options && j != id :: k.At(s).options[j] == m.At(s).options[j]
    ensures Drawn0(l, k, ps[..n], now)
  {
    hide Gain, Late;
    assert ps[..n][..n - 1] == ps[..n - 1] && ps[..n] == ps[..n - 1] + [(s, id)];
    forall s' ensures Late(k.At(s'), now) && k.At(s').index == l.At(s').index {
      assert s' == s || s' == Other(s);
    }
    forall s', j | j in l.At(s').options && (s', j) !in ps[..n]
      ensures j in k.At(s').options && k.At(s').options[j] == l.At(s').options[j]
    {
      assert (s', j) !in ps[..n - 1] && (s', j) != (s, id);
      assert s' == s || s' == Other(s);
    }
  }

  /** A state whose account cannot cover residue, balances and what settling some options
      adds to them can halt: settling those options is enough. */
  lemma UncoveredHalts(l: Ledger, ps: seq<(StreamId, int)>, now: nat)
    requires forall i | 0 <= i < |ps| :: ps[i].1 in l.At(ps[i].0).options
    requires forall i, j | 0 <= i < j < |ps| :: ps[i] != ps[j]
    requires (forall s :: Late(l.At(s), now)) && l.held < l.summedAccrued + l.residue + Gains(l, ps)
    ensures CanHalt(l)
  {
    hide After, AdmissibleRun, Gains, Late;
    DrawsSettle(l, ps, now, |ps|);
    assert ps[..|ps|] == ps;
    PlainRun(l, Draws(ps, now));
    assert Halts(After(l, Draws(ps, now), |ps|));
  }

  // ---------------------------------------------------------------- votes that outweigh the total

  lemma {:induction false} LiveSumNegated(options: map<int, AllocationOption>, cs: seq<Contribution>)
    ensures LiveSum(options, Negated(cs)) == -LiveSum(options, cs)
  {
    if cs != [] {
      LiveSumNegated(options, cs[..|cs| - 1]);
      assert Negated(cs)[..|cs| - 1] == Negated(cs[..|cs| - 1]);
    }
  }

  /** What a stored vote puts on unstruck options now. */
  function Claimed(st: Stream, key: VoterKey): int {
    LiveSum(st.options, Previous(st, key))
  }

  ghost predicate SameLive(a: Stream, b: Stream) {
    forall id :: Live(a.options, id) == Live(b.options, id)
  }

  /** Withdrawing a vote takes it off the running sum, and off the total down to zero. */
  lemma ClearVoterShape(l: Ledger, s: StreamId, key: VoterKey, now: nat)
    ensures var a, b := l.At(s), ClearVoter(l, s, key, now).At(s);
      && b.summed == a.summed - Claimed(a, key) && b.total == Clamped(a.total - Claimed(a, key))
      && b.voters == a.voters - {key} && b.epoch == a.epoch && SameLive(a, b)
  {
    hide AddContributions, LiveSum, Previous, Unqueued;
    var st := l.At(s);
    var off := Negated(Previous(st, key));
    var l1 := l.With(s, st.(lapses := Unqueued(st, key)));
    var l2 := AddContributions(l1, s, off, now);
    AddContributionsFrame(l1, s, off, now);
    AddContributionsFrame(l2, s, [], now);
    LiveSumNegated(st.options, Previous(st, key));
    NoLiveSum(st.options);
    NoLiveSum(l2.At(s).options);
    assert SplitContributions([], 0) == [] && ExistingSplit(st.options, []) == [];
  }

  lemma NoLiveSum(options: map<int, AllocationOption>)
    ensures LiveSum(options, []) == 0
  {
  }

  function ClaimedBy(st: Stream, keys: seq<VoterKey>): int {
    if keys == [] then 0 else ClaimedBy(st, keys[..|keys| - 1]) + Claimed(st, keys[|keys| - 1])
  }

  function Clears(s: StreamId, keys: seq<VoterKey>, now: nat): (r: seq<(Op, nat)>)
    ensures |r| == |keys| && forall i | 0 <= i < |keys| :: r[i] == (Clear(s, keys[i]), now)
  {
    seq(|keys|, i requires 0 <= i < |keys| => (Clear(s, keys[i]), now))
  }

  /** As long as no state halts, both totals fall together by what the votes claimed. */
  ghost predicate Withdrawing(a: Stream, b: Stream, keys: seq<VoterKey>) {
    && b.total == b.summed == a.summed - ClaimedBy(a, keys)
    && SameLive(a, b) && b.epoch == a.epoch
    && (forall k | k !in keys :: (k in a.voters <==> k in b.voters) && (k in a.voters ==> b.voters[k] == a.voters[k]))
  }

  lemma {:induction false} ClearsKeep(l: Ledger, s: StreamId, keys: seq<VoterKey>, now: nat, n: nat)
    requires forall i, j | 0 <= i < j < |keys| :: keys[i] != keys[j]
    requires n <= |keys| && l.At(s).total == l.At(s).summed
    requires forall k: nat | k <= n :: !Halts(After(l, Clears(s, keys, now), k))
    ensures Withdrawing(l.At(s), After(l, Clears(s, keys, now), n).At(s), keys[..n])
    ensures n > 0 ==> After(l, Clears(s, keys, now), n).At(s).total >= 0
  {
    hide ClearVoter, Clears, Claimed;
    if n > 0 {
      ClearsKeep(l, s, keys, now, n - 1);
      var m, key := After(l, Clears(s, keys, now), n - 1), keys[n - 1];
      ClearStep(l, s, keys, now, n);
      ClearVoterShape(m, s, key, now);
      assert keys[..n][..n - 1] == keys[..n - 1] && keys[..n] == keys[..n - 1] + [key];
      assert key !in keys[..n - 1];
      SameClaim(l.At(s), m.At(s), key);
      assert !Halts(After(l, Clears(s, keys, now), n));
    }
  }

  lemma ClearStep(l: Ledger, s: StreamId, keys: seq<VoterKey>, now: nat, n: nat)
    requires 0 < n <= |keys|
    ensures After(l, Clears(s, keys, now), n) == ClearVoter(After(l, Clears(s, keys, now), n - 1), s, keys[n - 1], now)
  {
    hide ClearVoter;
  }

  lemma SameClaim(a: Stream, b: Stream, key: VoterKey)
    requires SameLive(a, b) && a.epoch == b.epoch
    requires (key in a.voters <==> key in b.voters) && (key in a.voters ==> b.voters[key] == a.voters[key])
    ensures Claimed(a, key) == Claimed(b, key)
  {
    hide LiveSum;
    LiveSumAgrees(a.options, b.options, Previous(a, key));
  }

  /** A stream whose stored votes put more on its unstruck options than its total weight
      can halt: withdrawing those votes is enough. */
  lemma OverclaimedHalts(l: Ledger, s: StreamId, keys: seq<VoterKey>, now: nat)
    requires forall i, j | 0 <= i < j < |keys| :: keys[i] != keys[j]
    requires 0 <= l.At(s).total == l.At(s).summed < ClaimedBy(l.At(s), keys)
    ensures CanHalt(l)
  {
    hide After, AdmissibleRun, Halts;
    var calls := Clears(s, keys, now);
    PlainRun(l, calls);
    if forall n: nat | n <= |keys| :: !Halts(After(l, calls, n)) {
      ClearsKeep(l, s, keys, now, |keys|);
      assert keys[..|keys|] == keys;
    }
  }

  // ---------------------------------------------------------------- votes of a later epoch

  /** What a reset needs and keeps, whether or not the votes were ever counted. */
  ghost predicate Resettable(l: Ledger, s: StreamId) {
    Books(l) && LeasesRespected(l.history) && AllQueued(l.At(s)) && l.At(s).total == l.At(s).summed
  }

  lemma AdvanceBooks(l: Ledger, s: StreamId, now: nat)
    requires Resettable(l, s)
    ensures var m := AdvanceTo(l, s, now);
      Books(m) && LeasesRespected(m.history) && OnlySettled(l, m, s)
  {
    hide Slack, Schedule, Idle, SettleTo, Weight, HeldTarget, LeasesRespected;
    var st := l.At(s);
    assert StreamBooks(st);
    var at := if st.lastUpkeep != 0 then HeldTarget(st, now) else now;
    SettleToBooks(l, s, at);
    SettleToFrame(l, s, at);
    if st.lastUpkeep != 0 {
      forall x | x in CountedLeases(st) ensures at <= x * NANOS_PER_SECOND {
        HeldTargetBeforeLeases(st, now, x);
      }
      SettleToLeases(l, s, at);
    } else {
      QuietFrame(l, s, at);
    }
  }

  lemma ResetShape(l: Ledger, s: StreamId, now: nat)
    requires Resettable(l, s)
    ensures var m := ResetAllocations(l, s, now);
      && Resettable(m, s) && m.At(s).total == 0 && m.At(s).epoch == l.At(s).epoch + 1
      && m.At(s).voters == l.At(s).voters && SameLive(l.At(s), m.At(s))
  {
    hide Books, LeasesRespected, AdvanceTo, RetireAll, Weight, OnlySettled, Retired, SameLive, AllQueued,
      Orders.Ascending;
    AdvanceBooks(l, s, now);
    var l1 := AdvanceTo(l, s, now);
    Settling(l, l1, s);
    var ids := Orders.Ascending(l1.At(s).options.Keys);
    RetireAllBooks(l1, s, ids, now);
    var l2 := RetireAll(l1, s, ids, now);
    EveryRetired(l1, l2, s, ids);
    AllRetired(l2, s);
    var m := ResetAllocations(l, s, now);
    VotesOutsideBooks(l2, m, s);
    SameSlate(l.At(s), l1.At(s), l2.At(s), m.At(s));
  }

  lemma EveryRetired(l: Ledger, m: Ledger, s: StreamId, ids: seq<int>)
    requires Retired(l, m, s, ids) && forall id | id in l.At(s).options :: id in ids
    ensures forall id | id in m.At(s).options :: m.At(s).options[id].amount == 0
    ensures SameLive(l.At(s), m.At(s)) && SameVotes(l.At(s), m.At(s))
  {
  }

  lemma SameSlate(a: Stream, b: Stream, c: Stream, d: Stream)
    requires a.options == b.options && SameLive(b, c) && c.options == d.options
    requires a.voters == b.voters == c.voters == d.voters && a.lapses == b.lapses == c.lapses == d.lapses
    ensures SameLive(a, d) && (AllQueued(a) ==> AllQueued(d))
  {
  }

  lemma Settling(l: Ledger, m: Ledger, s: StreamId)
    requires OnlySettled(l, m, s)
    ensures m.At(s).options == l.At(s).options && m.At(s).voters == l.At(s).voters && m.At(s).epoch == l.At(s).epoch
    ensures m.At(s).lapses == l.At(s).lapses
  {
  }

  lemma AllRetired(l: Ledger, s: StreamId)
    requires Books(l) && forall id | id in l.At(s).options :: l.At(s).options[id].amount == 0
    ensures l.At(s).summed == 0
  {
    hide Schedule, Idle;
    assert StreamBooks(l.At(s));
    Weightless(l.At(s).options);
  }

  function Resets(s: StreamId, n: nat, now: nat): (r: seq<(Op, nat)>)
    ensures |r| == n && forall i | 0 <= i < n :: r[i] == (Reset(s), now)
  {
    seq(n, _ => (Reset(s), now))
  }

  lemma {:induction false} ResetsShape(l: Ledger, s: StreamId, calls: seq<(Op, nat)>, n: nat, now: nat)
    requires Resettable(l, s) && n <= |calls| && forall i | 0 <= i < n :: calls[i] == (Reset(s), now)
    ensures var m := After(l, calls, n);
      && Resettable(m, s) && (n > 0 ==> m.At(s).total == 0) && m.At(s).epoch == l.At(s).epoch + n
      && m.At(s).voters == l.At(s).voters && SameLive(l.At(s), m.At(s))
  {
    hide Resettable, ResetAllocations;
    if n > 0 {
      ResetsShape(l, s, calls, n - 1, now);
      ResetShape(After(l, calls, n - 1), s, now);
    }
  }

  /** A stream holding a vote of a later epoch that puts weight on an unstruck option can
      halt: resets up to that epoch bring the vote alive uncounted, and withdrawing it is
      enough. */
  lemma EarlyHalts(l: Ledger, s: StreamId, key: VoterKey, now: nat)
    requires Resettable(l, s) && key in l.At(s).voters && l.At(s).voters[key].epoch > l.At(s).epoch
    requires LiveSum(l.At(s).options, Contributions(l.At(s).voters[key])) > 0
    ensures CanHalt(l)
  {
    hide After, AdmissibleRun, Resettable, ClearVoter, LiveSum, Contributions;
    var v := l.At(s).voters[key];
    var n := v.epoch - l.At(s).epoch;
    var calls := Resets(s, n, now) + [(Clear(s, key), now)];
    PlainRun(l, calls);
    ResetsShape(l, s, calls, n, now);
    var m := After(l, calls, n);
    TotalsAgree(m, s);
    ClearVoterShape(m, s, key, now);
    LiveSumAgrees(l.At(s).options, m.At(s).options, Contributions(v));
    LastStep(l, calls, n);
    assert Halts(After(l, calls, n + 1));
  }

  lemma TotalsAgree(l: Ledger, s: StreamId)
    requires Resettable(l, s)
    ensures l.At(s).total == l.At(s).summed
  {
  }

  lemma LastStep(l: Ledger, calls: seq<(Op, nat)>, n: nat)
    requires n < |calls| && calls[n].0.Clear?
    ensures After(l, calls, n + 1) == ClearVoter(After(l, calls, n), calls[n].0.stream, calls[n].0.key, calls[n].1)
  {
    hide ClearVoter;
  }

  // ---------------------------------------------------------------- files

  function OptionMap(es: seq<OptionEntry>): map<int, AllocationOption> {
    if es == [] then map[] else OptionMap(es[..|es| - 1])[es[|es| - 1].id := es[|es| - 1].option]
  }

  /** What the listed voters of the stream's epoch put on its unstruck options. */
  function FileClaim(vs: seq<VoterEntry>, options: map<int, AllocationOption>, epoch: nat): int {
    if vs == [] then 0 else
    var v := vs[|vs| - 1].voter;
    FileClaim(vs[..|vs| - 1], options, epoch) + if v.epoch == epoch then LiveSum(options, Contributions(v)) else 0
  }

  /** The listed votes outweigh the stream's total. */
  predicate Overclaimed(g: StreamState) {
    FileClaim(g.voters, OptionMap(g.options), g.epoch) > g.totalWeight
  }

  /** A listed vote is of a later epoch and puts weight on an unstruck option. */
  predicate Early(g: StreamState) {
    exists i | 0 <= i < |g.voters| :: g.voters[i].voter.epoch > g.epoch
      && LiveSum(OptionMap(g.options), Contributions(g.voters[i].voter)) > 0
  }

  /** What settling the listed options adds to their balances. */
  function EntryGain(es: seq<OptionEntry>, index: int): int {
    if es == [] then 0 else
    var o := es[|es| - 1].option;
    EntryGain(es[..|es| - 1], index) + SettleOption(o, index).accrued - o.accrued
  }

  function FileGain(gs: seq<StreamState>): int {
    if gs == [] then 0 else FileGain(gs[..|gs| - 1]) + EntryGain(gs[|gs| - 1].options, gs[|gs| - 1].rewardIndex)
  }

  /** The account does not cover the residue and every option's balance once settled. */
  predicate Uncovered(gs: GenesisState, held: int) {
    held < gs.residue + FileAccrued(gs.streams) + FileGain(gs.streams)
  }

  lemma {:induction false} HoldsOptionMap(es: seq<OptionEntry>)
    requires forall i, j | 0 <= i < j < |es| :: es[i].id != es[j].id
    ensures Holds(OptionMap(es), es)
  {
    hide Holds;
    if es == [] {
      HoldsNothing();
    } else {
      HoldsOptionMap(es[..|es| - 1]);
      HoldsMore(OptionMap(es[..|es| - 1]), es[..|es| - 1], es[|es| - 1]);
      assert es[..|es| - 1] + [es[|es| - 1]] == es;
    }
  }

  function KeysOf(vs: seq<VoterEntry>): (r: seq<VoterKey>)
    ensures |r| == |vs| && forall i | 0 <= i < |vs| :: r[i] == vs[i].key
  {
    seq(|vs|, i requires 0 <= i < |vs| => vs[i].key)
  }

  lemma {:induction false} ClaimOfFile(st: Stream, vs: seq<VoterEntry>)
    requires forall i | 0 <= i < |vs| :: vs[i].key in st.voters && st.voters[vs[i].key] == vs[i].voter
    ensures ClaimedBy(st, KeysOf(vs)) == FileClaim(vs, st.options, st.epoch)
  {
    hide LiveSum, Contributions;
    if vs != [] {
      ClaimOfFile(st, vs[..|vs| - 1]);
      assert KeysOf(vs)[..|vs| - 1] == KeysOf(vs[..|vs| - 1]);
      NoLiveSum(st.options);
    }
  }

  lemma OverclaimedStream(l: Ledger, g: StreamState, now: nat)
    requires Restored(l.At(g.stream), g, now) && StreamValid(g) && Overclaimed(g)
    ensures CanHalt(l)
  {
    hide CanHalt, Holds, VoterMap, OptionMap, FileClaim, HandlerSet, AllQueued, EntrySum, OptionValid, VoterValid,
      ClaimedBy;
    var st := l.At(g.stream);
    HoldsOptionMap(g.options);
    SameOptions(st.options, OptionMap(g.options), g.options);
    VoterMapHas(g.voters);
    ClaimOfFile(st, g.voters);
    OverclaimedHalts(l, g.stream, KeysOf(g.voters), now);
  }

  lemma EarlyStream(l: Ledger, g: StreamState, now: nat)
    requires Books(l) && LeasesRespected(l.history) && Restored(l.At(g.stream), g, now) && StreamValid(g) && Early(g)
    ensures CanHalt(l)
  {
    hide CanHalt, Books, LeasesRespected, Holds, VoterMap, OptionMap, HandlerSet, AllQueued, EntrySum, OptionValid,
      VoterValid;
    var st := l.At(g.stream);
    HoldsOptionMap(g.options);
    SameOptions(st.options, OptionMap(g.options), g.options);
    VoterMapHas(g.voters);
    var i :| 0 <= i < |g.voters| && g.voters[i].voter.epoch > g.epoch
      && LiveSum(OptionMap(g.options), Contributions(g.voters[i].voter)) > 0;
    EarlyHalts(l, g.stream, g.voters[i].key, now);
  }

  /** Every option of a file, by stream and id. */
  function EntryPairs(s: StreamId, es: seq<OptionEntry>): (r: seq<(StreamId, int)>)
    ensures |r| == |es| && forall i | 0 <= i < |es| :: r[i] == (s, es[i].id)
  {
    seq(|es|, i requires 0 <= i < |es| => (s, es[i].id))
  }

  function FilePairs(gs: seq<StreamState>): seq<(StreamId, int)> {
    if gs == [] then [] else FilePairs(gs[..|gs| - 1]) + EntryPairs(gs[|gs| - 1].stream, gs[|gs| - 1].options)
  }

  lemma {:induction false} PairsGain(l: Ledger, ps: seq<(StreamId, int)>, s: StreamId, es: seq<OptionEntry>, index: int)
    requires forall i | 0 <= i < |ps| :: ps[i].1 in l.At(ps[i].0).options
    requires forall i | 0 <= i < |es| :: es[i].id in l.At(s).options && l.At(s).options[es[i].id] == es[i].option
    requires l.At(s).index == index
    ensures var qs := ps + EntryPairs(s, es);
      && (forall i | 0 <= i < |qs| :: qs[i].1 in l.At(qs[i].0).options)
      && Gains(l, qs) == Gains(l, ps) + EntryGain(es, index)
  {
    hide SettleOption;
    var qs := ps + EntryPairs(s, es);
    if es == [] {
      assert qs == ps;
    } else {
      var n := |es| - 1;
      PairsGain(l, ps, s, es[..n], index);
      assert qs[..|qs| - 1] == ps + EntryPairs(s, es[..n]);
    }
  }

  ghost predicate AllRestored(l: Ledger, gs: seq<StreamState>, now: nat) {
    forall i | 0 <= i < |gs| :: StreamValid(gs[i]) && Restored(l.At(gs[i].stream), gs[i], now)
  }

  /** Distinct options of listed streams. */
  ghost predicate Proper(ps: seq<(StreamId, int)>, gs: seq<StreamState>) {
    && (forall i | 0 <= i < |ps| :: Lists(gs, ps[i].0))
    && (forall i, j | 0 <= i < j < |ps| :: ps[i] != ps[j])
  }

  lemma {:induction false} FilePairsGain(l: Ledger, gs: seq<StreamState>, now: nat)
    requires AllRestored(l, gs, now)
    requires forall i, j | 0 <= i < j < |gs| :: gs[i].stream != gs[j].stream
    ensures var ps := FilePairs(gs);
      && (forall i | 0 <= i < |ps| :: ps[i].1 in l.At(ps[i].0).options)
      && Proper(ps, gs) && Gains(l, ps) == FileGain(gs)
  {
    hide Gains, EntryGain, Restored, StreamValid, EntryPairs;
    if gs == [] {
      NoGains(l);
    } else {
      var front, g := gs[..|gs| - 1], gs[|gs| - 1];
      forall i | 0 <= i < |front| ensures StreamValid(front[i]) && Restored(l.At(front[i].stream), front[i], now) {
        assert front[i] == gs[i];
      }
      FilePairsGain(l, front, now);
      RestoredEntries(l, g, now);
      PairsGain(l, FilePairs(front), g.stream, g.options, g.rewardIndex);
      assert front + [g] == gs;
      PairsProper(front, g, FilePairs(front));
    }
  }

  lemma RestoredEntries(l: Ledger, g: StreamState, now: nat)
    requires StreamValid(g) && Restored(l.At(g.stream), g, now)
    ensures forall i | 0 <= i < |g.options| ::
      g.options[i].id in l.At(g.stream).options && l.At(g.stream).options[g.options[i].id] == g.options[i].option
    ensures l.At(g.stream).index == g.rewardIndex
    ensures forall i, j | 0 <= i < j < |g.options| :: g.options[i].id != g.options[j].id
  {
  }

  lemma NoGains(l: Ledger)
    ensures Gains(l, []) == 0
  {
  }

  lemma PairsProper(front: seq<StreamState>, g: StreamState, ps: seq<(StreamId, int)>)
    requires Proper(ps, front) && !Lists(front, g.stream)
    requires forall i, j | 0 <= i < j < |g.options| :: g.options[i].id != g.options[j].id
    ensures Proper(ps + EntryPairs(g.stream, g.options), front + [g])
  {
    hide Lists;
    var gs, qs := front + [g], ps + EntryPairs(g.stream, g.options);
    ListsMore(front, g);
    forall i | 0 <= i < |qs| ensures Lists(gs, qs[i].0) {
      assert i < |ps| ==> Lists(front, ps[i].0);
    }
    forall i, j | 0 <= i < j < |qs| ensures qs[i] != qs[j] {
      if i < |ps| <= j {
        assert Lists(front, ps[i].0) && qs[j].0 == g.stream;
      } else if |ps| <= i {
        assert qs[i].1 == g.options[i - |ps|].id && qs[j].1 == g.options[j - |ps|].id;
      }
    }
  }

  lemma ListsMore(front: seq<StreamState>, g: StreamState)
    ensures Lists(front + [g], g.stream) && forall s | Lists(front, s) :: Lists(front + [g], s)
  {
    var gs := front + [g];
    assert gs[|front|].stream == g.stream;
    forall s | Lists(front, s) ensures Lists(gs, s) {
      var i :| 0 <= i < |front| && front[i].stream == s;
      assert gs[i].stream == s;
    }
  }

  lemma RestoredLate(l: Ledger, gs: seq<StreamState>, now: nat)
    requires AllRestored(l, gs, now) && forall s | !Lists(gs, s) :: l.At(s) == EMPTY_STREAM
    ensures forall s :: Late(l.At(s), now)
  {
    forall s ensures Late(l.At(s), now) {
      if i :| 0 <= i < |gs| && gs[i].stream == s {
        assert Restored(l.At(gs[i].stream), gs[i], now);
      } else {
        assert !Lists(gs, s);
      }
    }
  }

  /** An accepted file halts in some run when its account does not cover residue and settled
      balances, when a stream's votes outweigh its total, or when a vote of a later epoch
      puts weight on an unstruck option. */
  lemma UnsoundFileHalts(gs: GenesisState, held: int, now: nat)
    requires InitGenesis(gs, held, now).Done? && gs.streams != []
    requires Uncovered(gs, held) || exists i | 0 <= i < |gs.streams| ::
      Overclaimed(gs.streams[i]) || Early(gs.streams[i])
    ensures CanHalt(InitGenesis(gs, held, now).ledger)
  {
    hide CanHalt, Books, LeasesRespected, StreamValid, Restored, RestoreStreams, Overclaimed, Early, Slack, FileWorth,
      FileAccrued, FileGain, FilePairs, Gains, Late;
    var l := EmptyLedger(gs.residue, held);
    SolventStart(gs.residue, held);
    RestoredStreams(l, gs.streams, now);
    var m := RestoreStreams(l, gs.streams, now);
    assert AllRestored(m, gs.streams, now);
    if i :| 0 <= i < |gs.streams| && Overclaimed(gs.streams[i]) {
      OverclaimedStream(m, gs.streams[i], now);
    } else if i :| 0 <= i < |gs.streams| && Early(gs.streams[i]) {
      EarlyStream(m, gs.streams[i], now);
    } else {
      FilePairsGain(m, gs.streams, now);
      RestoredLate(m, gs.streams, now);
      UncoveredHalts(m, FilePairs(gs.streams), now);
    }
  }

  /** And no run from an accepted sound file does. */
  lemma SoundFileNeverHalts(gs: GenesisState, held: int, now: nat)
    requires InitGenesis(gs, held, now).Done? && SoundFile(gs, held)
    ensures !CanHalt(InitGenesis(gs, held, now).ledger)
  {
    hide InitGenesis, SoundFile, After, AdmissibleRun, Halts;
    var l := InitGenesis(gs, held, now).ledger;
    forall calls, n: nat | n <= |calls| && AdmissibleRun(l, calls) ensures !Halts(After(l, calls, n)) {
      FromSoundFile(gs, held, now, calls, n);
    }
  }
}
