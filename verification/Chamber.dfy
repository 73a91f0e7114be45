/** The assembly's end of block: the human chamber settles every due proposal before the
    stake house looks at the queue. */
module Chamber {

  // ---------------------------------------------------------------- the bar

  const WORD: nat := 0x1_0000_0000_0000_0000

  datatype Tally = Tally(yes: nat, no: nat)

  /** In 64-bit arithmetic, as the chain computes it. */
  predicate Carries(t: Tally, num: nat, den: nat) {
    !(t.yes == 0 && t.no == 0) && (t.yes * den) % WORD >= (((t.yes + t.no) % WORD) * num) % WORD
  }

  /** Two thirds, or three quarters on the expedited track. */
  predicate Approves(t: Tally, expedited: bool) {
    if expedited then Carries(t, 3, 4) else Carries(t, 2, 3)
  }

  /** Some vote was cast, and the share in favour reaches the bar. */
  predicate Reaches(t: Tally, expedited: bool) {
    t.yes + t.no > 0 && if expedited then 4 * t.yes >= 3 * (t.yes + t.no) else 3 * t.yes >= 2 * (t.yes + t.no)
  }

  /** The least unanimous tally whose product wraps. */
  function Wrapping(expedited: bool): Tally {
    if expedited then Tally(WORD / 4, 0) else Tally((WORD - 1) / 3 + 1, 0)
  }

  /** Up to n votes the bar is the share it names if and only if the largest product fits
      the word: 3n on the regular track, 4n on the expedited one. */
  lemma ApprovesExact(n: nat, expedited: bool)
    ensures (forall t: Tally | t.yes + t.no <= n :: Approves(t, expedited) <==> Reaches(t, expedited))
            <==> (if expedited then 4 else 3) * n < WORD
  {
    hide Approves, Reaches;
    if (if expedited then 4 else 3) * n < WORD {
      forall t: Tally | t.yes + t.no <= n ensures Approves(t, expedited) <==> Reaches(t, expedited) {
        FitsExact(t, expedited);
      }
    } else {
      ApprovesWraps(expedited);
      var t := Wrapping(expedited);
      assert t.yes + t.no <= n;
    }
  }

  lemma FitsExact(t: Tally, expedited: bool)
    requires (if expedited then 4 else 3) * (t.yes + t.no) < WORD
    ensures Approves(t, expedited) <==> Reaches(t, expedited)
  {
    var cast := t.yes + t.no;
    assert cast % WORD == cast && (2 * cast) % WORD == 2 * cast && (3 * t.yes) % WORD == 3 * t.yes;
    if expedited {
      assert (3 * cast) % WORD == 3 * cast && (4 * t.yes) % WORD == 4 * t.yes;
    }
  }

  /** From there on a wrapped product turns the answer round: a unanimous yes fails. */
  lemma ApprovesWraps(expedited: bool)
    ensures Reaches(Wrapping(expedited), expedited) && !Approves(Wrapping(expedited), expedited)
  {
  }

  // ---------------------------------------------------------------- state

  datatype Option<T> = Some(value: T) | None

  datatype Status = Voting | Failed | Other

  /** A governance proposal, or a record that cannot be decoded. */
  datatype Proposal = Garbled | Proposal(expedited: bool, status: Status, start: Option<int>, end: Option<int>)

  datatype Round = Round(number: nat, openedAt: int)

  datatype Entry = Entry(time: int, id: nat)

  /** Governance's proposals and active queue, and the chamber's own records. */
  datatype State = State(
    proposals: map<nat, Proposal>,
    queue: set<Entry>,
    rounds: map<nat, Round>,
    ballots: map<nat, nat>,
    tallies: map<nat, Tally>,
    closed: set<nat>,
    subjects: set<nat>
  )

  /** The block: its time, the regular voting period, and which proposals' resolution and
      refusal some other part of the chain makes fail. */
  datatype Block = Block(now: int, period: Option<int>, faults: set<nat>, hard: set<nat>)

  function Without<V>(m: map<nat, V>, id: nat): map<nat, V> {
    m - {id}
  }

  function TallyOf(s: State, id: nat): Tally {
    if id in s.ballots && s.ballots[id] in s.tallies then s.tallies[s.ballots[id]] else Tally(0, 0)
  }

  function EndRound(s: State, id: nat): State {
    if id !in s.ballots then s else
    s.(ballots := Without(s.ballots, id), tallies := Without(s.tallies, s.ballots[id]),
      closed := s.closed + {s.ballots[id]})
  }

  /** The round a proposal's votes count in: 0 until a later one opens. */
  function RoundOf(s: State, id: nat, p: Proposal): Option<nat>
    requires p.Proposal?
  {
    if id in s.rounds then Some(s.rounds[id].number)
    else if p.start.None? then None
    else Some(0)
  }

  function RoundNumber(s: State, id: nat): nat {
    if id in s.rounds then s.rounds[id].number else 0
  }

  function Forget(s: State, id: nat): State {
    s.(rounds := Without(s.rounds, id), subjects := s.subjects - {id})
  }

  /** Ends a refused proposal and takes it out of the queue. */
  function Fail(s: State, id: nat, p: Proposal): Option<State>
    requires p.Proposal?
  {
    if p.end.None? then None else
    Some(s.(proposals := s.proposals[id := p.(status := Failed)], queue := s.queue - {Entry(p.end.value, id)}))
  }

  /** A regular round can follow: it would end after this block. */
  predicate Demotable(b: Block, p: Proposal)
    requires p.Proposal?
  {
    b.period.Some? && p.start.Some? && p.end.Some? && p.start.value + b.period.value > b.now
  }

  function Demote(s: State, b: Block, id: nat, p: Proposal): State
    requires p.Proposal? && Demotable(b, p)
  {
    var end := p.start.value + b.period.value;
    s.(proposals := s.proposals[id := p.(expedited := false, end := Some(end))],
       queue := s.queue - {Entry(p.end.value, id)} + {Entry(end, id)},
       rounds := s.rounds[id := Round(RoundNumber(s, id) + 1, b.now)])
  }

  /** The human result applied to one due proposal; None where an error rolls it back. */
  function Resolve(s: State, b: Block, id: nat): Option<State> {
    if id !in s.proposals || id in b.faults then None else
    var p := s.proposals[id];
    if p.Garbled? then Some(Forget(EndRound(s, id), id)) else
    var e := EndRound(s, id);
    if Approves(TallyOf(s, id), p.expedited) then
      if !p.expedited then Some(e.(rounds := Without(e.rounds, id)))
      else if RoundOf(e, id, p).None? then None
      else Some(e.(rounds := e.rounds[id := Round(RoundNumber(e, id) + 1, b.now)]))
    else if p.expedited && Demotable(b, p) then Some(Demote(e, b, id, p))
    else Fail(Forget(e, id), id, p)
  }

  /** A proposal that could not be resolved is refused outright. */
  function Refuse(s: State, b: Block, id: nat): Option<State> {
    if id !in s.proposals || id in b.hard || s.proposals[id].Garbled? then None
    else Fail(Forget(EndRound(s, id), id), id, s.proposals[id])
  }

  function ResolveOrRefuse(s: State, b: Block, id: nat): Option<State> {
    var r := Resolve(s, b, id);
    if r.Some? then r else Refuse(s, b, id)
  }

  /** Due entries taken in order; None where one can be neither resolved nor refused. */
  function ResolveAll(s: State, b: Block, due: seq<Entry>): Option<State> {
    if |due| == 0 then Some(s) else
    var r := ResolveAll(s, b, due[..|due| - 1]);
    if r.None? then None else ResolveOrRefuse(r.value, b, due[|due| - 1].id)
  }

  // ---------------------------------------------------------------- invariants

  /** Governance queues each proposal once, at its own end time. */
  ghost predicate QueueMatches(s: State) {
    && (forall e, f | e in s.queue && f in s.queue && e.id == f.id :: e == f)
    && (forall e | e in s.queue && e.id in s.proposals && s.proposals[e.id].Proposal? ::
      s.proposals[e.id].end == Some(e.time))
  }

  /** Ballot ids are handed out once. */
  ghost predicate BallotsApart(s: State) {
    forall i, j | i in s.ballots && j in s.ballots && i != j :: s.ballots[i] != s.ballots[j]
  }

  ghost predicate Inv(s: State) {
    QueueMatches(s) && BallotsApart(s)
  }

  /** Nothing of proposal j was touched. */
  ghost predicate Same(s: State, z: State, j: nat) {
    && (j in s.proposals <==> j in z.proposals) && (j in s.proposals ==> s.proposals[j] == z.proposals[j])
    && (forall t: int :: Entry(t, j) in s.queue <==> Entry(t, j) in z.queue)
    && (j in s.rounds <==> j in z.rounds) && (j in s.rounds ==> s.rounds[j] == z.rounds[j])
    && TallyOf(s, j) == TallyOf(z, j)
    && (j in s.subjects <==> j in z.subjects)
    && SameBallot(s, z, j)
  }

  /** Proposal j's ballot is as it was; closed ballots stay closed and no tally appears. */
  ghost predicate SameBallot(s: State, z: State, j: nat) {
    && (j in s.ballots <==> j in z.ballots) && (j in s.ballots ==> s.ballots[j] == z.ballots[j])
    && (j in s.ballots && s.ballots[j] in z.closed ==> s.ballots[j] in s.closed)
    && s.closed <= z.closed && z.tallies.Keys <= s.tallies.Keys
  }

  lemma EndRoundKeeps(s: State, id: nat, j: nat)
    requires BallotsApart(s) && j != id
    ensures BallotsApart(EndRound(s, id)) && TallyOf(EndRound(s, id), j) == TallyOf(s, j)
    ensures SameBallot(s, EndRound(s, id), j)
  {
  }

  /** Proposals, queue, rounds and subjects differ at most at id; ballots do not. */
  ghost predicate Confined(e: State, z: State, id: nat) {
    && z.ballots == e.ballots && z.tallies == e.tallies && z.closed == e.closed
    && Without(z.proposals, id) == Without(e.proposals, id)
    && Without(z.rounds, id) == Without(e.rounds, id)
    && (forall f: Entry | f.id != id :: f in e.queue <==> f in z.queue)
    && z.subjects - {id} == e.subjects - {id}
  }

  lemma ResolveConfined(s: State, b: Block, id: nat)
    requires ResolveOrRefuse(s, b, id).Some?
    ensures Confined(EndRound(s, id), ResolveOrRefuse(s, b, id).value, id)
  {
    hide EndRound, TallyOf, Approves, Confined, Forget, Fail, Demote, Without;
    var e := EndRound(s, id);
    ForgetConfined(e, id);
    var p := s.proposals[id];
    if p.Proposal? {
      FailConfined(e, id, p);
      RoundConfined(e, id, Round(RoundNumber(e, id) + 1, b.now));
      if Demotable(b, p) {
        DemoteConfined(e, b, id, p);
      }
    }
  }

  lemma ForgetConfined(e: State, id: nat)
    ensures Confined(e, Forget(e, id), id)
  {
  }

  lemma RoundConfined(e: State, id: nat, r: Round)
    ensures Confined(e, e.(rounds := e.rounds[id := r]), id) && Confined(e, e.(rounds := Without(e.rounds, id)), id)
  {
  }

  lemma FailConfined(e: State, id: nat, p: Proposal)
    requires p.Proposal?
    ensures var z := Fail(Forget(e, id), id, p); z.Some? ==> Confined(e, z.value, id)
  {
  }

  lemma DemoteConfined(e: State, b: Block, id: nat, p: Proposal)
    requires p.Proposal? && Demotable(b, p)
    ensures Confined(e, Demote(e, b, id, p), id)
  {
  }

  lemma ResolveKeeps(s: State, b: Block, id: nat)
    requires BallotsApart(s) && ResolveOrRefuse(s, b, id).Some?
    ensures var z := ResolveOrRefuse(s, b, id).value; BallotsApart(z) && forall j | j != id :: Same(s, z, j)
  {
    hide ResolveOrRefuse, Approves;
    var e := EndRound(s, id);
    var z := ResolveOrRefuse(s, b, id).value;
    ResolveConfined(s, b, id);
    assert BallotsApart(e);
    forall j | j != id ensures Same(s, z, j) {
      EndRoundKeeps(s, id, j);
      ConfinedSame(s, e, z, id, j);
    }
  }

  lemma ConfinedSame(s: State, e: State, z: State, id: nat, j: nat)
    requires Confined(e, z, id) && e == EndRound(s, id) && j != id && TallyOf(e, j) == TallyOf(s, j)
    requires SameBallot(s, e, j)
    ensures Same(s, z, j)
  {
    assert j in e.proposals <==> j in Without(z.proposals, id);
    assert j in e.rounds <==> j in Without(z.rounds, id);
    assert j in e.subjects <==> j in z.subjects - {id};
  }

  // ---------------------------------------------------------------- what becomes of one proposal

  ghost predicate SameEntries(s: State, z: State, id: nat) {
    forall t: int :: Entry(t, id) in s.queue <==> Entry(t, id) in z.queue
  }

  ghost predicate NoEntries(z: State, id: nat) {
    forall t: int :: Entry(t, id) !in z.queue
  }

  /** The round's votes are gone: its ballot is closed and nothing of it counts any more. */
  ghost predicate RoundEnded(s: State, z: State, id: nat) {
    && id !in z.ballots && TallyOf(z, id) == Tally(0, 0)
    && (id in s.ballots ==> s.ballots[id] in z.closed && s.ballots[id] !in z.tallies)
  }

  ghost predicate Forgotten(z: State, id: nat) {
    id !in z.rounds && id !in z.subjects
  }

  /** The next round is open, from this block on, and the proposal's subjects are kept. */
  ghost predicate NextRound(s: State, z: State, b: Block, id: nat) {
    && id in z.rounds && z.rounds[id] == Round(RoundNumber(s, id) + 1, b.now)
    && (id in z.subjects <==> id in s.subjects)
  }

  /** Untouched for governance to tally; a new round opens behind an expedited one. */
  ghost predicate Ratified(s: State, z: State, b: Block, id: nat)
    requires id in s.proposals && s.proposals[id].Proposal?
  {
    && id in z.proposals && z.proposals[id] == s.proposals[id] && SameEntries(s, z, id)
    && Approves(TallyOf(s, id), s.proposals[id].expedited)
    && (if s.proposals[id].expedited then NextRound(s, z, b, id)
        else id !in z.rounds && (id in z.subjects <==> id in s.subjects))
  }

  /** Moved to a regular round that ends after this block, under a higher number. */
  ghost predicate Demoted(s: State, z: State, b: Block, id: nat)
    requires id in s.proposals && s.proposals[id].Proposal?
  {
    var p := s.proposals[id];
    && p.expedited && !Approves(TallyOf(s, id), true) && Demotable(b, p)
    && id in z.proposals && z.proposals[id] == p.(expedited := false, end := Some(p.start.value + b.period.value))
    && (forall t: int :: Entry(t, id) in z.queue <==> t == p.start.value + b.period.value)
    && NextRound(s, z, b, id)
  }

  /** Failed, forgotten, and gone from the queue: refused by the tally with no regular round
      to follow, or for want of a resolution. */
  ghost predicate Refused(s: State, z: State, b: Block, id: nat)
    requires id in s.proposals && s.proposals[id].Proposal?
  {
    var p := s.proposals[id];
    && id in z.proposals && z.proposals[id] == p.(status := Failed) && NoEntries(z, id) && Forgotten(z, id)
    && (id in b.faults
        || if Approves(TallyOf(s, id), p.expedited) then p.expedited && id !in s.rounds && p.start.None?
           else !(p.expedited && Demotable(b, p)))
  }

  ghost predicate Settled(s: State, z: State, b: Block, id: nat) {
    && id in s.proposals && RoundEnded(s, z, id)
    && if s.proposals[id].Garbled?
       then id in z.proposals && z.proposals[id].Garbled? && SameEntries(s, z, id) && Forgotten(z, id)
       else Ratified(s, z, b, id) || Demoted(s, z, b, id) || Refused(s, z, b, id)
  }

  lemma EndRoundEnds(s: State, id: nat)
    ensures RoundEnded(s, EndRound(s, id), id)
  {
  }

  lemma FailRefuses(e: State, id: nat, p: Proposal, t: int)
    requires p.Proposal? && p.end == Some(t)
    requires forall u: int :: Entry(u, id) in e.queue ==> u == t
    ensures var z := Fail(Forget(e, id), id, p);
      && z.Some? && id in z.value.proposals && z.value.proposals[id] == p.(status := Failed)
      && NoEntries(z.value, id) && Forgotten(z.value, id)
  {
  }

  lemma DemoteMoves(e: State, b: Block, id: nat, p: Proposal, t: int)
    requires p.Proposal? && p.end == Some(t) && Demotable(b, p)
    requires forall u: int :: Entry(u, id) in e.queue ==> u == t
    ensures var z := Demote(e, b, id, p);
      && id in z.proposals && z.proposals[id] == p.(expedited := false, end := Some(p.start.value + b.period.value))
      && (forall u: int :: Entry(u, id) in z.queue <==> u == p.start.value + b.period.value)
      && NextRound(e, z, b, id)
  {
  }

  lemma EndedStays(s: State, e: State, z: State, id: nat)
    requires RoundEnded(s, e, id) && Confined(e, z, id)
    ensures RoundEnded(s, z, id)
  {
  }

  lemma ResolveSettles(s: State, b: Block, x: Entry)
    requires QueueMatches(s) && x in s.queue && ResolveOrRefuse(s, b, x.id).Some?
    ensures Settled(s, ResolveOrRefuse(s, b, x.id).value, b, x.id)
  {
    hide Fail, Demote, Demotable, Approves, TallyOf;
    var id := x.id;
    var e := EndRound(s, id);
    EndRoundEnds(s, id);
    ResolveConfined(s, b, id);
    EndedStays(s, e, ResolveOrRefuse(s, b, id).value, id);
    assert e.queue == s.queue && e.rounds == s.rounds && e.subjects == s.subjects;
    assert forall u: int :: Entry(u, id) in e.queue ==> u == x.time;
    var p := s.proposals[id];
    if p.Proposal? {
      FailRefuses(e, id, p, x.time);
      if Demotable(b, p) {
        DemoteMoves(e, b, id, p, x.time);
      }
    }
  }

  /** Each proposal stays queued once, at its own end. */
  lemma SettledMatches(s: State, z: State, b: Block, x: Entry)
    requires QueueMatches(s) && x in s.queue && Settled(s, z, b, x.id) && forall j | j != x.id :: Same(s, z, j)
    ensures QueueMatches(z)
  {
    hide Approves, TallyOf, Demotable;
    var id := x.id;
    assert forall u: int :: Entry(u, id) in s.queue ==> u == x.time;
    forall e, f | e in z.queue && f in z.queue && e.id == f.id ensures e == f {
      assert e == Entry(e.time, e.id) && f == Entry(f.time, f.id);
      if e.id != id {
        assert Same(s, z, e.id);
      }
    }
    forall e | e in z.queue && e.id in z.proposals && z.proposals[e.id].Proposal?
      ensures z.proposals[e.id].end == Some(e.time) {
      assert e == Entry(e.time, e.id);
      if e.id != id {
        assert Same(s, z, e.id);
      }
    }
  }

  // ---------------------------------------------------------------- the whole block

  /** due lists the queue's entries up to the block's time, each once. */
  ghost predicate Lists(s: State, now: int, due: seq<Entry>) {
    && (forall e :: e in due <==> e in s.queue && e.time <= now)
    && forall i, j | 0 <= i < j < |due| :: due[i] != due[j]
  }

  ghost predicate Through(s: State, z: State, b: Block, due: seq<Entry>) {
    && Inv(z)
    && (forall i | 0 <= i < |due| :: Settled(s, z, b, due[i].id))
    && (forall j | (forall i | 0 <= i < |due| :: due[i].id != j) :: Same(s, z, j))
  }

  /** What was settled before stays so, and what comes later was not touched before. */
  lemma SettledCarries(s: State, r: State, z: State, b: Block, id: nat)
    ensures Settled(s, r, b, id) && Same(r, z, id) ==> Settled(s, z, b, id)
    ensures Same(s, r, id) && Settled(r, z, b, id) ==> Settled(s, z, b, id)
    ensures Same(s, r, id) && Same(r, z, id) ==> Same(s, z, id)
  {
    hide TallyOf, Approves, Demotable;
  }

  lemma {:induction false} AllSettled(s: State, b: Block, due: seq<Entry>)
    requires Inv(s) && ResolveAll(s, b, due).Some?
    requires forall i | 0 <= i < |due| :: due[i] in s.queue
    requires forall i, j | 0 <= i < j < |due| :: due[i] != due[j]
    ensures Through(s, ResolveAll(s, b, due).value, b, due)
  {
    hide ResolveOrRefuse, Settled, TallyOf;
    if |due| > 0 {
      var n := |due| - 1;
      var before := due[..n];
      AllSettled(s, b, before);
      var r := ResolveAll(s, b, before).value;
      var x := due[n];
      assert forall i | 0 <= i < n :: before[i].id != x.id by { OnceEach(s, due); }
      assert Same(s, r, x.id);
      assert x == Entry(x.time, x.id) && x in r.queue;
      NextSettled(s, r, b, before, x);
      assert due == before + [x];
    }
  }

  lemma OnceEach(s: State, due: seq<Entry>)
    requires QueueMatches(s)
    requires forall i | 0 <= i < |due| :: due[i] in s.queue
    requires forall i, j | 0 <= i < j < |due| :: due[i] != due[j]
    ensures forall i, j | 0 <= i < j < |due| :: due[i].id != due[j].id
  {
    forall i, j | 0 <= i < j < |due| ensures due[i].id != due[j].id {
      assert due[i] != due[j];
    }
  }

  lemma NextSettled(s: State, r: State, b: Block, before: seq<Entry>, x: Entry)
    requires Through(s, r, b, before) && x in r.queue && ResolveOrRefuse(r, b, x.id).Some?
    requires forall i | 0 <= i < |before| :: before[i].id != x.id
    ensures Through(s, ResolveOrRefuse(r, b, x.id).value, b, before + [x])
  {
    hide ResolveOrRefuse, Settled, QueueMatches, BallotsApart, Same;
    var z := ResolveOrRefuse(r, b, x.id).value;
    ResolveKeeps(r, b, x.id);
    ResolveSettles(r, b, x);
    SettledMatches(r, z, b, x);
    var all := before + [x];
    forall i | 0 <= i < |all| ensures Settled(s, z, b, all[i].id) {
      SettledCarries(s, r, z, b, all[i].id);
    }
    forall j | (forall i | 0 <= i < |all| :: all[i].id != j) ensures Same(s, z, j) {
      assert all[|before|].id != j;
      assert forall i | 0 <= i < |before| :: all[i] == before[i];
      SettledCarries(s, r, z, b, j);
    }
  }

  /** When the chamber's pass over the due proposals succeeds: each is settled; whatever
      is still due was ratified at its own bar, or cannot be decoded; nothing else moved. */
  lemma ChamberBeforeGov(s: State, b: Block, due: seq<Entry>)
    requires Inv(s) && Lists(s, b.now, due) && ResolveAll(s, b, due).Some?
    ensures var z := ResolveAll(s, b, due).value;
      && Inv(z)
      && (forall e | e in s.queue && e.time <= b.now :: Settled(s, z, b, e.id))
      && (forall e | e in z.queue && e.time <= b.now ::
            e in s.queue && e.id in s.proposals && (s.proposals[e.id].Proposal? ==> Ratified(s, z, b, e.id)))
      && (forall j | (forall e | e in s.queue && e.time <= b.now :: e.id != j) :: Same(s, z, j))
  {
    hide ResolveAll, TallyOf, Approves, QueueMatches, BallotsApart;
    AllSettled(s, b, due);
    var z := ResolveAll(s, b, due).value;
    forall e | e in s.queue && e.time <= b.now ensures Settled(s, z, b, e.id) {
      assert e in due;
    }
    forall e | e in z.queue && e.time <= b.now
      ensures e in s.queue && e.id in s.proposals && (s.proposals[e.id].Proposal? ==> Ratified(s, z, b, e.id))
    {
      StillDue(s, z, b, due, e);
    }
    forall j | (forall e | e in s.queue && e.time <= b.now :: e.id != j) ensures Same(s, z, j) {
      assert forall i | 0 <= i < |due| :: due[i] in due && due[i].id != j;
    }
  }

  lemma StillDue(s: State, z: State, b: Block, due: seq<Entry>, e: Entry)
    requires Through(s, z, b, due) && Lists(s, b.now, due) && e in z.queue && e.time <= b.now
    ensures e in s.queue && e.id in s.proposals && (s.proposals[e.id].Proposal? ==> Ratified(s, z, b, e.id))
  {
    hide TallyOf, Approves, QueueMatches, BallotsApart;
    assert e == Entry(e.time, e.id);
    assert Same(s, z, e.id) ==> Entry(e.time, e.id) in s.queue;
    assert e in s.queue ==> e in due;
    assert !Same(s, z, e.id) ==> exists i | 0 <= i < |due| :: due[i].id == e.id;
    if i :| 0 <= i < |due| && due[i].id == e.id {
      assert Settled(s, z, b, e.id);
    }
  }

  // ---------------------------------------------------------------- when the pass succeeds

  /** Some way is left to settle a due proposal: it can be resolved, or else refused. */
  predicate Settleable(s: State, b: Block, id: nat) {
    && id in s.proposals
    && var p := s.proposals[id];
       if p.Garbled? then id !in b.faults
       else id !in b.hard || (id !in b.faults && !(Approves(TallyOf(s, id), p.expedited) && p.expedited
                                                    && id !in s.rounds && p.start.None?))
  }

  lemma SettleableExact(s: State, b: Block, x: Entry)
    requires QueueMatches(s) && x in s.queue
    ensures ResolveOrRefuse(s, b, x.id).Some? <==> Settleable(s, b, x.id)
  {
    hide Approves, TallyOf, Without;
    assert EndRound(s, x.id).rounds == s.rounds;
  }

  lemma SameSettleable(s: State, r: State, b: Block, id: nat)
    requires Same(s, r, id)
    ensures Settleable(s, b, id) <==> Settleable(r, b, id)
  {
    hide Approves, TallyOf;
  }

  /** The pass succeeds if and only if every due proposal could be settled to begin with. */
  lemma {:induction false} PassExact(s: State, b: Block, due: seq<Entry>)
    requires Inv(s)
    requires forall i | 0 <= i < |due| :: due[i] in s.queue
    requires forall i, j | 0 <= i < j < |due| :: due[i] != due[j]
    ensures ResolveAll(s, b, due).Some? <==> forall e | e in due :: Settleable(s, b, e.id)
  {
    hide ResolveOrRefuse, Settled, TallyOf, Settleable;
    if |due| > 0 {
      var n := |due| - 1;
      var before, x := due[..n], due[n];
      PassExact(s, b, before);
      assert due == before + [x];
      if ResolveAll(s, b, before).Some? {
        AllSettled(s, b, before);
        var r := ResolveAll(s, b, before).value;
        assert forall i | 0 <= i < n :: before[i].id != x.id by { OnceEach(s, due); }
        assert Same(s, r, x.id);
        assert x == Entry(x.time, x.id) && x in r.queue;
        SameSettleable(s, r, b, x.id);
        SettleableExact(r, b, x);
      }
    }
  }

  /** An approved proposal that no other part of the chain makes fail is left to
      governance untouched. */
  lemma ApprovedStands(s: State, b: Block, due: seq<Entry>, e: Entry)
    requires Inv(s) && Lists(s, b.now, due) && ResolveAll(s, b, due).Some? && e in due
    requires e.id in s.proposals && s.proposals[e.id].Proposal? && e.id !in b.faults
    requires Approves(TallyOf(s, e.id), s.proposals[e.id].expedited)
    requires s.proposals[e.id].expedited ==> e.id in s.rounds || s.proposals[e.id].start.Some?
    ensures Ratified(s, ResolveAll(s, b, due).value, b, e.id) && e in ResolveAll(s, b, due).value.queue
  {
    hide ResolveAll, TallyOf, Approves, QueueMatches, BallotsApart;
    ChamberBeforeGov(s, b, due);
    assert e in s.queue && e == Entry(e.time, e.id);
    assert Settled(s, ResolveAll(s, b, due).value, b, e.id);
  }
}
