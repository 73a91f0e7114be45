/** The books behind the two end-of-block checks, and what the single option writer
    does to them. */
module AllocationBooks {
  import opened AllocationTypes
  import opened AllocationLedger
  import Sums

  // ---------------------------------------------------------------- sums over options

  ghost function Amounts(options: map<int, AllocationOption>): int -> int {
    k => AmountAt(options, k)
  }

  ghost function Accruals(options: map<int, AllocationOption>): int -> int {
    k => AccruedAt(options, k)
  }

  /** What an option may still collect from the index, scaled by PRECISION. */
  ghost function Claim(o: AllocationOption, index: int): int {
    o.amount * (index - o.lastIndex)
  }

  ghost function ClaimAt(options: map<int, AllocationOption>, index: int, id: int): int {
    if id in options then Claim(options[id], index) else 0
  }

  ghost function Claims(options: map<int, AllocationOption>, index: int): int -> int {
    k => ClaimAt(options, index, k)
  }

  ghost function Weight(options: map<int, AllocationOption>): int {
    Sums.Sum(options.Keys, Amounts(options))
  }

  ghost function Accrued(options: map<int, AllocationOption>): int {
    Sums.Sum(options.Keys, Accruals(options))
  }

  ghost function Unsettled(options: map<int, AllocationOption>, index: int): int {
    Sums.Sum(options.Keys, Claims(options, index))
  }

  /** Balance plus unsettled claim of one option, scaled. */
  ghost function Worth(o: AllocationOption, index: int): int {
    PRECISION * o.accrued + Claim(o, index)
  }

  ghost function WorthAt(options: map<int, AllocationOption>, index: int, id: int): int {
    if id in options then Worth(options[id], index) else 0
  }

  ghost function StreamWorth(st: Stream): int {
    PRECISION * Accrued(st.options) + Unsettled(st.options, st.index)
  }

  /** Coins the module holds beyond everything it owes, settled or not, scaled. */
  ghost function Slack(l: Ledger): int {
    PRECISION * (l.held - l.residue) - StreamWorth(l.caretaker) - StreamWorth(l.groundworks)
  }

  // ---------------------------------------------------------------- the books

  ghost predicate OptionOk(o: AllocationOption, index: int) {
    && o.lastIndex <= index
    && 0 <= o.accrued
    && 0 <= o.amount
    && (o.removed ==> o.amount == 0 && o.accrued == 0)
  }

  ghost predicate StreamBooks(st: Stream) {
    && (forall id | id in st.options :: 1 <= id <= st.seqNo && OptionOk(st.options[id], st.index))
    && st.summed == Weight(st.options)
    && 0 <= st.index
  }

  /** The removal queue and its reverse lookup name the same entries, one for each
      dead option and none for a live one. */
  ghost predicate Schedule(l: Ledger) {
    && (forall s, id :: id in l.At(s).pruneDue <==> id in l.At(s).options && Prunable(l.At(s).options[id]))
    && (forall t, s, id :: (t, s, id) in l.pruneQueue <==> id in l.At(s).pruneDue && l.At(s).pruneDue[id] == t)
  }

  /** From the write at position p, made in second t, on, every write of the option
      left it dead. */
  ghost predicate IdleFrom(history: seq<Event>, s: StreamId, id: int, t: int, p: int) {
    && 0 <= p < |history|
    && history[p].Wrote?
    && history[p].at == t && history[p].stream == s && history[p].id == id
    && (forall q | p <= q < |history| ::
          history[q].Wrote? && history[q].stream == s && history[q].id == id ==> Prunable(history[q].option))
  }

  ghost predicate IdleSince(history: seq<Event>, s: StreamId, id: int, t: int) {
    exists p :: IdleFrom(history, s, id, t, p)
  }

  /** Every scheduled option has stayed dead since OPTION_IDLE_GRACE before its date. */
  ghost predicate Idle(l: Ledger) {
    forall s, id | id in l.At(s).pruneDue :: IdleSince(l.history, s, id, l.At(s).pruneDue[id] - OPTION_IDLE_GRACE)
  }

  ghost predicate Books(l: Ledger) {
    && StreamBooks(l.caretaker)
    && StreamBooks(l.groundworks)
    && l.summedAccrued == Accrued(l.caretaker.options) + Accrued(l.groundworks.options)
    && 0 <= l.residue
    && Schedule(l)
    && Idle(l)
  }

  // ---------------------------------------------------------------- writing one option

  /** What a stream's votes are made of; no option write touches them. */
  ghost predicate SameVotes(a: Stream, b: Stream) {
    && a.voters == b.voters && a.epoch == b.epoch && a.lapses == b.lapses && a.total == b.total
    && a.index == b.index && a.lastUpkeep == b.lastUpkeep && a.seqNo == b.seqNo && a.integrated == b.integrated
  }

  function Other(s: StreamId): StreamId {
    if s == Caretaker then Groundworks else Caretaker
  }

  /** m is l with option id of stream s written as o, the sums following. */
  ghost predicate OptionWritten(l: Ledger, m: Ledger, s: StreamId, id: int, o: AllocationOption) {
    && m.At(s).options == l.At(s).options[id := o]
    && m.At(s).summed == l.At(s).summed + o.amount - AmountAt(l.At(s).options, id)
    && SameVotes(l.At(s), m.At(s))
    && m.At(Other(s)) == l.At(Other(s))
    && m.held == l.held && m.residue == l.residue
    && m.summedAccrued == l.summedAccrued + o.accrued - AccruedAt(l.At(s).options, id)
  }

  lemma SetOptionFrame(l: Ledger, s: StreamId, id: int, o: AllocationOption, now: nat)
    ensures OptionWritten(l, SetOption(l, s, id, o, now), s, id, o)
    ensures SetOption(l, s, id, o, now).history == l.history + [Wrote(Seconds(now), s, id, o)]
  {
  }

  /** Writing one record moves each sum by that record's own change. */
  lemma WriteWeight(options: map<int, AllocationOption>, id: int, o: AllocationOption)
    ensures Weight(options[id := o]) == Weight(options) + o.amount - AmountAt(options, id)
  {
    assert options[id := o].Keys == options.Keys + {id};
    Sums.Write(options.Keys, id, Amounts(options), Amounts(options[id := o]));
  }

  lemma WriteAccrued(options: map<int, AllocationOption>, id: int, o: AllocationOption)
    ensures Accrued(options[id := o]) == Accrued(options) + o.accrued - AccruedAt(options, id)
  {
    assert options[id := o].Keys == options.Keys + {id};
    Sums.Write(options.Keys, id, Accruals(options), Accruals(options[id := o]));
  }

  lemma WriteUnsettled(options: map<int, AllocationOption>, index: int, id: int, o: AllocationOption)
    ensures Unsettled(options[id := o], index) ==
      Unsettled(options, index) + Claim(o, index) - ClaimAt(options, index, id)
  {
    var w := options[id := o];
    assert w.Keys == options.Keys + {id};
    forall j | j in options.Keys && j != id
      ensures Claims(options, index)(j) == Claims(w, index)(j)
    {
      assert w[j] == options[j];
    }
    Sums.Write(options.Keys, id, Claims(options, index), Claims(w, index));
  }

  lemma SetOptionSchedule(l: Ledger, s: StreamId, id: int, o: AllocationOption, now: nat)
    requires Schedule(l)
    ensures Schedule(SetOption(l, s, id, o, now))
  {
    var m := SetOption(l, s, id, o, now);
    SetOptionFrame(l, s, id, o, now);
    forall s', id'
      ensures id' in m.At(s').pruneDue <==> id' in m.At(s').options && Prunable(m.At(s').options[id'])
    {
      assert s' == s || s' == Other(s);
      assert id' in l.At(s').pruneDue <==> id' in l.At(s').options && Prunable(l.At(s').options[id']);
    }
    forall t, s', id'
      ensures (t, s', id') in m.pruneQueue <==> id' in m.At(s').pruneDue && m.At(s').pruneDue[id'] == t
    {
      assert (t, s', id') in l.pruneQueue <==> id' in l.At(s').pruneDue && l.At(s').pruneDue[id'] == t;
    }
  }

  lemma IdleGrows(history: seq<Event>, e: Event, s: StreamId, id: int, t: int)
    requires IdleSince(history, s, id, t)
    requires e.Wrote? && e.stream == s && e.id == id ==> Prunable(e.option)
    ensures IdleSince(history + [e], s, id, t)
  {
    var p :| IdleFrom(history, s, id, t, p);
    assert IdleFrom(history + [e], s, id, t, p);
  }

  lemma SetOptionIdle(l: Ledger, s: StreamId, id: int, o: AllocationOption, now: nat)
    requires Idle(l)
    ensures Idle(SetOption(l, s, id, o, now))
  {
    var m := SetOption(l, s, id, o, now);
    var e := Wrote(Seconds(now), s, id, o);
    SetOptionFrame(l, s, id, o, now);
    forall s', id' | id' in m.At(s').pruneDue
      ensures IdleSince(m.history, s', id', m.At(s').pruneDue[id'] - OPTION_IDLE_GRACE)
    {
      if id' in l.At(s').pruneDue {
        IdleGrows(l.history, e, s', id', l.At(s').pruneDue[id'] - OPTION_IDLE_GRACE);
      } else {
        assert IdleFrom(m.history, s, id, Seconds(now), |l.history|);
      }
    }
  }

  lemma WrittenBooks(l: Ledger, m: Ledger, s: StreamId, id: int, o: AllocationOption)
    requires Books(l) && OptionWritten(l, m, s, id, o) && Schedule(m) && Idle(m)
    requires 1 <= id <= l.At(s).seqNo && OptionOk(o, l.At(s).index)
    ensures Books(m)
  {
    WriteWeight(l.At(s).options, id, o);
    WriteAccrued(l.At(s).options, id, o);
    assert StreamBooks(m.At(s)) && StreamBooks(m.At(Other(s)));
  }

  lemma WrittenSlack(l: Ledger, m: Ledger, s: StreamId, id: int, o: AllocationOption)
    requires OptionWritten(l, m, s, id, o)
    ensures Slack(m) == Slack(l) + WorthAt(l.At(s).options, l.At(s).index, id) - Worth(o, l.At(s).index)
  {
    WriteAccrued(l.At(s).options, id, o);
    WriteUnsettled(l.At(s).options, l.At(s).index, id, o);
    assert StreamWorth(m.At(Other(s))) == StreamWorth(l.At(Other(s)));
  }

  /** One option write keeps the books, and moves the slack by exactly what the
      option's worth fell. */
  lemma SetOptionBooks(l: Ledger, s: StreamId, id: int, o: AllocationOption, now: nat)
    requires Books(l)
    requires 1 <= id <= l.At(s).seqNo && OptionOk(o, l.At(s).index)
    ensures Books(SetOption(l, s, id, o, now))
    ensures Slack(SetOption(l, s, id, o, now)) ==
            Slack(l) + WorthAt(l.At(s).options, l.At(s).index, id) - Worth(o, l.At(s).index)
  {
    SetOptionFrame(l, s, id, o, now);
    SetOptionSchedule(l, s, id, o, now);
    SetOptionIdle(l, s, id, o, now);
    WrittenBooks(l, SetOption(l, s, id, o, now), s, id, o);
    WrittenSlack(l, SetOption(l, s, id, o, now), s, id, o);
  }

  /** The schedule reads nothing but the options, the queue, its lookup and the history. */
  lemma SameSchedule(l: Ledger, m: Ledger, s: StreamId)
    requires Schedule(l) && Idle(l) && m.pruneQueue == l.pruneQueue && m.history == l.history
    requires m.At(s).pruneDue == l.At(s).pruneDue && m.At(s).options == l.At(s).options
    requires m.At(Other(s)) == l.At(Other(s))
    ensures Schedule(m) && Idle(m)
  {
    hide IdleSince, Prunable;
    forall s' ensures m.At(s').pruneDue == l.At(s').pruneDue && m.At(s').options == l.At(s').options {
      assert s' == s || s' == Other(s);
    }
  }

  // ---------------------------------------------------------------- settling one option

  lemma ScaledDivision(a: int, p: int)
    requires a >= 0 && p > 0
    ensures a - p < p * (a / p) <= a
  {
  }

  /** Settling moves an option's claim into its balance, losing less than one unit. */
  lemma SettleOptionWorth(o: AllocationOption, index: int)
    requires OptionOk(o, index)
    ensures OptionOk(SettleOption(o, index), index)
    ensures Claim(SettleOption(o, index), index) == 0
    ensures Worth(o, index) - PRECISION < Worth(SettleOption(o, index), index) <= Worth(o, index)
    ensures SettleOption(o, index).accrued >= o.accrued
    ensures Prunable(SettleOption(o, index)) == Prunable(o)
  {
    assert o.amount * (index - o.lastIndex) >= 0;
    ScaledDivision(o.amount * (index - o.lastIndex), PRECISION);
  }
}
