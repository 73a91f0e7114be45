/** Settling a stream: the index moves, the emission is minted, the books stay whole. */
module AllocationSettle {
  import opened AllocationTypes
  import opened AllocationLedger
  import opened AllocationBooks
  import Sums

  /** No settlement was shared with a lease that had already ended. */
  ghost predicate LeasesRespected(history: seq<Event>) {
    forall e | e in history && e.Settled? :: forall x | x in e.leases :: e.to <= x * NANOS_PER_SECOND
  }

  /** The reserve kept for the options covers what they can collect, by less than one
      unit, and never exceeds the reward. */
  lemma Reserve(reward: int, total: int, delta: int, collectable: int)
    requires reward >= 0 && total > 0
    requires delta == reward * PRECISION / total
    requires collectable == CeilQuo(delta * total, PRECISION)
    ensures delta >= 0
    ensures delta * total <= PRECISION * collectable < delta * total + PRECISION
    ensures 0 <= collectable <= reward
  {
    ScaledDivision(reward * PRECISION, total);
    assert delta * total <= reward * PRECISION;
    DivideNonNegative(reward * PRECISION, total);
    ProductNonNegative(delta, total);
    Ceil(delta * total, PRECISION);
    assert PRECISION * collectable < PRECISION * (reward + 1);
  }

  lemma DivideNonNegative(a: int, b: int)
    requires a >= 0 && b > 0
    ensures a / b >= 0
  {
  }

  lemma ProductNonNegative(a: int, b: int)
    requires a >= 0 && b >= 0
    ensures a * b >= 0
  {
  }

  lemma Ceil(n: int, d: int)
    requires n >= 0 && d > 0
    ensures n <= d * CeilQuo(n, d) < n + d
    ensures CeilQuo(n, d) >= 0
  {
    ScaledDivision(n + d - 1, d);
  }

  lemma IndexMoves(options: map<int, AllocationOption>, index: int, delta: int)
    ensures Unsettled(options, index + delta) == Unsettled(options, index) + delta * Weight(options)
  {
    forall k | k in options.Keys
      ensures Claims(options, index + delta)(k) == Claims(options, index)(k) + delta * Amounts(options)(k)
    {
      var o := options[k];
      Sums.Distribute(o.amount, index - o.lastIndex, delta);
      assert index + delta - o.lastIndex == (index - o.lastIndex) + delta;
      assert delta * o.amount == o.amount * delta;
    }
    Sums.Linear(options.Keys, Claims(options, index), Claims(options, index + delta), delta, Amounts(options));
  }

  /** What a settlement leaves alone. */
  ghost predicate OnlySettled(l: Ledger, m: Ledger, s: StreamId) {
    && m.At(Other(s)) == l.At(Other(s))
    && m.At(s) == l.At(s).(index := m.At(s).index, lastUpkeep := m.At(s).lastUpkeep)
    && m.summedAccrued == l.summedAccrued
    && m.pruneQueue == l.pruneQueue
  }

  lemma SettleToFrame(l: Ledger, s: StreamId, now: int)
    ensures OnlySettled(l, SettleTo(l, s, now), s)
  {
  }

  lemma SettledIdle(l: Ledger, m: Ledger, s: StreamId, e: Event)
    requires Idle(l) && OnlySettled(l, m, s) && m.history == l.history + [e] && !e.Wrote?
    ensures Idle(m)
  {
    forall s', id | id in m.At(s').pruneDue
      ensures IdleSince(m.history, s', id, m.At(s').pruneDue[id] - OPTION_IDLE_GRACE)
    {
      assert s' == s || s' == Other(s);
      IdleGrows(l.history, e, s', id, l.At(s').pruneDue[id] - OPTION_IDLE_GRACE);
    }
  }

  lemma QuietIdle(l: Ledger, m: Ledger, s: StreamId)
    requires Idle(l) && OnlySettled(l, m, s)
    requires m.history == l.history || exists e: Event :: !e.Wrote? && m.history == l.history + [e]
    ensures Idle(m)
  {
    if e: Event :| !e.Wrote? && m.history == l.history + [e] {
      SettledIdle(l, m, s, e);
    }
    forall s' ensures m.At(s').pruneDue == l.At(s').pruneDue {
      assert s' == s || s' == Other(s);
    }
  }

  lemma SettledSchedule(l: Ledger, m: Ledger, s: StreamId)
    requires Schedule(l) && OnlySettled(l, m, s)
    ensures Schedule(m)
  {
    forall s' ensures m.At(s').pruneDue == l.At(s').pruneDue && m.At(s').options == l.At(s').options {
      assert s' == s || s' == Other(s);
    }
  }

  lemma SettledBooks(l: Ledger, m: Ledger, s: StreamId)
    requires Books(l) && OnlySettled(l, m, s) && Schedule(m) && Idle(m)
    requires m.At(s).index >= l.At(s).index && m.residue >= 0
    ensures Books(m)
  {
    forall id | id in m.At(s).options ensures OptionOk(m.At(s).options[id], m.At(s).index) {
      assert OptionOk(l.At(s).options[id], l.At(s).index);
    }
    assert StreamBooks(m.At(s)) && StreamBooks(m.At(Other(s)));
  }

  lemma MintedSlack(l: Ledger, m: Ledger, s: StreamId, reward: int, delta: int, collectable: int)
    requires OnlySettled(l, m, s)
    requires m.At(s).index == l.At(s).index + delta && l.At(s).total == Weight(l.At(s).options)
    requires m.held == l.held + reward && m.residue == l.residue + reward - collectable
    requires delta * l.At(s).total <= PRECISION * collectable
    ensures Slack(m) >= Slack(l)
  {
    IndexMoves(l.At(s).options, l.At(s).index, delta);
    assert StreamWorth(m.At(s)) == StreamWorth(l.At(s)) + delta * l.At(s).total;
    assert StreamWorth(m.At(Other(s))) == StreamWorth(l.At(Other(s)));
  }

  /** The settlement is over a weight, and so mints the interval's emission. */
  ghost predicate Minted(l: Ledger, s: StreamId, now: int) {
    var st := l.At(s);
    st.lastUpkeep != 0 && st.lastUpkeep < now && st.total > 0
  }

  lemma MintingFrame(l: Ledger, s: StreamId, now: int, reward: int, delta: int, collectable: int)
    requires Minted(l, s, now)
    requires reward == Reward(l.At(s).lastUpkeep, now) && delta == reward * PRECISION / l.At(s).total
    requires collectable == CeilQuo(delta * l.At(s).total, PRECISION) <= reward
    ensures var m := SettleTo(l, s, now);
      && m.At(s).index == l.At(s).index + delta
      && m.held == l.held + reward && m.residue == l.residue + reward - collectable
      && m.history == l.history + [Settled(s, l.At(s).lastUpkeep, now, reward, CountedLeases(l.At(s)))]
  {
  }

  lemma QuietFrame(l: Ledger, s: StreamId, now: int)
    requires !Minted(l, s, now)
    ensures var m := SettleTo(l, s, now);
      && m.At(s).index == l.At(s).index && m.held == l.held && m.residue == l.residue
      && m.history ==
        (if 0 != l.At(s).lastUpkeep < now then l.history + [Idled(s, l.At(s).lastUpkeep, now)] else l.history)
  {
  }

  /** Settling keeps the books and never lowers the slack: the emission minted covers
      the claims the new index creates and the residue booked. */
  lemma SettleToBooks(l: Ledger, s: StreamId, now: int)
    requires Books(l) && l.At(s).total == Weight(l.At(s).options)
    ensures Books(SettleTo(l, s, now))
    ensures Slack(SettleTo(l, s, now)) >= Slack(l)
  {
    hide SettleTo, OnlySettled, Schedule, Idle, Slack, Weight, CountedLeases;
    var m := SettleTo(l, s, now);
    var st := l.At(s);
    SettleToFrame(l, s, now);
    SettledSchedule(l, m, s);
    if Minted(l, s, now) {
      var reward := Reward(st.lastUpkeep, now);
      var delta := reward * PRECISION / st.total;
      var collectable := CeilQuo(delta * st.total, PRECISION);
      Reserve(reward, st.total, delta, collectable);
      MintingFrame(l, s, now, reward, delta, collectable);
      SettledIdle(l, m, s, Settled(s, st.lastUpkeep, now, reward, CountedLeases(st)));
      SettledBooks(l, m, s);
      MintedSlack(l, m, s, reward, delta, collectable);
    } else {
      QuietFrame(l, s, now);
      QuietIdle(l, m, s);
      SettledBooks(l, m, s);
      QuietSlack(l, m, s);
    }
  }

  lemma QuietSlack(l: Ledger, m: Ledger, s: StreamId)
    requires OnlySettled(l, m, s) && m.At(s).index == l.At(s).index && m.held == l.held && m.residue == l.residue
    ensures Slack(m) == Slack(l)
  {
    assert StreamWorth(m.At(s)) == StreamWorth(l.At(s));
    assert StreamWorth(m.At(Other(s))) == StreamWorth(l.At(Other(s)));
  }

  /** A settlement that stops at or before every counted lease end respects the leases. */
  lemma SettleToLeases(l: Ledger, s: StreamId, now: int)
    requires LeasesRespected(l.history)
    requires forall x | x in CountedLeases(l.At(s)) :: now <= x * NANOS_PER_SECOND
    ensures LeasesRespected(SettleTo(l, s, now).history)
  {
  }
}
