/** The assembly keeper: the records it updates in place, each method proved against the
    functions on its state. */
module ChamberKeeper {
  import opened Chamber

  /** The queue's order: by time, then by id. */
  predicate Before(e: Entry, f: Entry) {
    e.time < f.time || (e.time == f.time && e.id < f.id)
  }

  lemma {:induction false} FirstExists(s: set<Entry>) returns (e: Entry)
    requires s != {}
    ensures e in s && forall f | f in s :: f == e || Before(e, f)
    decreases |s|
  {
    var x :| x in s;
    var rest := s - {x};
    e := x;
    if rest != {} {
      var y := FirstExists(rest);
      assert x.time == y.time && x.id == y.id ==> x == y;
      e := if Before(x, y) then x else y;
    }
    forall f | f in s ensures f == e || Before(e, f) {
      assert f == x || f in rest;
    }
  }

  lemma ResolveMeans(s: State, b: Block, id: nat)
    requires Inv(s) && Resolve(s, b, id).Some?
    ensures var z := Resolve(s, b, id).value;
      && (forall j | j != id :: Same(s, z, j))
      && ((exists x | x in s.queue :: x.id == id) ==> Settled(s, z, b, id))
  {
    hide Resolve, Refuse, QueueMatches, BallotsApart, Same, Settled;
    ResolveKeeps(s, b, id);
    if x :| x in s.queue && x.id == id {
      ResolveSettles(s, b, x);
    }
  }

  class Keeper {
    var proposals: map<nat, Proposal>
    var queue: set<Entry>
    var rounds: map<nat, Round>
    var ballots: map<nat, nat>
    var tallies: map<nat, Tally>
    var closed: set<nat>
    var subjects: set<nat>

    function View(): State
      reads this
    {
      State(proposals, queue, rounds, ballots, tallies, closed, subjects)
    }

    /** Drops what a failed branch wrote. */
    method Discard(s: State)
      modifies this
      ensures View() == s
    {
      proposals, queue, rounds, ballots := s.proposals, s.queue, s.rounds, s.ballots;
      tallies, closed, subjects := s.tallies, s.closed, s.subjects;
    }

    method ProposalTally(id: nat) returns (t: Tally)
      ensures t == TallyOf(View(), id)
    {
      if id !in ballots || ballots[id] !in tallies {
        return Tally(0, 0);
      }
      return tallies[ballots[id]];
    }

    method EndProposalRound(id: nat)
      modifies this
      ensures View() == EndRound(old(View()), id)
    {
      if id !in ballots {
        return;
      }
      var ballot := ballots[id];
      ballots := ballots - {id};
      tallies := tallies - {ballot};
      closed := closed + {ballot};
    }

    method ProposalRound(id: nat, p: Proposal) returns (r: Option<nat>)
      requires p.Proposal?
      ensures r == RoundOf(View(), id, p)
      ensures r.Some? ==> r.value == RoundNumber(View(), id)
    {
      if id in rounds {
        return Some(rounds[id].number);
      }
      if p.start.None? {
        return None;
      }
      return Some(0);
    }

    method ForgetProposal(id: nat)
      modifies this
      ensures View() == Forget(old(View()), id)
    {
      rounds := rounds - {id};
      subjects := subjects - {id};
    }

    /** Gives an expedited proposal its regular round, unless that would not end after
        this block. */
    method DemoteExpedited(b: Block, id: nat, p: Proposal) returns (demoted: bool)
      requires p.Proposal?
      modifies this
      ensures demoted == Demotable(b, p)
      ensures View() == if demoted then Demote(old(View()), b, id, p) else old(View())
    {
      if b.period.None? || p.start.None? || p.end.None? {
        return false;
      }
      var endTime := p.start.value + b.period.value;
      if endTime <= b.now {
        return false;
      }
      var previousEnd := p.end.value;
      var round := ProposalRound(id, p);
      proposals := proposals[id := p.(expedited := false, end := Some(endTime))];
      queue := queue - {Entry(previousEnd, id)};
      queue := queue + {Entry(endTime, id)};
      rounds := rounds[id := Round(round.value + 1, b.now)];
      return true;
    }

    method FailProposal(id: nat, p: Proposal) returns (ok: bool)
      requires p.Proposal?
      modifies this
      ensures ok == Fail(old(View()), id, p).Some?
      ensures ok ==> View() == Fail(old(View()), id, p).value
    {
      if p.end.None? {
        return false;
      }
      proposals := proposals[id := p.(status := Failed)];
      queue := queue - {Entry(p.end.value, id)};
      return true;
    }

    /** Applies the human result to one due proposal: it ends ratified, demoted or refused,
        and no other proposal is touched. */
    method ResolveDueProposal(b: Block, id: nat) returns (ok: bool)
      modifies this
      ensures ok == Resolve(old(View()), b, id).Some?
      ensures ok ==> View() == Resolve(old(View()), b, id).value
      ensures ok && old(Inv(View())) ==> forall j | j != id :: Same(old(View()), View(), j)
      ensures ok && old(Inv(View())) && (exists x | x in old(queue) :: x.id == id) ==>
        Settled(old(View()), View(), b, id)
    {
      ghost var s := View();
      ok := ApplyResult(b, id);
      if ok && Inv(s) {
        ResolveMeans(s, b, id);
      }
    }

    method ApplyResult(b: Block, id: nat) returns (ok: bool)
      modifies this
      ensures ok == Resolve(old(View()), b, id).Some?
      ensures ok ==> View() == Resolve(old(View()), b, id).value
    {
      hide Fail, Demote, Demotable, Approves, TallyOf, EndRound, Forget;
      if id !in proposals || id in b.faults {
        return false;
      }
      var p := proposals[id];
      if p.Garbled? {
        EndProposalRound(id);
        ForgetProposal(id);
        return true;
      }
      var tally := ProposalTally(id);
      var approved := Approves(tally, p.expedited);
      EndProposalRound(id);
      if approved {
        if p.expedited {
          var round := ProposalRound(id, p);
          if round.None? {
            return false;
          }
          rounds := rounds[id := Round(round.value + 1, b.now)];
        } else {
          rounds := rounds - {id};
        }
        return true;
      }
      if p.expedited {
        var demoted := DemoteExpedited(b, id, p);
        if demoted {
          return true;
        }
      }
      ForgetProposal(id);
      ok := FailProposal(id, p);
    }

    /** Refuses a due proposal whose resolution failed. */
    method FailUnresolved(b: Block, id: nat) returns (ok: bool)
      modifies this
      ensures ok == Refuse(old(View()), b, id).Some?
      ensures ok ==> View() == Refuse(old(View()), b, id).value
    {
      hide Fail, EndRound, Forget;
      if id in b.hard {
        return false;
      }
      ghost var s := View();
      EndProposalRound(id);
      ForgetProposal(id);
      KeepsProposals(s, id);
      if id !in proposals || proposals[id].Garbled? {
        return false;
      }
      ok := FailProposal(id, proposals[id]);
    }

    lemma KeepsProposals(s: State, id: nat)
      ensures Forget(EndRound(s, id), id).proposals == s.proposals
    {
    }

    /** The entries up to a time, in the queue's order. */
    method DueEntries(now: int) returns (due: seq<Entry>)
      ensures Lists(View(), now, due)
      ensures forall i, j | 0 <= i < j < |due| :: Before(due[i], due[j])
    {
      due := [];
      var rest := set e | e in queue && e.time <= now;
      while rest != {}
        invariant forall e :: e in queue && e.time <= now <==> e in due || e in rest
        invariant forall i, j | 0 <= i < j < |due| :: Before(due[i], due[j])
        invariant forall i, e | 0 <= i < |due| && e in rest :: Before(due[i], e)
        decreases |rest|
      {
        ghost var least := FirstExists(rest);
        var e :| e in rest && forall f | f in rest :: f == e || Before(e, f);
        due := due + [e];
        rest := rest - {e};
      }
    }

    /** Settles every due proposal, or reports the first that can be neither resolved nor
        refused. What is still due after it was ratified at its own bar, or cannot be
        decoded. */
    method ResolveDueProposals(b: Block) returns (ok: bool, ghost due: seq<Entry>)
      modifies this
      ensures Lists(old(View()), b.now, due)
      ensures ok == ResolveAll(old(View()), b, due).Some?
      ensures ok ==> View() == ResolveAll(old(View()), b, due).value
      ensures ok && old(Inv(View())) ==> Inv(View()) && forall e | e in queue && e.time <= b.now ::
        e in old(queue) && e.id in old(proposals)
          && (old(proposals)[e.id].Proposal? ==> Ratified(old(View()), View(), b, e.id))
    {
      hide Resolve, Refuse, Lists, Inv, Ratified, Settled, Same;
      var entries := DueEntries(b.now);
      due := entries;
      for i := 0 to |entries|
        invariant ResolveAll(old(View()), b, entries[..i]) == Some(View())
      {
        assert entries[..i + 1][..i] == entries[..i];
        var branch := View();
        var resolved := ResolveDueProposal(b, entries[i].id);
        if !resolved {
          Discard(branch);
          var refused := FailUnresolved(b, entries[i].id);
          if !refused {
            StaysRefused(old(View()), b, entries, i + 1);
            return false, due;
          }
        }
      }
      assert entries[..|entries|] == entries;
      if old(Inv(View())) {
        ChamberBeforeGov(old(View()), b, entries);
      }
      ok := true;
    }
  }

  lemma {:induction false} StaysRefused(s: State, b: Block, due: seq<Entry>, i: nat)
    requires i <= |due| && ResolveAll(s, b, due[..i]).None?
    ensures ResolveAll(s, b, due).None?
  {
    hide ResolveOrRefuse;
    if i == |due| {
      assert due[..i] == due;
    } else {
      assert due[..|due| - 1][..i] == due[..i];
      StaysRefused(s, b, due[..|due| - 1], i);
    }
  }
}
