/** Verifying action proofs on many goroutines: every interleaving ends, and ends with the
    answer of checking them one at a time. */
module OrchardProofs {
  import opened BigEndian
  import opened Orchard

  // ---------------------------------------------------------------- verdicts

  /** What the proof verifier does with one proof. */
  datatype Outcome = Returned(ok: bool) | Failed(error: string) | Panicked(reason: string)

  /** Why an action failed: its proof is well formed but invalid, or it made an error. */
  datatype Cause = Invalid | Error(text: string)

  datatype Verdict = Fine | ActionError(bundle: nat, action: nat, cause: Cause)

  type Verifier = (seq<Byte>, seq<nat>) -> Outcome

  datatype Job = Job(bundle: nat, action: nat)

  /** A panic is recovered into an error of its own. */
  function Judge(j: Job, o: Outcome): Verdict {
    match o
    case Returned(ok) => if ok then Fine else ActionError(j.bundle, j.action, Invalid)
    case Failed(e) => ActionError(j.bundle, j.action, Error(e))
    case Panicked(r) => ActionError(j.bundle, j.action, Error("proof verifier panicked: " + r))
  }

  function PublicInputs<P>(a: Action<P>, xy: P -> (nat, nat), sighash: nat): seq<nat> {
    [a.anchor, a.nullifier, a.commitment, xy(a.cv).0, xy(a.cv).1, sighash]
  }

  /** The public inputs fix all a proof is about: roots, nullifier, commitment, both
      coordinates of the value commitment, and the message it is bound to. */
  lemma InputsBind<P>(a: Action<P>, b: Action<P>, xy: P -> (nat, nat), s: nat, t: nat)
    ensures PublicInputs(a, xy, s) == PublicInputs(b, xy, t) <==>
      && a.anchor == b.anchor && a.nullifier == b.nullifier && a.commitment == b.commitment
      && xy(a.cv) == xy(b.cv) && s == t
  {
    var x, y := PublicInputs(a, xy, s), PublicInputs(b, xy, t);
    assert x == y ==> x[0] == y[0] && x[1] == y[1] && x[2] == y[2] && x[3] == y[3] && x[4] == y[4] && x[5] == y[5];
  }

  /** Everything a verification reads. */
  datatype Input<!P> = Input(bundles: seq<Bundle<P>>, xy: P -> (nat, nat), sighash: nat, verify: Verifier)
  {
    predicate Has(j: Job) {
      j.bundle < |bundles| && j.action < |bundles[j.bundle].actions|
    }

    function Run(j: Job): Outcome
      requires Has(j)
    {
      var a := bundles[j.bundle].actions[j.action];
      verify(a.proof, PublicInputs(a, xy, sighash))
    }

    function Check(j: Job): Verdict
      requires Has(j)
    {
      Judge(j, Run(j))
    }
  }

  /** The jobs of the first i bundles and the first j actions of the next. */
  function JobsTo<P>(bundles: seq<Bundle<P>>, i: nat, j: nat): (r: seq<Job>)
    requires i <= |bundles| && (j == 0 || (i < |bundles| && j <= |bundles[i].actions|))
    ensures forall k | 0 <= k < |r| :: r[k].bundle < |bundles| && r[k].action < |bundles[r[k].bundle].actions|
    decreases i, j
  {
    if j > 0 then JobsTo(bundles, i, j - 1) + [Job(i, j - 1)]
    else if i > 0 then JobsTo(bundles, i - 1, |bundles[i - 1].actions|)
    else []
  }

  /** Every action proof, in bundle and action order. */
  function Jobs<P>(bundles: seq<Bundle<P>>): (r: seq<Job>)
    ensures forall k | 0 <= k < |r| :: r[k].bundle < |bundles| && r[k].action < |bundles[r[k].bundle].actions|
  {
    JobsTo(bundles, |bundles|, 0)
  }

  /** The first failing job, in order. */
  function FirstFailure<P>(x: Input<P>, js: seq<Job>): Verdict
    requires forall k | 0 <= k < |js| :: x.Has(js[k])
  {
    if |js| == 0 then Fine else
    var before := FirstFailure(x, js[..|js| - 1]);
    if before != Fine then before else x.Check(js[|js| - 1])
  }

  function First(errs: seq<Verdict>): Verdict {
    if |errs| == 0 then Fine else
    var before := First(errs[..|errs| - 1]);
    if before != Fine then before else errs[|errs| - 1]
  }

  // ---------------------------------------------------------------- one at a time

  /** Checks proofs in order and stops at the first that fails. */
  method VerifySequential<P>(x: Input<P>) returns (r: Verdict)
    ensures r == FirstFailure(x, Jobs(x.bundles))
  {
    hide FirstFailure, JobsTo;
    NoJobs(x);
    for i := 0 to |x.bundles|
      invariant FirstFailure(x, JobsTo(x.bundles, i, 0)) == Fine
    {
      NextBundle(x.bundles, i);
      for j := 0 to |x.bundles[i].actions|
        invariant FirstFailure(x, JobsTo(x.bundles, i, j)) == Fine
      {
        r := x.Check(Job(i, j));
        Extend(x, i, j);
        if r != Fine {
          StopsEarly(x, i, j + 1, |x.bundles|, 0);
          return;
        }
      }
    }
    r := Fine;
  }

  lemma NoJobs<P>(x: Input<P>)
    ensures FirstFailure(x, JobsTo(x.bundles, 0, 0)) == Fine
  {
  }

  lemma NextBundle<P>(bundles: seq<Bundle<P>>, i: nat)
    requires i < |bundles|
    ensures JobsTo(bundles, i + 1, 0) == JobsTo(bundles, i, |bundles[i].actions|)
  {
  }

  lemma Extend<P>(x: Input<P>, i: nat, j: nat)
    requires i < |x.bundles| && j < |x.bundles[i].actions|
    ensures var before := FirstFailure(x, JobsTo(x.bundles, i, j));
      FirstFailure(x, JobsTo(x.bundles, i, j + 1)) == if before != Fine then before else x.Check(Job(i, j))
  {
    var js := JobsTo(x.bundles, i, j + 1);
    assert js[..|js| - 1] == JobsTo(x.bundles, i, j);
  }

  /** Jobs after a failing one do not change the answer. */
  lemma {:induction false} StopsEarly<P>(x: Input<P>, i: nat, j: nat, i': nat, j': nat)
    requires i <= |x.bundles| && (j == 0 || (i < |x.bundles| && j <= |x.bundles[i].actions|))
    requires i' <= |x.bundles| && (j' == 0 || (i' < |x.bundles| && j' <= |x.bundles[i'].actions|))
    requires i < i' || (i == i' && j <= j')
    requires FirstFailure(x, JobsTo(x.bundles, i, j)) != Fine
    ensures FirstFailure(x, JobsTo(x.bundles, i', j')) == FirstFailure(x, JobsTo(x.bundles, i, j))
    decreases i', j'
  {
    hide FirstFailure;
    if i == i' && j == j' {
    } else if j' > 0 {
      StopsEarly(x, i, j, i', j' - 1);
      Extend(x, i', j' - 1);
    } else {
      StopsEarly(x, i, j, i' - 1, |x.bundles[i' - 1].actions|);
    }
  }
}
