/** The goroutines of a concurrent verification as a state machine: a producer, an
    unbuffered channel, a pool of workers, a result slot per job and a wait group. */
module OrchardSchedule {
  import opened Orchard
  import opened OrchardProofs

  /** A worker: not yet spawned, at the channel, verifying a job, about to record it, gone. */
  datatype Worker = Unborn | Ready | Busy(job: nat) | Judged(job: nat, verdict: Verdict) | Gone

  /** The producer: spawning, sending, waiting for the workers, returned. */
  datatype Producer = Spawning(started: nat) | Sending(next: nat) | Waiting | Ended(result: Verdict)

  datatype State = State(producer: Producer, workers: seq<Worker>, errs: seq<Verdict>, closed: bool, alive: nat)

  /** One scheduler step: of the producer alone, of worker w alone, or the hand-off that
      the unbuffered channel makes both take together. */
  datatype Step = Spawn | Begin | Handoff(w: nat) | Close | Finish(w: nat) | Record(w: nat) | Exit(w: nat) | Join

  function Min(a: nat, b: nat): nat {
    if a < b then a else b
  }

  /** want is the verdict of each job; procs the processors available. */
  function Initial(want: seq<Verdict>, procs: nat): State {
    State(Spawning(0), seq(Min(procs, |want|), _ => Unborn), seq(|want|, _ => Fine), false, 0)
  }

  predicate Is(s: State, w: nat, x: Worker) {
    w < |s.workers| && s.workers[w] == x
  }

  predicate Enabled(want: seq<Verdict>, s: State, t: Step) {
    match t
    case Spawn => s.producer.Spawning? && s.producer.started < |s.workers|
    case Begin => s.producer.Spawning? && s.producer.started == |s.workers|
    case Handoff(w) => s.producer.Sending? && s.producer.next < |want| && Is(s, w, Ready)
    case Close => s.producer.Sending? && s.producer.next == |want|
    case Finish(w) => w < |s.workers| && s.workers[w].Busy? && s.workers[w].job < |want|
    case Record(w) => w < |s.workers| && s.workers[w].Judged? && s.workers[w].job < |s.errs|
    case Exit(w) => s.closed && s.alive > 0 && Is(s, w, Ready)
    case Join => s.producer.Waiting? && s.alive == 0
  }

  function Next(want: seq<Verdict>, s: State, t: Step): State
    requires Enabled(want, s, t)
  {
    match t
    case Spawn =>
      s.(producer := Spawning(s.producer.started + 1), workers := s.workers[s.producer.started := Ready],
        alive := s.alive + 1)
    case Begin => s.(producer := Sending(0))
    case Handoff(w) => s.(producer := Sending(s.producer.next + 1), workers := s.workers[w := Busy(s.producer.next)])
    case Close => s.(producer := Waiting, closed := true)
    case Finish(w) => s.(workers := s.workers[w := Judged(s.workers[w].job, want[s.workers[w].job])])
    case Record(w) =>
      var e := s.workers[w];
      s.(workers := s.workers[w := Ready], errs := if e.verdict == Fine then s.errs else s.errs[e.job := e.verdict])
    case Exit(w) => s.(workers := s.workers[w := Gone], alive := s.alive - 1)
    case Join => s.(producer := Ended(First(s.errs)))
  }

  // ---------------------------------------------------------------- the invariant

  /** Jobs sent so far. */
  function Sent(want: seq<Verdict>, s: State): nat {
    match s.producer
    case Spawning(_) => 0
    case Sending(k) => k
    case _ => |want|
  }

  predicate Holds(x: Worker, k: nat) {
    (x.Busy? || x.Judged?) && x.job == k
  }

  ghost predicate Held(s: State, k: nat) {
    exists w | 0 <= w < |s.workers| :: Holds(s.workers[w], k)
  }

  function Living(x: Worker): nat {
    if x.Unborn? || x.Gone? then 0 else 1
  }

  function Rank(x: Worker): nat {
    match x
    case Ready => 1
    case Busy(_) => 3
    case Judged(_, _) => 2
    case _ => 0
  }

  function Total(f: Worker -> nat, ws: seq<Worker>): nat {
    if |ws| == 0 then 0 else Total(f, ws[..|ws| - 1]) + f(ws[|ws| - 1])
  }

  /** A worker's job was sent, is not yet recorded, and its verdict is the verifier's. */
  predicate WorkerOk(want: seq<Verdict>, s: State, w: nat)
    requires w < |s.workers| && |s.errs| == |want|
  {
    var x := s.workers[w];
    && (x.Busy? || x.Judged? ==> x.job < Sent(want, s) && x.job < |want| && s.errs[x.job] == Fine)
    && (x.Judged? ==> x.verdict == want[x.job])
    && (x.Unborn? <==> s.producer.Spawning? && s.producer.started <= w)
    && (x.Gone? ==> s.closed)
  }

  /** Sent jobs are in hand or recorded; the others are untouched. */
  ghost predicate JobOk(want: seq<Verdict>, s: State, k: nat)
    requires k < |want| == |s.errs|
  {
    if k < Sent(want, s) then Held(s, k) || s.errs[k] == want[k] else s.errs[k] == Fine
  }

  ghost predicate Inv(want: seq<Verdict>, s: State) {
    && |s.errs| == |want|
    && Sent(want, s) <= |want|
    && (|want| > 0 ==> |s.workers| > 0)
    && (s.producer.Spawning? ==> s.producer.started <= |s.workers|)
    && (s.closed <==> s.producer.Waiting? || s.producer.Ended?)
    && s.alive == Total(Living, s.workers)
    && (forall w | 0 <= w < |s.workers| :: WorkerOk(want, s, w))
    && (forall v, w | 0 <= v < w < |s.workers| :: forall k | Holds(s.workers[v], k) :: !Holds(s.workers[w], k))
    && (forall k | 0 <= k < |want| :: JobOk(want, s, k))
    && (s.producer.Ended? ==> s.alive == 0 && s.producer.result == First(want))
  }

  lemma {:induction false} TotalUpdate(f: Worker -> nat, ws: seq<Worker>, i: nat, x: Worker)
    requires i < |ws|
    ensures Total(f, ws[i := x]) == Total(f, ws) - f(ws[i]) + f(x)
  {
    var n := |ws| - 1;
    if i < n {
      TotalUpdate(f, ws[..n], i, x);
      assert ws[i := x][..n] == ws[..n][i := x];
    } else {
      assert ws[i := x][..n] == ws[..n];
    }
  }

  lemma {:induction false} TotalBound(f: Worker -> nat, ws: seq<Worker>, i: nat)
    requires i < |ws|
    ensures f(ws[i]) <= Total(f, ws)
  {
    if i < |ws| - 1 {
      TotalBound(f, ws[..|ws| - 1], i);
    }
  }

  lemma {:induction false} InitialInv(want: seq<Verdict>, procs: nat)
    requires procs > 0
    ensures Inv(want, Initial(want, procs))
  {
    var s := Initial(want, procs);
    NoneAlive(s.workers);
  }

  lemma {:induction false} NoneAlive(ws: seq<Worker>)
    requires forall w | 0 <= w < |ws| :: Living(ws[w]) == 0
    ensures Total(Living, ws) == 0
  {
    if |ws| > 0 {
      NoneAlive(ws[..|ws| - 1]);
    }
  }

  // ---------------------------------------------------------------- steps keep the invariant

  lemma StepInv(want: seq<Verdict>, s: State, t: Step)
    requires Inv(want, s) && Enabled(want, s, t)
    ensures Inv(want, Next(want, s, t))
  {
    match t {
      case Spawn => SpawnInv(want, s);
      case Begin => ProducerInv(want, s, t);
      case Handoff(w) => HandoffInv(want, s, w);
      case Close => ProducerInv(want, s, t);
      case Finish(w) => FinishInv(want, s, w);
      case Record(w) => RecordInv(want, s, w);
      case Exit(w) => ExitInv(want, s, w);
      case Join => JoinInv(want, s);
    }
  }

  lemma ProducerInv(want: seq<Verdict>, s: State, t: Step)
    requires Inv(want, s) && Enabled(want, s, t) && (t == Begin || t == Close)
    ensures Inv(want, Next(want, s, t))
  {
    var n := Next(want, s, t);
    forall w | 0 <= w < |n.workers| ensures WorkerOk(want, n, w) {
      assert WorkerOk(want, s, w);
    }
    StillOk(want, s, n);
  }

  lemma SpawnInv(want: seq<Verdict>, s: State)
    requires Inv(want, s) && Enabled(want, s, Spawn)
    ensures Inv(want, Next(want, s, Spawn))
  {
    var i := s.producer.started;
    assert WorkerOk(want, s, i);
    TotalUpdate(Living, s.workers, i, Ready);
    var n := Next(want, s, Spawn);
    forall w | 0 <= w < |n.workers| ensures WorkerOk(want, n, w) {
      assert WorkerOk(want, s, w);
    }
    StillOk(want, s, n);
  }

  /** Jobs that no change of hands touches stay accounted for. */
  lemma StillOk(want: seq<Verdict>, s: State, n: State)
    requires Inv(want, s) && |n.errs| == |want| && Sent(want, n) == Sent(want, s) && n.errs == s.errs
    requires |n.workers| == |s.workers|
    requires forall w, k | 0 <= w < |s.workers| && Holds(s.workers[w], k) :: Holds(n.workers[w], k)
    ensures forall k | 0 <= k < |want| :: JobOk(want, n, k)
  {
    forall k | 0 <= k < |want| ensures JobOk(want, n, k) {
      assert JobOk(want, s, k);
    }
  }

  lemma HandoffInv(want: seq<Verdict>, s: State, w: nat)
    requires Inv(want, s) && Enabled(want, s, Handoff(w))
    ensures Inv(want, Next(want, s, Handoff(w)))
  {
    var n := Next(want, s, Handoff(w));
    var next := s.producer.next;
    TotalUpdate(Living, s.workers, w, Busy(next));
    assert JobOk(want, s, next);
    forall v | 0 <= v < |n.workers| ensures WorkerOk(want, n, v) {
      assert WorkerOk(want, s, v);
    }
    forall k | 0 <= k < |want| ensures JobOk(want, n, k) {
      assert JobOk(want, s, k);
      if k == next {
        assert Holds(n.workers[w], k);
      } else if Held(s, k) {
        var v :| 0 <= v < |s.workers| && Holds(s.workers[v], k);
        assert Holds(n.workers[v], k);
      }
    }
    forall u, v | 0 <= u < v < |n.workers| ensures forall k | Holds(n.workers[u], k) :: !Holds(n.workers[v], k) {
      assert WorkerOk(want, s, u) && WorkerOk(want, s, v);
    }
  }

  lemma FinishInv(want: seq<Verdict>, s: State, w: nat)
    requires Inv(want, s) && Enabled(want, s, Finish(w))
    ensures Inv(want, Next(want, s, Finish(w)))
  {
    var n := Next(want, s, Finish(w));
    TotalUpdate(Living, s.workers, w, n.workers[w]);
    forall v | 0 <= v < |n.workers| ensures WorkerOk(want, n, v) {
      assert WorkerOk(want, s, v);
    }
    StillOk(want, s, n);
  }

  lemma RecordInv(want: seq<Verdict>, s: State, w: nat)
    requires Inv(want, s) && Enabled(want, s, Record(w))
    ensures Inv(want, Next(want, s, Record(w)))
  {
    var n := Next(want, s, Record(w));
    var j := s.workers[w].job;
    assert WorkerOk(want, s, w);
    TotalUpdate(Living, s.workers, w, Ready);
    forall v | 0 <= v < |n.workers| ensures WorkerOk(want, n, v) {
      assert WorkerOk(want, s, v);
      assert v != w ==> !Holds(s.workers[v], j);
    }
    forall k | 0 <= k < |want| ensures JobOk(want, n, k) {
      assert JobOk(want, s, k);
      if k != j && Held(s, k) {
        var v :| 0 <= v < |s.workers| && Holds(s.workers[v], k);
        assert Holds(n.workers[v], k);
      }
    }
  }

  lemma ExitInv(want: seq<Verdict>, s: State, w: nat)
    requires Inv(want, s) && Enabled(want, s, Exit(w))
    ensures Inv(want, Next(want, s, Exit(w)))
  {
    var n := Next(want, s, Exit(w));
    TotalUpdate(Living, s.workers, w, Gone);
    forall v | 0 <= v < |n.workers| ensures WorkerOk(want, n, v) {
      assert WorkerOk(want, s, v);
    }
    StillOk(want, s, n);
  }

  lemma JoinInv(want: seq<Verdict>, s: State)
    requires Inv(want, s) && Enabled(want, s, Join)
    ensures Inv(want, Next(want, s, Join))
  {
    forall k | 0 <= k < |want| ensures s.errs[k] == want[k] {
      assert JobOk(want, s, k);
      if Held(s, k) {
        var v :| 0 <= v < |s.workers| && Holds(s.workers[v], k);
        TotalBound(Living, s.workers, v);
      }
    }
    assert s.errs == want;
    var n := Next(want, s, Join);
    forall w | 0 <= w < |n.workers| ensures WorkerOk(want, n, w) {
      assert WorkerOk(want, s, w);
    }
    StillOk(want, s, n);
  }

  // ---------------------------------------------------------------- no deadlock, and an end

  /** What remains to be done; every step uses some of it up. */
  function Work(want: seq<Verdict>, s: State): nat
    requires Sent(want, s) <= |want|
    requires s.producer.Spawning? ==> s.producer.started <= |s.workers|
  {
    Total(Rank, s.workers) +
    match s.producer
    case Spawning(i) => 2 * (|s.workers| - i) + 3 * |want| + 3
    case Sending(k) => 3 * (|want| - k) + 2
    case Waiting => 1
    case Ended(_) => 0
  }

  lemma StepWorks(want: seq<Verdict>, s: State, t: Step)
    requires Inv(want, s) && Enabled(want, s, t)
    ensures Inv(want, Next(want, s, t)) && Work(want, Next(want, s, t)) < Work(want, s)
  {
    hide Inv;
    StepInv(want, s, t);
    Fits(want, s);
    Fits(want, Next(want, s, t));
    match t {
      case Spawn =>
        assert WorkerOk(want, s, s.producer.started) by { Fits(want, s); }
        TotalUpdate(Rank, s.workers, s.producer.started, Ready);
      case Begin =>
      case Handoff(w) => TotalUpdate(Rank, s.workers, w, Busy(s.producer.next));
      case Close =>
      case Finish(w) => TotalUpdate(Rank, s.workers, w, Next(want, s, t).workers[w]);
      case Record(w) => TotalUpdate(Rank, s.workers, w, Ready);
      case Exit(w) => TotalUpdate(Rank, s.workers, w, Gone);
      case Join =>
    }
  }

  lemma Fits(want: seq<Verdict>, s: State)
    requires Inv(want, s)
    ensures Sent(want, s) <= |want| == |s.errs| && (s.producer.Spawning? ==> s.producer.started <= |s.workers|)
    ensures forall w | 0 <= w < |s.workers| :: WorkerOk(want, s, w)
  {
  }

  /** The first worker that has a step of its own, or the channel's. */
  function Movable(ws: seq<Worker>): (w: nat)
    ensures w <= |ws|
    ensures w < |ws| ==> Living(ws[w]) == 1
    ensures w == |ws| ==> forall v | 0 <= v < |ws| :: Living(ws[v]) == 0
  {
    if |ws| == 0 then 0 else
    var w := Movable(ws[..|ws| - 1]);
    if w < |ws| - 1 || Living(ws[w]) == 1 then w else |ws|
  }

  /** Some step of a state that has not returned. */
  function Choose(want: seq<Verdict>, s: State): Step {
    var w := Movable(s.workers);
    if s.producer.Spawning? then
      if s.producer.started < |s.workers| then Spawn else Begin
    else if s.producer.Sending? && s.producer.next == |want| then Close
    else if w == |s.workers| then Join
    else match s.workers[w]
      case Busy(_) => Finish(w)
      case Judged(_, _) => Record(w)
      case _ => if s.producer.Sending? then Handoff(w) else Exit(w)
  }

  /** No state short of the return is stuck, whatever the interleaving that led to it. */
  lemma NoDeadlock(want: seq<Verdict>, s: State)
    requires Inv(want, s) && !s.producer.Ended?
    ensures Enabled(want, s, Choose(want, s))
  {
    var w := Movable(s.workers);
    if w < |s.workers| {
      assert WorkerOk(want, s, w);
      TotalBound(Living, s.workers, w);
    } else {
      NoneAlive(s.workers);
      assert |s.workers| > 0 ==> WorkerOk(want, s, 0) && Living(s.workers[0]) == 0;
    }
  }

  // ---------------------------------------------------------------- every interleaving

  /** A run: steps taken one after another, each enabled where it is taken. */
  predicate Runs(want: seq<Verdict>, s: State, ts: seq<Step>)
    decreases |ts|
  {
    |ts| == 0 || (Enabled(want, s, ts[0]) && Runs(want, Next(want, s, ts[0]), ts[1..]))
  }

  function After(want: seq<Verdict>, s: State, ts: seq<Step>): State
    requires Runs(want, s, ts)
    decreases |ts|
  {
    if |ts| == 0 then s else After(want, Next(want, s, ts[0]), ts[1..])
  }

  lemma {:induction false} RunEnds(want: seq<Verdict>, s: State, ts: seq<Step>)
    requires Inv(want, s) && Runs(want, s, ts)
    ensures Inv(want, After(want, s, ts))
    ensures Inv(want, s) && Sent(want, s) <= |want| && |ts| <= Work(want, s)
    decreases |ts|
  {
    hide Inv, Enabled, Work;
    Fits(want, s);
    if |ts| > 0 {
      StepWorks(want, s, ts[0]);
      RunEnds(want, Next(want, s, ts[0]), ts[1..]);
    }
  }

  /** Any interleaving, on any number of processors, is bounded in length; where it stops
      it has returned, with the first failing job in order. */
  lemma EveryInterleaving(want: seq<Verdict>, procs: nat, ts: seq<Step>)
    requires procs > 0 && Runs(want, Initial(want, procs), ts)
    ensures |ts| <= 2 * Min(procs, |want|) + 3 * |want| + 3
    ensures var s := After(want, Initial(want, procs), ts);
      if s.producer.Ended? then s.producer.result == First(want) else exists t :: Enabled(want, s, t)
  {
    hide Inv, Work, Enabled, Choose;
    InitialInv(want, procs);
    RunEnds(want, Initial(want, procs), ts);
    InitialWork(want, procs);
    var s := After(want, Initial(want, procs), ts);
    if s.producer.Ended? {
      EndedResult(want, s);
    } else {
      NoDeadlock(want, s);
      assert Enabled(want, s, Choose(want, s));
    }
  }

  lemma EndedResult(want: seq<Verdict>, s: State)
    requires Inv(want, s) && s.producer.Ended?
    ensures s.producer.result == First(want)
  {
  }

  lemma InitialWork(want: seq<Verdict>, procs: nat)
    requires procs > 0
    ensures Work(want, Initial(want, procs)) == 2 * Min(procs, |want|) + 3 * |want| + 3
  {
    NoRank(Initial(want, procs).workers);
  }

  lemma {:induction false} NoRank(ws: seq<Worker>)
    requires forall w | 0 <= w < |ws| :: ws[w] == Unborn
    ensures Total(Rank, ws) == 0
  {
    if |ws| > 0 {
      NoRank(ws[..|ws| - 1]);
    }
  }

  // ---------------------------------------------------------------- the verification

  /** The verdict of each job, in order. */
  function Verdicts<P>(x: Input<P>, js: seq<Job>): (r: seq<Verdict>)
    requires forall k | 0 <= k < |js| :: x.Has(js[k])
    ensures |r| == |js|
  {
    seq(|js|, k requires 0 <= k < |js| => x.Check(js[k]))
  }

  lemma {:induction false} FirstIsFirstFailure<P>(x: Input<P>, js: seq<Job>)
    requires forall k | 0 <= k < |js| :: x.Has(js[k])
    ensures First(Verdicts(x, js)) == FirstFailure(x, js)
  {
    if |js| > 0 {
      var n := |js| - 1;
      FirstIsFirstFailure(x, js[..n]);
      assert Verdicts(x, js)[..n] == Verdicts(x, js[..n]);
    }
  }

  /** Verifies every proof on procs processors. The schedule proposes each step, and any
      that is enabled is taken, so that every interleaving is some schedule's. */
  method VerifyProofs<P>(x: Input<P>, procs: nat, schedule: (nat, State) -> Step) returns (r: Verdict)
    requires procs > 0
    ensures r == FirstFailure(x, Jobs(x.bundles))
  {
    hide Inv, Enabled, Choose, Work;
    var js := ListJobs(x.bundles);
    var want := Verdicts(x, js);
    var s := Initial(want, procs);
    InitialInv(want, procs);
    FirstIsFirstFailure(x, js);
    var clock := 0;
    Fits(want, s);
    while !s.producer.Ended?
      invariant Inv(want, s)
      invariant Sent(want, s) <= |want| && (s.producer.Spawning? ==> s.producer.started <= |s.workers|)
      decreases Work(want, s)
    {
      var t := schedule(clock, s);
      NoDeadlock(want, s);
      if !Enabled(want, s, t) {
        t := Choose(want, s);
      }
      StepWorks(want, s, t);
      s := Next(want, s, t);
      Fits(want, s);
      clock := clock + 1;
    }
    EndedResult(want, s);
    r := s.producer.result;
  }

  method ListJobs<P>(bundles: seq<Bundle<P>>) returns (js: seq<Job>)
    ensures js == Jobs(bundles)
  {
    js := [];
    for i := 0 to |bundles|
      invariant js == JobsTo(bundles, i, 0)
    {
      for j := 0 to |bundles[i].actions|
        invariant js == JobsTo(bundles, i, j)
      {
        js := js + [Job(i, j)];
      }
    }
  }
}
