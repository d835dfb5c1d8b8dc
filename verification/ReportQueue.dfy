/** The reporting queue: snapshots and exports, each job claimed at most three times, by any number of workers. */
module ReportQueue {
  import opened Options

  datatype Queue = Snapshots | Exports
  datatype State = Queued | Processing | Succeeded | Failed
  datatype FailureCode = AttemptLimit | GenerationFailed | ExportFailed

  datatype Job = Job(
    state: State, worker: Option<string>, fence: nat, attempts: nat, leaseUntil: Option<int>, availableAt: int,
    content: Option<string>, failure: Option<FailureCode>)

  const MaxAttempts := 3
  const SweepLimit := 100

  /** `claims` counts how often each job was handed to a worker. */
  datatype Board = Board(now: int, jobs: map<(Queue, string), Job>, claims: multiset<(Queue, string)>)

  datatype Step =
    | Tick(us: nat)
    | Enqueue(job: (Queue, string))
    | Sweep(queue: Queue, chosen: set<string>)
    | Claim(job: (Queue, string), worker: string, lease: nat)
    | Release(job: (Queue, string), worker: string, fence: nat)
    | Fail(job: (Queue, string), worker: string, fence: nat)
    | Complete(job: (Queue, string), worker: string, fence: nat, content: string)

  predicate Terminal(s: State) { s == Succeeded || s == Failed }

  predicate Lapsed(j: Job, now: int) {
    j.state == Processing && j.leaseUntil.Some? && j.leaseUntil.value <= now
  }

  /** Waiting or abandoned, with no attempt left. */
  predicate Exhausted(j: Job, now: int) {
    j.attempts >= MaxAttempts && (j.state == Queued || Lapsed(j, now))
  }

  predicate Claimable(j: Job, now: int) {
    j.attempts < MaxAttempts && ((j.state == Queued && j.availableAt <= now) || Lapsed(j, now))
  }

  predicate Owned(j: Job, worker: string, fence: nat) {
    j.state == Processing && j.worker == Some(worker) && j.fence == fence
  }

  predicate Held(j: Job, worker: string, fence: nat, now: int) {
    Owned(j, worker, fence) && j.leaseUntil.Some? && j.leaseUntil.value > now
  }

  function GivenUp(j: Job, queue: Queue): Job {
    j.(state := Failed, worker := None, leaseUntil := None,
       failure := Some(if queue == Snapshots then AttemptLimit else ExportFailed))
  }

  function ClaimedBy(j: Job, worker: string, lease: nat, now: int): Job {
    j.(state := Processing, worker := Some(worker), fence := j.fence + 1, attempts := j.attempts + 1,
       leaseUntil := Some(now + lease))
  }

  function Requeued(j: Job, at: int): Job {
    j.(state := Queued, worker := None, leaseUntil := None, availableAt := at)
  }

  /** A failed attempt waits one second per attempt, or ends the job. A snapshot keeps the last failure while
      it waits; an export does not. */
  function Retried(j: Job, queue: Queue, now: int): Job {
    j.(state := if j.attempts < MaxAttempts then Queued else Failed, worker := None, leaseUntil := None,
       availableAt := now + 1000000 * j.attempts,
       failure := if queue == Snapshots then Some(GenerationFailed)
                  else if j.attempts < MaxAttempts then None else Some(ExportFailed))
  }

  function Published(j: Job, content: string): Job {
    j.(state := Succeeded, worker := None, leaseUntil := None, content := Some(content), failure := None)
  }

  function Put(b: Board, k: (Queue, string), j: Job): Board {
    b.(jobs := b.jobs[k := j])
  }

  /** The first statement of a claim gives up some of the exhausted jobs of the queue: at most 100, and none
      that another worker has locked. */
  predicate Swept(b: Board, queue: Queue, chosen: set<string>, k: (Queue, string)) {
    |chosen| <= SweepLimit && k.0 == queue && k.1 in chosen && k in b.jobs && Exhausted(b.jobs[k], b.now)
  }

  function SweepStep(b: Board, queue: Queue, chosen: set<string>): Board {
    b.(jobs := map k | k in b.jobs :: if Swept(b, queue, chosen, k) then GivenUp(b.jobs[k], queue) else b.jobs[k])
  }

  function Apply(b: Board, s: Step): Board {
    match s
    case Tick(us) => b.(now := b.now + us)
    case Enqueue(k) => if k in b.jobs then b else Put(b, k, Job(Queued, None, 0, 0, None, b.now, None, None))
    case Sweep(queue, chosen) => SweepStep(b, queue, chosen)
    case Claim(k, worker, lease) =>
      if k in b.jobs && Claimable(b.jobs[k], b.now)
      then Put(b, k, ClaimedBy(b.jobs[k], worker, lease, b.now)).(claims := b.claims + multiset{k}) else b
    case Release(k, worker, fence) =>
      if k in b.jobs && Owned(b.jobs[k], worker, fence)
      then Put(b, k, Requeued(b.jobs[k], if k.0 == Exports then b.now else b.jobs[k].availableAt)) else b
    case Fail(k, worker, fence) =>
      if k in b.jobs && Held(b.jobs[k], worker, fence, b.now) then Put(b, k, Retried(b.jobs[k], k.0, b.now)) else b
    case Complete(k, worker, fence, content) =>
      if k in b.jobs && Held(b.jobs[k], worker, fence, b.now) then Put(b, k, Published(b.jobs[k], content)) else b
  }

  function Empty(now: int): Board {
    Board(now, map[], multiset{})
  }

  function Run(b: Board, steps: seq<Step>): Board {
    if steps == [] then b else Apply(Run(b, steps[..|steps| - 1]), steps[|steps| - 1])
  }

  // ----- what every run keeps -----

  predicate JobOk(j: Job) {
    j.fence == j.attempts <= MaxAttempts &&
    (j.state == Processing <==> j.worker.Some?) && (j.state == Processing <==> j.leaseUntil.Some?) &&
    (j.state == Processing ==> j.attempts >= 1) &&
    (j.state == Succeeded <==> j.content.Some?) && (j.state == Failed ==> j.failure.Some? && j.attempts == MaxAttempts)
  }

  ghost predicate Inv(b: Board) {
    (forall k <- b.jobs :: JobOk(b.jobs[k])) &&
    (forall k :: b.claims[k] == if k in b.jobs then b.jobs[k].attempts else 0)
  }

  lemma StepKeepsJobs(b: Board, s: Step, k: (Queue, string))
    requires k in b.jobs ==> JobOk(b.jobs[k])
    ensures k in Apply(b, s).jobs ==> JobOk(Apply(b, s).jobs[k])
  {}

  lemma StepKeepsClaims(b: Board, s: Step, k: (Queue, string))
    requires b.claims[k] == if k in b.jobs then b.jobs[k].attempts else 0
    ensures Apply(b, s).claims[k] == if k in Apply(b, s).jobs then Apply(b, s).jobs[k].attempts else 0
  {}

  lemma StepKeepsInv(b: Board, s: Step)
    requires Inv(b)
    ensures Inv(Apply(b, s))
  {
    var c := Apply(b, s);
    forall k <- c.jobs ensures JobOk(c.jobs[k]) { StepKeepsJobs(b, s, k); }
    forall k ensures c.claims[k] == if k in c.jobs then c.jobs[k].attempts else 0 { StepKeepsClaims(b, s, k); }
  }

  lemma {:induction false} RunKeepsInv(b: Board, steps: seq<Step>)
    requires Inv(b)
    ensures Inv(Run(b, steps))
  {
    if steps != [] {
      RunKeepsInv(b, steps[..|steps| - 1]);
      StepKeepsInv(Run(b, steps[..|steps| - 1]), steps[|steps| - 1]);
    }
  }

  /** No job is ever handed out more than three times, and its fence counts the times. */
  lemma AtMostThreeClaims(start: int, steps: seq<Step>, k: (Queue, string))
    ensures var b := Run(Empty(start), steps);
            b.claims[k] <= MaxAttempts && (k in b.jobs ==> JobOk(b.jobs[k]) && b.claims[k] == b.jobs[k].fence)
  {
    RunKeepsInv(Empty(start), steps);
  }

  /** A job moves forward: fences never fall, and a terminal job never changes. */
  predicate Onward(j: Job, next: Job) {
    j.fence <= next.fence && (Terminal(j.state) ==> next == j)
  }

  lemma StepIsOnward(b: Board, s: Step, k: (Queue, string))
    requires k in b.jobs
    ensures k in Apply(b, s).jobs && Onward(b.jobs[k], Apply(b, s).jobs[k])
  {}

  lemma {:induction false} RunIsOnward(b: Board, steps: seq<Step>, k: (Queue, string))
    requires k in b.jobs
    ensures k in Run(b, steps).jobs && Onward(b.jobs[k], Run(b, steps).jobs[k])
  {
    if steps != [] {
      RunIsOnward(b, steps[..|steps| - 1], k);
      StepIsOnward(Run(b, steps[..|steps| - 1]), steps[|steps| - 1], k);
    }
  }

  // ----- how a job ends -----

  /** The step ends the job: a sweep gives it up, or the holder of a live lease completes it or fails it with
      no attempt left. */
  predicate Ends(b: Board, s: Step, k: (Queue, string)) {
    k in b.jobs && !Terminal(b.jobs[k].state) &&
    match s
    case Sweep(queue, chosen) => Swept(b, queue, chosen, k)
    case Fail(job, worker, fence) =>
      job == k && Held(b.jobs[k], worker, fence, b.now) && b.jobs[k].attempts >= MaxAttempts
    case Complete(job, worker, fence, _) => job == k && Held(b.jobs[k], worker, fence, b.now)
    case _ => false
  }

  lemma StepEnds(b: Board, s: Step, k: (Queue, string))
    requires k in b.jobs && !Terminal(b.jobs[k].state)
    ensures k in Apply(b, s).jobs && (Terminal(Apply(b, s).jobs[k].state) <==> Ends(b, s, k))
  {}

  ghost predicate EndedAt(b: Board, later: seq<Step>, k: (Queue, string), i: nat) {
    i < |later| && Ends(Run(b, later[..i]), later[i], k)
  }

  lemma EndedBefore(b: Board, later: seq<Step>, k: (Queue, string), i: nat)
    requires i + 1 < |later|
    ensures EndedAt(b, later, k, i) <==> EndedAt(b, later[..|later| - 1], k, i)
  {
    assert later[..|later| - 1][..i] == later[..i];
  }

  /** Over any run a job becomes terminal if and only if one of the steps ends it. */
  lemma {:induction false} TerminalIffEnded(b: Board, later: seq<Step>, k: (Queue, string))
    requires k in b.jobs && !Terminal(b.jobs[k].state)
    ensures k in Run(b, later).jobs
    ensures Terminal(Run(b, later).jobs[k].state) <==> exists i :: EndedAt(b, later, k, i)
  {
    if later != [] {
      var n := |later| - 1;
      var front := later[..n];
      var c := Run(b, front);
      TerminalIffEnded(b, front, k);
      forall i: nat | i < n ensures EndedAt(b, later, k, i) <==>
        EndedAt(b, front, k, i) { EndedBefore(b, later, k, i); }
      if Terminal(c.jobs[k].state) {
        StepIsOnward(c, later[n], k);
        var i :| EndedAt(b, front, k, i);
        assert EndedAt(b, later, k, i);
      } else {
        StepEnds(c, later[n], k);
        assert EndedAt(b, later, k, n) <==> Ends(c, later[n], k);
        if Ends(c, later[n], k) { assert EndedAt(b, later, k, n); }
        assert forall i: nat :: EndedAt(b, later, k, i) ==> i == n;
      }
    }
  }

  lemma {:induction false} ClaimsNeverFall(b: Board, later: seq<Step>, k: (Queue, string))
    ensures Run(b, later).claims[k] >= b.claims[k]
  {
    if later != [] { ClaimsNeverFall(b, later[..|later| - 1], k); }
  }

  /** A sweep that chooses the job while it is exhausted, or a `Fail` or `Complete` by its live holder. */
  predicate LastWord(b: Board, s: Step, k: (Queue, string)) {
    k in b.jobs &&
    match s
    case Sweep(queue, chosen) => Swept(b, queue, chosen, k)
    case Fail(job, worker, fence) => job == k && Held(b.jobs[k], worker, fence, b.now)
    case Complete(job, worker, fence, _) => job == k && Held(b.jobs[k], worker, fence, b.now)
    case _ => false
  }

  ghost predicate LastWordAt(b: Board, later: seq<Step>, k: (Queue, string), i: nat) {
    i < |later| && LastWord(Run(b, later[..i]), later[i], k)
  }

  lemma ClaimsSpent(b: Board, later: seq<Step>, k: (Queue, string))
    requires Inv(b) && k in b.jobs && b.claims[k] == MaxAttempts
    ensures var c := Run(b, later); k in c.jobs && c.claims[k] == c.jobs[k].attempts == MaxAttempts
  {
    RunIsOnward(b, later, k);
    RunKeepsInv(b, later);
    ClaimsNeverFall(b, later, k);
  }

  lemma LastWordEnds(b: Board, later: seq<Step>, k: (Queue, string), i: nat)
    requires Inv(b) && k in b.jobs && b.claims[k] == MaxAttempts && i < |later|
    ensures LastWordAt(b, later, k, i) <==> EndedAt(b, later, k, i)
  {
    ClaimsSpent(b, later[..i], k);
  }

  /** After the third claim nobody is handed the job again, and over any later run it becomes terminal if and
      only if some step is a sweep that chooses it while it is exhausted, or a `Fail` or `Complete` by the
      live holder. */
  lemma ThirdClaimIsTheLast(b: Board, later: seq<Step>, k: (Queue, string))
    requires Inv(b) && k in b.jobs && b.claims[k] == MaxAttempts && !Terminal(b.jobs[k].state)
    ensures k in Run(b, later).jobs && Run(b, later).claims[k] == MaxAttempts
    ensures Terminal(Run(b, later).jobs[k].state) <==> exists i :: LastWordAt(b, later, k, i)
  {
    ClaimsSpent(b, later, k);
    TerminalIffEnded(b, later, k);
    forall i: nat | i < |later| ensures LastWordAt(b, later, k, i) <==> EndedAt(b, later, k, i) {
      LastWordEnds(b, later, k, i);
    }
    if exists i :: EndedAt(b, later, k, i) {
      var i :| EndedAt(b, later, k, i);
      assert LastWordAt(b, later, k, i);
    }
    if exists i :: LastWordAt(b, later, k, i) {
      var i :| LastWordAt(b, later, k, i);
      assert EndedAt(b, later, k, i);
    }
  }

  lemma RunPair(b: Board, xs: seq<Step>, s: Step, t: Step)
    ensures Run(b, xs + [s, t]) == Apply(Apply(Run(b, xs), s), t)
  {
    var all := xs + [s, t];
    assert all[..|xs| + 1] == xs + [s];
    assert (xs + [s])[..|xs|] == xs;
  }

  /** A worker that is stopped gives its claim back at once; `n` workers are stopped one after the other. */
  function Stops(k: (Queue, string), n: nat): seq<Step> {
    if n == 0 then [Enqueue(k)] else Stops(k, n - 1) + [Claim(k, "w", 1), Release(k, "w", n)]
  }

  predicate Waits(b: Board, k: (Queue, string), n: nat) {
    b.now == 0 && b.claims[k] == n && k in b.jobs && b.jobs[k] == Job(Queued, None, n, n, None, 0, None, None)
  }

  lemma StopOnce(b: Board, k: (Queue, string), n: nat)
    requires k.0 == Snapshots && 0 < n <= MaxAttempts && Waits(b, k, n - 1)
    ensures Waits(Apply(Apply(b, Claim(k, "w", 1)), Release(k, "w", n)), k, n)
  {}

  lemma {:induction false} AfterStops(k: (Queue, string), n: nat)
    requires k.0 == Snapshots && n <= MaxAttempts
    ensures Waits(Run(Empty(0), Stops(k, n)), k, n)
  {
    if n == 0 {
      assert [Enqueue(k)][..0] == [];
    } else {
      AfterStops(k, n - 1);
      RunPair(Empty(0), Stops(k, n - 1), Claim(k, "w", 1), Release(k, "w", n));
      StopOnce(Run(Empty(0), Stops(k, n - 1)), k, n);
    }
  }

  /** After that the job waits with no attempt left: sweeps that do not choose it leave it waiting, however
      many there are and however long it takes. */
  lemma SkippedJobKeepsWaiting(k: (Queue, string), n: nat, later: seq<Step>)
    requires k.0 == Snapshots && n == MaxAttempts
    requires forall s <- later :: s.Tick? || (s.Sweep? && k.1 !in s.chosen)
    ensures var b := Run(Empty(0), Stops(k, n));
            b.claims[k] == MaxAttempts && k in Run(b, later).jobs && !Terminal(Run(b, later).jobs[k].state)
  {
    AfterStops(k, n);
    TerminalIffEnded(Run(Empty(0), Stops(k, n)), later, k);
  }

  /** A worker with an old fence can neither publish, fail nor release the job, now or ever. */
  lemma StaleFenceIsPowerless(b: Board, later: seq<Step>, k: (Queue, string), worker: string, fence: nat,
      content: string)
    requires k in b.jobs && fence < b.jobs[k].fence
    ensures var c := Run(b, later);
            Apply(c, Complete(k, worker, fence, content)) == c && Apply(c, Fail(k, worker, fence)) == c &&
            Apply(c, Release(k, worker, fence)) == c
  {
    RunIsOnward(b, later, k);
  }

  /** Content appears only by the hand of the worker that holds the current fence and a live lease. */
  lemma OnlyTheHolderPublishes(b: Board, s: Step, k: (Queue, string))
    requires Inv(b) && k in Apply(b, s).jobs && Apply(b, s).jobs[k].content.Some?
    ensures (k in b.jobs && b.jobs[k].content == Apply(b, s).jobs[k].content) ||
            (s.Complete? && s.job == k && k in b.jobs && Held(b.jobs[k], s.worker, s.fence, b.now) &&
             s.fence == b.jobs[k].attempts &&
             Apply(b, s).jobs[k].content == Some(s.content))
  {}

  // ----- the scheduler -----

  datatype Answer = Got | Nothing | Broken
  datatype Call = Call(queue: Queue, got: bool)

  /** Between two jobs from one queue, the other queue was asked. */
  predicate Fair(trace: seq<Call>) {
    forall i, j :: 0 <= i < j < |trace| && trace[i].got && trace[j].got && trace[i].queue == trace[j].queue ==>
      exists k :: i < k < j && trace[k].queue != trace[i].queue
  }

  /** The last job came from this queue, and the other has not been asked since. */
  predicate Owes(trace: seq<Call>, q: Queue) {
    exists i :: 0 <= i < |trace| && trace[i].got && trace[i].queue == q && forall k :: i < k < |trace| ==>
    trace[k].queue == q
  }

  lemma Ask(trace: seq<Call>, c: Call)
    requires Fair(trace) && (c.got ==> !Owes(trace, c.queue))
    ensures Fair(trace + [c])
    ensures forall q :: Owes(trace + [c], q) ==> q == c.queue && (c.got || Owes(trace, q))
  {
    var t := trace + [c];
    forall i, j | 0 <= i < j < |t| && t[i].got && t[j].got && t[i].queue == t[j].queue
      ensures exists k :: i < k < j && t[k].queue != t[i].queue
    {
      if j < |trace| {
        var k :| i < k < j && trace[k].queue != trace[i].queue;
        assert t[k] == trace[k];
      } else {
        assert trace[i].got && trace[i].queue == c.queue;
        var k :| i < k < |trace| && trace[k].queue != c.queue;
        assert t[k] == trace[k];
      }
    }
    forall q | Owes(t, q) ensures q == c.queue && (c.got || Owes(trace, q)) {
      var i :| 0 <= i < |t| && t[i].got && t[i].queue == q && forall k :: i < k < |t| ==> t[k].queue == q;
      assert t[|trace|] == c;
      if i < |trace| {
        assert forall k :: i < k < |trace| ==> trace[k] == t[k];
        assert trace[i].got && trace[i].queue == q;
      }
    }
  }

  /** The loop of `ProcessReports`, fed with the answers of its claims; it stops when its context does, when
      a claim breaks, or when nothing is pending. */
  method ProcessReports(answers: seq<Answer>) returns (trace: seq<Call>)
    ensures Fair(trace)
    ensures |trace| <= |answers| && forall i :: 0 <= i < |trace| ==> trace[i].got == (answers[i] == Got)
  {
    trace := [];
    var preferExport := true;
    while |trace| < |answers|
      invariant |trace| <= |answers| && forall i :: 0 <= i < |trace| ==> trace[i].got == (answers[i] == Got)
      invariant Fair(trace) && (Owes(trace, Exports) ==> !preferExport) && (Owes(trace, Snapshots) ==> preferExport)
      decreases |answers| - |trace|
    {
      if preferExport {
        var found := answers[|trace|];
        Ask(trace, Call(Exports, found == Got));
        trace := trace + [Call(Exports, found == Got)];
        if found == Got {
          preferExport := false;
          continue;
        }
        if found == Broken || |trace| == |answers| { return; }
      }
      var report := answers[|trace|];
      Ask(trace, Call(Snapshots, report == Got));
      trace := trace + [Call(Snapshots, report == Got)];
      if report == Got {
        preferExport := true;
        continue;
      }
      if report == Broken || |trace| == |answers| { return; }
      if !preferExport {
        var found := answers[|trace|];
        Ask(trace, Call(Exports, found == Got));
        trace := trace + [Call(Exports, found == Got)];
        if found == Got {
          preferExport := false;
          continue;
        }
        if found == Broken { return; }
      }
    }
  }
}
