/** Runs that show where the shared limits of the dispatch pool stop. */
module AssessmentPoolLimits {
  import opened Options
  import opened AssessmentJobs
  import opened AssessmentPool
  import opened AssessmentPoolLaws
  import opened Counting
  import T = AssessmentTransport

  const Worker := "w"

  /** One new job, from its approval to its first dial, with a budget of one microsecond. */
  function Dispatch(tick: int, id: string, token: string): seq<Step> {
    [Enqueue(id, tick + 1), Admit(Worker), Mark(id, token, 1000 * tick, 1000, 1, tick + 1), Commit(true),
     Socket(token, T.StartDial(0))]
  }

  function DispatchedJob(tick: int, token: string): Job {
    Marked(Enqueued(tick + 1), Worker, token, 1, 1, tick)
  }

  function Dialing(tick: int, id: string): Attempt {
    Attempt(id, Worker, 1000 * tick + 1000, T.Fresh.(dialing := {0}))
  }

  function Dispatched(p: Pool, tick: int, id: string, token: string): Pool {
    p.(jobs := p.jobs[id := DispatchedJob(tick, token)], attempts := p.attempts[token := Dialing(tick, id)])
  }

  lemma FiveSteps(p: Pool, a: Step, b: Step, c: Step, d: Step, e: Step)
    ensures Run(p, [a, b, c, d, e]) == Apply(Apply(Apply(Apply(Apply(p, a), b), c), d), e)
  {
    var five := [a, b, c, d, e];
    assert five[..4] == [a, b, c, d];
    assert [a, b, c, d][..3] == [a, b, c];
    assert [a, b, c][..2] == [a, b];
    assert [a, b][..1] == [a];
    assert [a][..0] == [];
    assert Run(p, [a]) == Apply(p, a);
    assert Run(p, [a, b]) == Apply(Run(p, [a]), b);
    assert Run(p, [a, b, c]) == Apply(Run(p, [a, b]), c);
    assert Run(p, [a, b, c, d]) == Apply(Run(p, [a, b, c]), d);
  }

  function Queueing(p: Pool, tick: int, id: string): Pool {
    Write(p, id, Enqueued(tick + 1)).(claim := Admitted(Worker))
  }

  lemma AdmitNew(p: Pool, tick: int, id: string)
    requires p.claim.Unlocked? && p.now == 1000 * tick && id !in p.jobs && Admissible(p)
    ensures Apply(Apply(p, Enqueue(id, tick + 1)), Admit(Worker)) == Queueing(p, tick, id)
  {
    EnqueueStarts(p, id, tick + 1, tick - p.limits.window, tick);
  }

  function Marking(p: Pool, tick: int, id: string, token: string): Pool {
    Write(p, id, Enqueued(tick + 1)).(claim := Prepared(Worker, id, token, DispatchedJob(tick, token),
                                                        1000 * tick + 1000))
  }

  lemma MarkNew(p: Pool, tick: int, id: string, token: string)
    requires p.now == 1000 * tick && id !in p.jobs && UnusedToken(p, token)
    ensures Apply(Queueing(p, tick, id), Mark(id, token, 1000 * tick, 1000, 1, tick + 1)) == Marking(p, tick, id, token)
  {
    var q := Queueing(p, tick, id);
    assert IntervalMicros(1000) == 1;
    assert CanPrepare(q, id, token, 1000 * tick, 1000, tick + 1);
  }

  lemma CommitNew(p: Pool, tick: int, id: string, token: string)
    requires p.claim.Unlocked? && p.now == 1000 * tick && id !in p.jobs && token !in p.attempts
    ensures Apply(Apply(Marking(p, tick, id, token), Commit(true)), Socket(token, T.StartDial(0))) ==
            Dispatched(p, tick, id, token)
  {
    var q := Apply(Marking(p, tick, id, token), Commit(true));
    assert q.jobs == p.jobs[id := DispatchedJob(tick, token)];
    assert q.attempts == p.attempts[token := Attempt(id, Worker, 1000 * tick + 1000, T.Fresh)];
    assert Early(q, q.attempts[token]);
    assert T.Perform(T.Fresh, T.StartDial(0), true).dialing == {0};
    var r := Apply(q, Socket(token, T.StartDial(0)));
    assert r.attempts == p.attempts[token := Dialing(tick, id)];
  }

  /** Wherever the limits leave room, a new job can be dispatched. */
  lemma DispatchRuns(p: Pool, tick: int, id: string, token: string)
    requires p.claim.Unlocked? && p.now == 1000 * tick && id !in p.jobs && UnusedToken(p, token) && Admissible(p)
    ensures Run(p, Dispatch(tick, id, token)) == Dispatched(p, tick, id, token)
  {
    var steps := Dispatch(tick, id, token);
    FiveSteps(p, steps[0], steps[1], steps[2], steps[3], steps[4]);
    AdmitNew(p, tick, id);
    MarkNew(p, tick, id, token);
    CommitNew(p, tick, id, token);
  }

  // ----- past the persisted deadline -----

  /** The first job's deadline passes while its dial is still out, and the second takes its place. */
  function TwoDials(): seq<Step> {
    Dispatch(0, "a", "x") + [Tick(1000)] + Dispatch(1, "b", "y")
  }

  function AfterOneDial(): Pool {
    Dispatched(Open(0, Limits(1, 5, 7)), 0, "a", "x").(now := 1000)
  }

  function AfterTwoDials(): Pool {
    Dispatched(AfterOneDial(), 1, "b", "y")
  }

  lemma FirstDial(p: Pool, first: seq<Step>)
    requires p == Open(0, Limits(1, 5, 7)) && first == Dispatch(0, "a", "x")
    ensures Run(p, first + [Tick(1000)]) == AfterOneDial()
  {
    assert Active(p.jobs, 0) == {} && Starts(p.jobs, -7, 0) == {};
    DispatchRuns(p, 0, "a", "x");
    OneStep(Dispatched(p, 0, "a", "x"), Tick(1000));
    RunJoins(p, first, [Tick(1000)]);
  }

  lemma SecondDial(p: Pool, second: seq<Step>)
    requires p == AfterOneDial() && second == Dispatch(1, "b", "y")
    ensures Run(p, second) == AfterTwoDials()
  {
    assert Active(p.jobs, 1) == {} && Starts(p.jobs, -6, 1) == {"a"};
    DispatchRuns(p, 1, "b", "y");
  }

  lemma TwoDialsRun(p: Pool, first: seq<Step>, second: seq<Step>)
    requires p == Open(0, Limits(1, 5, 7)) && first == Dispatch(0, "a", "x") && second == Dispatch(1, "b", "y")
    ensures Run(p, first + [Tick(1000)] + second) == AfterTwoDials()
  {
    FirstDial(p, first);
    SecondDial(AfterOneDial(), second);
    RunJoins(p, first + [Tick(1000)], second);
  }

  lemma LiveAfterTwoDials(p: Pool)
    requires p == AfterTwoDials()
    ensures LiveAttempts(p) == {"x", "y"} && TimelyAttempts(p) == {"y"}
  {
    assert p.attempts.Keys == {"x", "y"};
  }

  /** With room for one, two attempts are live: the first no longer counts, because its deadline has passed. */
  lemma LiveAttemptsCanExceedLimit()
    ensures var p := Run(Open(0, Limits(1, 5, 7)), TwoDials());
            LiveAttempts(p) == {"x", "y"} && TimelyAttempts(p) == {"y"}
  {
    TwoDialsRun(Open(0, Limits(1, 5, 7)), Dispatch(0, "a", "x"), Dispatch(1, "b", "y"));
    LiveAfterTwoDials(Run(Open(0, Limits(1, 5, 7)), TwoDials()));
  }

  lemma OneStep(p: Pool, s: Step)
    ensures Run(p, [s]) == Apply(p, s)
  {
    assert [s][..0] == [];
  }

  // ----- both ends of a window -----

  function FourStarts(): seq<Step> {
    Dispatch(0, "a", "x") + Dispatch(0, "b", "y") + [Tick(7000)] + Dispatch(7, "c", "z") + Dispatch(7, "d", "u")
  }

  function AfterTwo(): Pool {
    Dispatched(Dispatched(Open(0, Limits(10, 2, 7)), 0, "a", "x"), 0, "b", "y").(now := 7000)
  }

  function AfterFour(): Pool {
    Dispatched(Dispatched(AfterTwo(), 7, "c", "z"), 7, "d", "u")
  }

  lemma LeftEnd(p: Pool)
    requires p == Open(0, Limits(10, 2, 7))
    ensures Run(p, Dispatch(0, "a", "x") + Dispatch(0, "b", "y") + [Tick(7000)]) == AfterTwo()
  {
    assert Active(p.jobs, 0) == {} && Starts(p.jobs, -7, 0) == {};
    DispatchRuns(p, 0, "a", "x");
    var q := Dispatched(p, 0, "a", "x");
    assert Active(q.jobs, 0) == {"a"} && Starts(q.jobs, -7, 0) == {"a"};
    DispatchRuns(q, 0, "b", "y");
    RunJoins(p, Dispatch(0, "a", "x"), Dispatch(0, "b", "y"));
    OneStep(Dispatched(q, 0, "b", "y"), Tick(7000));
    RunJoins(p, Dispatch(0, "a", "x") + Dispatch(0, "b", "y"), [Tick(7000)]);
  }

  lemma ThirdStart(p: Pool)
    requires p == AfterTwo()
    ensures Run(p, Dispatch(7, "c", "z")) == Dispatched(p, 7, "c", "z")
  {
    assert Active(p.jobs, 7) == {} && Starts(p.jobs, 0, 7) == {};
    DispatchRuns(p, 7, "c", "z");
  }

  lemma FourthStart(p: Pool)
    requires p == Dispatched(AfterTwo(), 7, "c", "z")
    ensures Run(p, Dispatch(7, "d", "u")) == AfterFour()
  {
    assert Active(p.jobs, 7) == {"c"} && Starts(p.jobs, 0, 7) == {"c"};
    DispatchRuns(p, 7, "d", "u");
  }

  /** With two requests allowed in seven ticks, four start in the closed interval from 0 to 7. */
  lemma ClosedWindowHoldsTwiceTheLimit()
    ensures var p := Run(Open(0, Limits(10, 2, 7)), FourStarts());
            Starts(p.jobs, -1, 7) == {"a", "b", "c", "d"} && |Starts(p.jobs, -1, 7)| == 4
  {
    var p := Open(0, Limits(10, 2, 7));
    var two := Dispatch(0, "a", "x") + Dispatch(0, "b", "y") + [Tick(7000)];
    LeftEnd(p);
    ThirdStart(AfterTwo());
    FourthStart(Dispatched(AfterTwo(), 7, "c", "z"));
    RunJoins(p, two, Dispatch(7, "c", "z"));
    RunJoins(p, two + Dispatch(7, "c", "z"), Dispatch(7, "d", "u"));
    StartsAfterFour(AfterFour().jobs);
  }

  lemma StartsAfterFour(jobs: map<string, Job>)
    requires jobs == AfterFour().jobs
    ensures Starts(jobs, -1, 7) == {"a", "b", "c", "d"}
  {}
}
