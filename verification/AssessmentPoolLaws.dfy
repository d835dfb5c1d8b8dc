/** What every interleaving of claims, cancellations, expiries, finalizations and I/O preserves. */
module AssessmentPoolLaws {
  import opened Options
  import opened AssessmentJobs
  import opened AssessmentPool
  import opened Counting
  import T = AssessmentTransport

  // ----- the invariant -----

  ghost predicate RowsOk(p: Pool) {
    forall id <- p.jobs :: RowOk(p.jobs[id]) && FenceOk(p.jobs[id]) && !Below(Clock(p), p.jobs[id].startedAt)
  }

  /** The dispatches that start in the half-open interval of one window length after `t`. */
  function Window(p: Pool, t: int): set<string> {
    Starts(p.jobs, t, t + p.limits.window)
  }

  /** At most `requests` dispatches start in any half-open interval as long as the window. */
  ghost predicate RateOk(p: Pool) {
    forall t :: |Window(p, t)| <= p.limits.requests
  }

  ghost predicate ClaimOk(p: Pool) {
    match p.claim
    case Unlocked => true
    case Admitted(_) => Admissible(p)
    case Prepared(worker, id, token, row, deadline) =>
      |Active(p.jobs, Clock(p))| < p.limits.concurrent &&
      id in p.jobs && CanSettle(p.jobs[id]) && RowOk(row) && FenceOk(row) && !Terminal(row.state) &&
      row.attempts == 1 && row.startedAt.value <= Clock(p) &&
      row.ioToken == Some(token) && row.ioOwner == Some(worker) && row.ioReleasedAt.None? &&
      deadline <= 1000 * row.ioDeadline.value &&
      |Starts(p.jobs, row.startedAt.value - p.limits.window, Clock(p))| < p.limits.requests &&
      UnusedToken(p, token)
  }

  /** An attempt whose sockets may still exist holds an unreleased reservation that outlasts its deadline. */
  predicate AttemptOk(token: string, a: Attempt, jobs: map<string, Job>) {
    a.id in jobs && jobs[a.id].ioToken == Some(token) && jobs[a.id].ioDeadline.Some? &&
    a.deadline <= 1000 * jobs[a.id].ioDeadline.value &&
    T.Accounted(a.io) && (jobs[a.id].ioReleasedAt.Some? ==> T.Quiet(a.io))
  }

  ghost predicate PostsOk(p: Pool) {
    (forall id :: p.posted[id] <= 1) &&
    (forall id <- p.posted :: id in p.jobs && p.jobs[id].attempts == 1) &&
    forall token <- p.attempts :: p.attempts[token].id in p.posted ==> p.attempts[token].io.called
  }

  ghost predicate AttemptsOk(p: Pool) {
    forall token <- p.attempts :: AttemptOk(token, p.attempts[token], p.jobs)
  }

  predicate WithinCapacity(p: Pool) {
    |Active(p.jobs, Clock(p))| <= p.limits.concurrent
  }

  ghost predicate Inv(p: Pool) {
    RowsOk(p) && RateOk(p) && WithinCapacity(p) && ClaimOk(p) && AttemptsOk(p) && PostsOk(p)
  }

  // ----- every row a step writes -----

  predicate SameIo(j: Job, k: Job) {
    j.attempts == k.attempts && j.startedAt == k.startedAt && j.ioOwner == k.ioOwner && j.ioToken == k.ioToken &&
    j.ioDeadline == k.ioDeadline && j.ioReleasedAt == k.ioReleasedAt
  }

  ghost predicate Written(j: Job, k: Job) {
    RowOk(k) && FenceOk(k) && SameIo(j, k)
  }

  lemma RetireIsOk(j: Job, state: JobState, code: Code, now: int)
    requires RowOk(j) && FenceOk(j) && !Terminal(j.state) && Terminal(state) && state != Succeeded
    ensures Written(j, Retired(j, state, code, now))
  {}

  lemma ExpireIsOk(j: Job, now: int)
    requires RowOk(j) && FenceOk(j) && CanExpire(j, now)
    ensures Written(j, Expired(j, now))
  {}

  lemma FinalizeIsOk(j: Job, o: Outcome, now: int)
    requires RowOk(j) && FenceOk(j) && j.state == Dispatching && OutcomeOk(o)
    ensures Written(j, Finalized(j, o, now))
  {}

  /** Claim settlement, expiry, refresh, invalidation, cancellation and finalization each write a row the
      schema accepts, keep the fence law, and leave the I/O reservation exactly as it was. */
  lemma RowStepIsOk(j: Job, s: RowStep, now: int)
    requires RowOk(j) && FenceOk(j)
    ensures Written(j, RowAfter(j, s, now))
  {
    match s
    case Expire => if CanExpire(j, now) { ExpireIsOk(j, now); }
    case Settle(state, code) =>
      if CanSettle(j) && state in {Invalidated, Failed} { RetireIsOk(j, state, code, now); }
    case Refresh(_, _, _, _) =>
    case Invalidate(worker, fence) =>
      if Held(j, worker, fence, now) { RetireIsOk(j, Invalidated, AuthorizationRevokedCode, now); }
    case Cancel => if CanCancel(j) { RetireIsOk(j, Cancelled, CancelledCode, now); }
    case Finalize(worker, fence, outcome, denied, operation, expires) =>
      if CanFinalize(j, worker, fence, denied, expires, now) && OutcomeOk(outcome) {
        FinalOutcomeIsOk(outcome, denied, operation);
        FinalizeIsOk(j, FinalOutcome(outcome, denied, operation), now);
      }
  }

  /** The worker's own deadline lies inside the persisted one for every budget exactly when the worker read
      its clock no later than the tick the database reads. */
  lemma LocalDeadlineIsCovered(before: int, tick: int)
    ensures (forall budget | 0 < budget <= 30000000000 ::
               before + budget <= 1000 * (tick + IntervalMicros(budget))) <==>
            before <= 1000 * tick
  {
    assert IntervalMicros(1000) == 1;
    forall budget | 0 < budget <= 30000000000 ensures budget <= 1000 * IntervalMicros(budget) {}
  }

  lemma MarkIsOk(j: Job, worker: string, token: string, lease: nat, before: int, budget: int, expires: int, now: int)
    requires RowOk(j) && FenceOk(j) && CanMark(j, expires, now) && 0 < budget <= 30000000000 && before <= 1000 * now
    ensures 0 <= IntervalMicros(budget)
    ensures RowOk(Marked(j, worker, token, lease, IntervalMicros(budget), now))
    ensures FenceOk(Marked(j, worker, token, lease, IntervalMicros(budget), now))
    ensures before + budget <= 1000 * (now + IntervalMicros(budget))
  {
    LocalDeadlineIsCovered(before, now);
  }

  // ----- steps -----

  /** Time alone only frees capacity. */
  lemma TickSets(p: Pool, q: Pool, t: int)
    requires RowsOk(p) && p.now <= q.now && q == p.(now := q.now)
    ensures Active(q.jobs, Clock(q)) <= Active(p.jobs, Clock(p))
    ensures Starts(q.jobs, Clock(q) - p.limits.window, Clock(q)) <= Starts(p.jobs, Clock(p) - p.limits.window, Clock(p))
    ensures Starts(q.jobs, t, Clock(q)) == Starts(p.jobs, t, Clock(p))
  {}

  lemma TickKeepsClaim(p: Pool, q: Pool)
    requires RowsOk(p) && ClaimOk(p) && p.now <= q.now && q == p.(now := q.now)
    ensures ClaimOk(q) && |Active(q.jobs, Clock(q))| <= |Active(p.jobs, Clock(p))|
  {
    var t := if p.claim.Prepared? && p.claim.row.startedAt.Some? then p.claim.row.startedAt.value - p.limits.window
      else 0;
    TickSets(p, q, t);
    SubsetSize(Active(q.jobs, Clock(q)), Active(p.jobs, Clock(p)));
    SubsetSize(Starts(q.jobs, Clock(q) - p.limits.window, Clock(q)),
               Starts(p.jobs, Clock(p) - p.limits.window, Clock(p)));
  }

  lemma TickKeepsInv(p: Pool, q: Pool)
    requires Inv(p) && p.now <= q.now && q == p.(now := q.now)
    ensures Inv(q)
  {
    TickKeepsClaim(p, q);
    assert forall t :: Window(q, t) == Window(p, t);
  }

  /** A write that leaves the reservation alone changes neither count. */
  lemma SameCounts(p: Pool, id: string, j: Job, t: int, u: int)
    requires id in p.jobs && SameIo(p.jobs[id], j)
    ensures Active(Write(p, id, j).jobs, Clock(p)) == Active(p.jobs, Clock(p))
    ensures Starts(Write(p, id, j).jobs, t, u) == Starts(p.jobs, t, u)
  {}

  lemma PublicWriteKeepsRows(p: Pool, id: string, j: Job)
    requires RowsOk(p) && id in p.jobs && RowOk(j) && FenceOk(j) && SameIo(p.jobs[id], j)
    ensures RowsOk(Write(p, id, j))
  {}

  lemma PublicWriteKeepsCounts(p: Pool, id: string, j: Job)
    requires id in p.jobs && SameIo(p.jobs[id], j) && RateOk(p) && WithinCapacity(p)
    ensures RateOk(Write(p, id, j)) && WithinCapacity(Write(p, id, j))
  {
    forall t
      ensures Window(Write(p, id, j), t) == Window(p, t)
    {
      SameCounts(p, id, j, t, t + p.limits.window);
    }
    SameCounts(p, id, j, 0, 0);
  }

  lemma PublicWriteKeepsClaim(p: Pool, id: string, j: Job)
    requires Free(p, id) && SameIo(p.jobs[id], j) && ClaimOk(p)
    ensures ClaimOk(Write(p, id, j))
  {
    SameCounts(p, id, j, Clock(p) - p.limits.window, Clock(p));
    if p.claim.Prepared? {
      SameCounts(p, id, j, p.claim.row.startedAt.value - p.limits.window, Clock(p));
    }
  }

  lemma PublicWriteKeepsAttempts(p: Pool, id: string, j: Job)
    requires id in p.jobs && SameIo(p.jobs[id], j) && AttemptsOk(p) && PostsOk(p)
    ensures AttemptsOk(Write(p, id, j)) && PostsOk(Write(p, id, j))
  {}

  lemma PublicWriteKeepsInv(p: Pool, id: string, j: Job)
    requires Inv(p) && Free(p, id)
    requires RowOk(j) && FenceOk(j) && SameIo(p.jobs[id], j)
    ensures Inv(Write(p, id, j))
  {
    PublicWriteKeepsRows(p, id, j);
    PublicWriteKeepsCounts(p, id, j);
    PublicWriteKeepsClaim(p, id, j);
    PublicWriteKeepsAttempts(p, id, j);
  }

  /** A new queued row counts for nothing. */
  lemma EnqueueKeepsInv(p: Pool, id: string, consent: int)
    requires Inv(p) && id !in p.jobs
    ensures Inv(Write(p, id, Enqueued(consent)))
  {
    EnqueueKeepsRows(p, id, consent);
    EnqueueKeepsCounts(p, id, consent);
    EnqueueKeepsClaim(p, id, consent);
    EnqueueKeepsAttempts(p, id, consent);
  }

  lemma EnqueueKeepsRows(p: Pool, id: string, consent: int)
    requires RowsOk(p) && id !in p.jobs
    ensures RowsOk(Write(p, id, Enqueued(consent)))
  {}

  lemma EnqueueKeepsAttempts(p: Pool, id: string, consent: int)
    requires AttemptsOk(p) && PostsOk(p) && id !in p.jobs
    ensures AttemptsOk(Write(p, id, Enqueued(consent))) && PostsOk(Write(p, id, Enqueued(consent)))
  {
    var q := Write(p, id, Enqueued(consent));
    forall token <- q.attempts ensures AttemptOk(token, q.attempts[token], q.jobs) {
      assert AttemptOk(token, p.attempts[token], p.jobs);
    }
  }

  lemma EnqueueStarts(p: Pool, id: string, consent: int, t: int, u: int)
    requires id !in p.jobs
    ensures Active(Write(p, id, Enqueued(consent)).jobs, Clock(p)) == Active(p.jobs, Clock(p))
    ensures Starts(Write(p, id, Enqueued(consent)).jobs, t, u) == Starts(p.jobs, t, u)
  {}

  lemma EnqueueKeepsCounts(p: Pool, id: string, consent: int)
    requires RateOk(p) && WithinCapacity(p) && id !in p.jobs
    ensures RateOk(Write(p, id, Enqueued(consent))) && WithinCapacity(Write(p, id, Enqueued(consent)))
  {
    forall t
      ensures Window(Write(p, id, Enqueued(consent)), t) == Window(p, t)
    {
      EnqueueStarts(p, id, consent, t, t + p.limits.window);
    }
    EnqueueStarts(p, id, consent, 0, 0);
  }

  lemma EnqueueKeepsClaim(p: Pool, id: string, consent: int)
    requires ClaimOk(p) && id !in p.jobs
    ensures ClaimOk(Write(p, id, Enqueued(consent)))
  {
    EnqueueStarts(p, id, consent, Clock(p) - p.limits.window, Clock(p));
    if p.claim.Prepared? { EnqueueStarts(p, id, consent, p.claim.row.startedAt.value - p.limits.window, Clock(p)); }
  }

  /** The marker is prepared while the quota row is locked, so the counts taken at admission still hold. */
  lemma PrepareKeepsClaim(p: Pool, id: string, token: string, before: int, budget: int, lease: nat, expires: int)
    requires RowsOk(p) && ClaimOk(p) && CanPrepare(p, id, token, before, budget, expires)
    ensures ClaimOk(Prepare(p, id, token, before, budget, lease, expires))
  {
    MarkIsOk(p.jobs[id], p.claim.worker, token, lease, before, budget, expires, Clock(p));
  }

  lemma CommitKeepsCapacity(p: Pool, q: Pool)
    requires ClaimOk(p) && p.claim.Prepared? && q.now == p.now && q.limits == p.limits
    requires q.jobs == p.jobs[p.claim.id := p.claim.row]
    ensures WithinCapacity(q)
  {
    SubsetSize(Active(q.jobs, Clock(q)), Active(p.jobs, Clock(p)) + {p.claim.id});
  }

  lemma WindowAfterCommit(p: Pool, q: Pool, start: int, t: int)
    requires RowsOk(p) && p.claim.Prepared? && p.claim.row.startedAt == Some(start)
    requires p.claim.id in p.jobs && p.jobs[p.claim.id].startedAt.None?
    requires q.limits == p.limits && q.jobs == p.jobs[p.claim.id := p.claim.row]
    ensures if t < start <= t + p.limits.window
            then Window(q, t) <= Starts(p.jobs, start - p.limits.window, Clock(p)) + {p.claim.id}
            else Window(q, t) == Window(p, t)
  {}

  lemma WindowSizeAfterCommit(p: Pool, q: Pool, start: int, t: int)
    requires RowsOk(p) && p.claim.Prepared? && p.claim.row.startedAt == Some(start)
    requires p.claim.id in p.jobs && p.jobs[p.claim.id].startedAt.None?
    requires q.limits == p.limits && q.jobs == p.jobs[p.claim.id := p.claim.row]
    requires |Window(p, t)| <= p.limits.requests
    requires |Starts(p.jobs, start - p.limits.window, Clock(p))| < p.limits.requests
    ensures |Window(q, t)| <= p.limits.requests
  {
    WindowAfterCommit(p, q, start, t);
    if t < start <= t + p.limits.window {
      SubsetSize(Window(q, t), Starts(p.jobs, start - p.limits.window, Clock(p)) + {p.claim.id});
    }
  }

  /** The new start joins only windows that held fewer than the permitted number. */
  lemma CommitKeepsRate(p: Pool, q: Pool)
    requires RowsOk(p) && RateOk(p) && ClaimOk(p) && p.claim.Prepared? && p.jobs[p.claim.id].startedAt.None?
    requires q.limits == p.limits && q.jobs == p.jobs[p.claim.id := p.claim.row]
    ensures RateOk(q)
  {
    forall t
      ensures |Window(q, t)| <= q.limits.requests
    {
      WindowSizeAfterCommit(p, q, p.claim.row.startedAt.value, t);
    }
  }

  lemma CommitKeepsAttempts(p: Pool, acknowledged: bool)
    requires p.claim.Prepared? && ClaimOk(p) && AttemptsOk(p) && p.jobs[p.claim.id].ioToken.None?
    ensures AttemptsOk(Committed(p, acknowledged))
  {
    var q := Committed(p, acknowledged);
    forall token | token in q.attempts
      ensures AttemptOk(token, q.attempts[token], q.jobs)
    {
      assert token != p.claim.token ==> AttemptOk(token, p.attempts[token], p.jobs);
    }
  }

  lemma CommitKeepsPosts(p: Pool, acknowledged: bool)
    requires p.claim.Prepared? && ClaimOk(p) && PostsOk(p) && p.jobs[p.claim.id].attempts == 0
    ensures PostsOk(Committed(p, acknowledged))
  {}

  lemma CommitKeepsInv(p: Pool, acknowledged: bool)
    requires Inv(p) && p.claim.Prepared?
    ensures Inv(Committed(p, acknowledged))
  {
    var q := Committed(p, acknowledged);
    assert RowOk(p.jobs[p.claim.id]);
    CommitKeepsCapacity(p, q);
    CommitKeepsRate(p, q);
    CommitKeepsAttempts(p, acknowledged);
    CommitKeepsPosts(p, acknowledged);
  }

  /** Steps that touch no row keep every count. */
  lemma SameRowsKeepCounts(p: Pool, q: Pool)
    requires q.now == p.now && q.limits == p.limits && q.jobs == p.jobs
    requires RowsOk(p) && RateOk(p) && WithinCapacity(p)
    ensures RowsOk(q) && RateOk(q) && WithinCapacity(q)
  {
    assert forall t :: Window(q, t) == Window(p, t);
  }

  lemma SameRowsKeepClaim(p: Pool, q: Pool)
    requires q.now == p.now && q.limits == p.limits && q.jobs == p.jobs && q.claim == p.claim
    requires q.attempts.Keys <= p.attempts.Keys && ClaimOk(p)
    ensures ClaimOk(q)
  {}

  lemma PerformKeepsTransport(t: T.Transport, io: T.Io, early: bool)
    requires T.Accounted(t)
    ensures var u := T.Perform(t, io, early); T.Accounted(u) && (T.Quiet(t) ==> T.Quiet(u)) && u.called == t.called
  {
    T.PerformKeepsAccount(t, io, early);
  }

  lemma PerformKeepsAttempts(p: Pool, token: string, io: T.Io)
    requires token in p.attempts && AttemptsOk(p) && PostsOk(p)
    ensures AttemptsOk(Performed(p, token, io)) && PostsOk(Performed(p, token, io))
  {
    var q := Performed(p, token, io);
    assert AttemptOk(token, p.attempts[token], p.jobs);
    PerformKeepsTransport(p.attempts[token].io, io, Early(p, p.attempts[token]));
    forall t <- q.attempts ensures AttemptOk(t, q.attempts[t], q.jobs) {
      assert AttemptOk(t, p.attempts[t], p.jobs);
    }
  }

  /** A second request for a job would need a second attempt, and a job has only one token. */
  lemma PostKeepsAttempts(p: Pool, token: string)
    requires CanPost(p, token) && AttemptsOk(p) && PostsOk(p) && RowsOk(p)
    ensures AttemptsOk(Posted(p, token)) && PostsOk(Posted(p, token))
  {
    var a := p.attempts[token];
    assert AttemptOk(token, a, p.jobs);
    assert RowOk(p.jobs[a.id]);
    assert p.posted[a.id] == 0;
    forall t | t in p.attempts && p.attempts[t].id == a.id
      ensures t == token
    {
      assert AttemptOk(t, p.attempts[t], p.jobs);
    }
  }

  /** Only an attempt with nothing left open gives its reservation back. */
  lemma AcknowledgeKeepsInv(p: Pool, token: string)
    requires Inv(p) && CanAcknowledge(p, token)
    ensures Inv(Acknowledged(p, token))
  {
    AcknowledgeKeepsCounts(p, token);
    AcknowledgeKeepsClaim(p, token);
    AcknowledgeKeepsAttempts(p, token);
  }

  lemma AcknowledgeStarts(p: Pool, token: string, t: int, u: int)
    requires CanAcknowledge(p, token)
    ensures Starts(Acknowledged(p, token).jobs, t, u) == Starts(p.jobs, t, u)
  {}

  lemma AcknowledgeKeepsCounts(p: Pool, token: string)
    requires CanAcknowledge(p, token) && RowsOk(p) && RateOk(p)
    ensures RowsOk(Acknowledged(p, token)) && RateOk(Acknowledged(p, token))
    ensures |Active(Acknowledged(p, token).jobs, Clock(p))| <= |Active(p.jobs, Clock(p))|
  {
    var q := Acknowledged(p, token);
    assert RowOk(p.jobs[p.attempts[token].id]);
    SubsetSize(Active(q.jobs, Clock(p)), Active(p.jobs, Clock(p)));
    forall t
      ensures Window(q, t) == Window(p, t)
    {
      AcknowledgeStarts(p, token, t, t + p.limits.window);
    }
  }

  lemma AcknowledgeKeepsClaim(p: Pool, token: string)
    requires CanAcknowledge(p, token) && ClaimOk(p)
    ensures ClaimOk(Acknowledged(p, token))
  {
    var q := Acknowledged(p, token);
    SubsetSize(Active(q.jobs, Clock(p)), Active(p.jobs, Clock(p)));
    AcknowledgeStarts(p, token, Clock(p) - p.limits.window, Clock(p));
    if p.claim.Prepared? { AcknowledgeStarts(p, token, p.claim.row.startedAt.value - p.limits.window, Clock(p)); }
  }

  lemma AcknowledgeKeepsAttempts(p: Pool, token: string)
    requires CanAcknowledge(p, token) && AttemptsOk(p)
    ensures AttemptsOk(Acknowledged(p, token))
  {
    var q := Acknowledged(p, token);
    forall t | t in q.attempts
      ensures AttemptOk(t, q.attempts[t], q.jobs)
    {
      assert AttemptOk(t, p.attempts[t], p.jobs);
    }
  }

  // ----- runs -----

  lemma ClaimStepKeepsClaim(p: Pool, s: Step)
    requires RowsOk(p) && ClaimOk(p) && (s.Admit? || s.Mark? || s.Abort?)
    ensures ClaimOk(Apply(p, s))
  {
    if s.Mark? && CanPrepare(p, s.id, s.token, s.before, s.budget, s.expires) {
      PrepareKeepsClaim(p, s.id, s.token, s.before, s.budget, s.lease, s.expires);
    }
  }

  lemma SameAttempts(p: Pool, q: Pool)
    requires q.jobs == p.jobs && q.attempts == p.attempts && q.posted == p.posted && AttemptsOk(p) && PostsOk(p)
    ensures AttemptsOk(q) && PostsOk(q)
  {}

  lemma ClaimStepKeepsInv(p: Pool, s: Step)
    requires Inv(p) && (s.Admit? || s.Mark? || s.Abort?)
    ensures Inv(Apply(p, s))
  {
    ClaimStepKeepsClaim(p, s);
    SameRowsKeepCounts(p, Apply(p, s));
    SameAttempts(p, Apply(p, s));
  }

  lemma SameRowsKeepInv(p: Pool, q: Pool)
    requires q.now == p.now && q.limits == p.limits && q.jobs == p.jobs && q.claim == p.claim
    requires q.attempts.Keys <= p.attempts.Keys && Inv(p) && AttemptsOk(q) && PostsOk(q)
    ensures Inv(q)
  {
    SameRowsKeepCounts(p, q);
    SameRowsKeepClaim(p, q);
  }

  lemma SocketKeepsInv(p: Pool, token: string, io: T.Io)
    requires Inv(p) && token in p.attempts
    ensures Inv(Performed(p, token, io))
  {
    PerformKeepsAttempts(p, token, io);
    SameRowsKeepInv(p, Performed(p, token, io));
  }

  lemma PostKeepsInv(p: Pool, token: string)
    requires Inv(p) && CanPost(p, token)
    ensures Inv(Posted(p, token))
  {
    PostKeepsAttempts(p, token);
    SameRowsKeepInv(p, Posted(p, token));
  }

  lemma CrashKeepsAttempts(p: Pool, token: string)
    requires AttemptsOk(p) && PostsOk(p)
    ensures var q := p.(attempts := p.attempts - {token}); AttemptsOk(q) && PostsOk(q)
  {
    var q := p.(attempts := p.attempts - {token});
    forall t <- q.attempts ensures AttemptOk(t, q.attempts[t], q.jobs) {
      assert AttemptOk(t, p.attempts[t], p.jobs);
    }
  }

  lemma CrashKeepsInv(p: Pool, token: string)
    requires Inv(p)
    ensures Inv(p.(attempts := p.attempts - {token}))
  {
    CrashKeepsAttempts(p, token);
    SameRowsKeepInv(p, p.(attempts := p.attempts - {token}));
  }

  lemma StepKeepsInv(p: Pool, s: Step)
    requires Inv(p)
    ensures Inv(Apply(p, s))
  {
    match s
    case Tick(ns) => TickKeepsInv(p, Apply(p, s));
    case Enqueue(id, consent) => if id !in p.jobs { EnqueueKeepsInv(p, id, consent); }
    case Row(id, step) =>
      if Free(p, id) {
        RowStepIsOk(p.jobs[id], step, Clock(p));
        PublicWriteKeepsInv(p, id, RowAfter(p.jobs[id], step, Clock(p)));
      }
    case Commit(acknowledged) => if p.claim.Prepared? { CommitKeepsInv(p, acknowledged); }
    case Release(token) => if CanAcknowledge(p, token) { AcknowledgeKeepsInv(p, token); }
    case Socket(token, io) => if token in p.attempts { SocketKeepsInv(p, token, io); }
    case Post(token) => if CanPost(p, token) { PostKeepsInv(p, token); }
    case Crash(token) => CrashKeepsInv(p, token);
    case _ => ClaimStepKeepsInv(p, s);
  }

  lemma {:induction false} RunKeepsInv(p: Pool, steps: seq<Step>)
    requires Inv(p)
    ensures Inv(Run(p, steps))
  {
    if steps != [] {
      RunKeepsInv(p, steps[..|steps| - 1]);
      StepKeepsInv(Run(p, steps[..|steps| - 1]), steps[|steps| - 1]);
    }
  }

  lemma {:induction false} RunJoins(p: Pool, xs: seq<Step>, ys: seq<Step>)
    ensures Run(p, xs + ys) == Run(Run(p, xs), ys)
  {
    if ys == [] {
      assert xs + ys == xs;
    } else {
      var n := |ys| - 1;
      RunJoins(p, xs, ys[..n]);
      assert (xs + ys)[..|xs + ys| - 1] == xs + ys[..n];
    }
  }

  lemma OpenIsOk(now: int, limits: Limits)
    ensures Inv(Open(now, limits))
  {
    var p := Open(now, limits);
    assert forall t :: Window(p, t) == {};
    assert Active(p.jobs, Clock(p)) == {};
  }

  /** The deadline persisted with an attempt's reservation has not passed. */
  predicate BeforeDeadline(p: Pool, a: Attempt) {
    a.id in p.jobs && p.jobs[a.id].ioDeadline.Some? && Clock(p) < p.jobs[a.id].ioDeadline.value
  }

  /** Attempts with a socket or a dial. */
  function LiveAttempts(p: Pool): set<string> {
    set token | token in p.attempts && T.Live(p.attempts[token].io)
  }

  /** Live attempts whose persisted deadline has not passed. */
  function TimelyAttempts(p: Pool): set<string> {
    set token | token in LiveAttempts(p) && BeforeDeadline(p, p.attempts[token])
  }

  lemma LiveReserves(p: Pool, token: string)
    requires Inv(p) && token in LiveAttempts(p)
    ensures var a := p.attempts[token]; a.id in Active(p.jobs, Clock(p)) <==> BeforeDeadline(p, a)
  {
    assert AttemptOk(token, p.attempts[token], p.jobs);
  }

  lemma TimelyAttemptsReserve(p: Pool)
    requires Inv(p)
    ensures |TimelyAttempts(p)| <= |Active(p.jobs, Clock(p))|
  {
    var owner := map token | token in p.attempts :: p.attempts[token].id;
    forall token | token in TimelyAttempts(p)
      ensures owner[token] in Active(p.jobs, Clock(p))
    {
      LiveReserves(p, token);
    }
    forall x, y | x in TimelyAttempts(p) && y in TimelyAttempts(p) && owner[x] == owner[y]
      ensures x == y
    {
      assert AttemptOk(x, p.attempts[x], p.jobs) && AttemptOk(y, p.attempts[y], p.jobs);
    }
    InjectionSize(owner, TimelyAttempts(p), Active(p.jobs, Clock(p)));
  }

  /** At every instant of every run, the live attempts whose persisted deadline has not passed stay within
      the shared limit, although jobs are cancelled, expired or finalized while their I/O is still running. */
  lemma LiveIoNeverExceedsLimit(now: int, limits: Limits, steps: seq<Step>)
    ensures |TimelyAttempts(Run(Open(now, limits), steps))| <= limits.concurrent
  {
    OpenIsOk(now, limits);
    RunKeepsInv(Open(now, limits), steps);
    LimitsNeverChange(Open(now, limits), steps);
    TimelyAttemptsReserve(Run(Open(now, limits), steps));
  }

  /** A live attempt holds a counted reservation exactly until its persisted deadline, and a worker whose own
      deadline has not passed is always before it. */
  lemma LiveAttemptReservesIff(now: int, limits: Limits, steps: seq<Step>, token: string)
    ensures var p := Run(Open(now, limits), steps);
            token in LiveAttempts(p) ==>
              var a := p.attempts[token];
              (a.id in Active(p.jobs, Clock(p)) <==> BeforeDeadline(p, a)) && (Early(p, a) ==> BeforeDeadline(p, a))
  {
    var p := Run(Open(now, limits), steps);
    OpenIsOk(now, limits);
    RunKeepsInv(Open(now, limits), steps);
    if token in LiveAttempts(p) {
      LiveReserves(p, token);
      if Early(p, p.attempts[token]) { EarlyIsBeforeDeadline(p, token); }
    }
  }

  lemma EarlyIsBeforeDeadline(p: Pool, token: string)
    requires AttemptsOk(p) && token in p.attempts && Early(p, p.attempts[token])
    ensures BeforeDeadline(p, p.attempts[token])
  {
    assert AttemptOk(token, p.attempts[token], p.jobs);
  }

  lemma {:induction false} LimitsNeverChange(p: Pool, steps: seq<Step>)
    ensures Run(p, steps).limits == p.limits
  {
    if steps != [] { LimitsNeverChange(p, steps[..|steps| - 1]); }
  }

  /** No half-open interval of one window length holds more dispatch starts than the request limit. */
  lemma RequestsNeverExceedLimit(now: int, limits: Limits, steps: seq<Step>, t: int)
    ensures var p := Run(Open(now, limits), steps); |Starts(p.jobs, t, t + limits.window)| <= limits.requests
  {
    OpenIsOk(now, limits);
    RunKeepsInv(Open(now, limits), steps);
    LimitsNeverChange(Open(now, limits), steps);
    WindowIsBounded(Run(Open(now, limits), steps), t);
  }

  /** A closed interval of one window length can also hold whatever started at its left end, and no more. */
  lemma ClosedWindowIsBounded(now: int, limits: Limits, steps: seq<Step>, t: int)
    ensures var p := Run(Open(now, limits), steps);
            |Starts(p.jobs, t - 1, t + limits.window)| <= |Starts(p.jobs, t - 1, t)| + limits.requests &&
            (limits.window > 0 ==> |Starts(p.jobs, t - 1, t + limits.window)| <= 2 * limits.requests)
  {
    var jobs := Run(Open(now, limits), steps).jobs;
    RequestsNeverExceedLimit(now, limits, steps, t);
    SplitStarts(jobs, t, limits.window);
    if limits.window > 0 {
      RequestsNeverExceedLimit(now, limits, steps, t - 1);
      SubsetSize(Starts(jobs, t - 1, t), Starts(jobs, t - 1, t - 1 + limits.window));
    }
  }

  lemma SplitStarts(jobs: map<string, Job>, t: int, window: nat)
    ensures |Starts(jobs, t - 1, t + window)| == |Starts(jobs, t - 1, t)| + |Starts(jobs, t, t + window)|
  {
    var left, rest := Starts(jobs, t - 1, t), Starts(jobs, t, t + window);
    assert left !! rest;
    assert Starts(jobs, t - 1, t + window) == left + rest;
  }

  lemma WindowIsBounded(p: Pool, t: int)
    requires RateOk(p)
    ensures |Starts(p.jobs, t, t + p.limits.window)| <= p.limits.requests
  {
    assert |Window(p, t)| <= p.limits.requests;
  }

  /** A job's native request is handed to the transport at most once, over every run. */
  lemma AtMostOneRequestPerJob(now: int, limits: Limits, steps: seq<Step>, id: string)
    ensures Run(Open(now, limits), steps).posted[id] <= 1
  {
    OpenIsOk(now, limits);
    RunKeepsInv(Open(now, limits), steps);
  }

  /** Every stored row of every run satisfies the schema's constraints and the fence law. */
  lemma EveryRowIsOk(now: int, limits: Limits, steps: seq<Step>, id: string)
    ensures var p := Run(Open(now, limits), steps);
            id in p.jobs ==> RowOk(p.jobs[id]) && FenceOk(p.jobs[id]) && p.jobs[id].attempts <= 1
  {
    OpenIsOk(now, limits);
    RunKeepsInv(Open(now, limits), steps);
  }

  // ----- what a job row can never take back -----

  /** A dispatch start is never moved or refunded, a fence never falls, and a terminal row keeps its state,
      result and failure for good. */
  predicate Settled(j: Job, k: Job) {
    (j.startedAt.Some? ==> k.startedAt == j.startedAt && k.ioToken == j.ioToken && k.ioDeadline == j.ioDeadline) &&
    j.fence <= k.fence && j.attempts <= k.attempts &&
    (Terminal(j.state) ==> k == j.(ioReleasedAt := k.ioReleasedAt))
  }

  lemma RowStepSettles(j: Job, s: RowStep, now: int)
    requires RowOk(j)
    ensures Settled(j, RowAfter(j, s, now))
  {}

  lemma CommitSettles(p: Pool, id: string)
    requires p.claim.Prepared? && ClaimOk(p) && id in p.jobs && FenceOk(p.jobs[id]) && RowOk(p.jobs[id])
    ensures Settled(p.jobs[id], p.jobs[p.claim.id := p.claim.row][id])
  {}

  lemma StepSettles(p: Pool, s: Step, id: string)
    requires RowsOk(p) && ClaimOk(p) && id in p.jobs
    ensures id in Apply(p, s).jobs && Settled(p.jobs[id], Apply(p, s).jobs[id])
  {
    assert RowOk(p.jobs[id]) && FenceOk(p.jobs[id]);
    match s
    case Row(_, step) => RowStepSettles(p.jobs[id], step, Clock(p));
    case Commit(_) => if p.claim.Prepared? { CommitSettles(p, id); }
    case Release(token) => if CanAcknowledge(p, token) { AcknowledgeSettles(p, token, id); }
    case Enqueue(_, _) =>
    case _ => OtherStepsKeepRows(p, s);
  }

  lemma OtherStepsKeepRows(p: Pool, s: Step)
    requires !s.Row? && !s.Commit? && !s.Release? && !s.Enqueue?
    ensures Apply(p, s).jobs == p.jobs
  {}

  lemma AcknowledgeSettles(p: Pool, token: string, id: string)
    requires CanAcknowledge(p, token) && id in p.jobs
    ensures id in Acknowledged(p, token).jobs && Settled(p.jobs[id], Acknowledged(p, token).jobs[id])
  {}

  lemma {:induction false} RunSettles(p: Pool, steps: seq<Step>, id: string)
    requires Inv(p) && id in p.jobs
    ensures id in Run(p, steps).jobs && Settled(p.jobs[id], Run(p, steps).jobs[id])
  {
    if steps != [] {
      var q := Run(p, steps[..|steps| - 1]);
      RunSettles(p, steps[..|steps| - 1], id);
      RunKeepsInv(p, steps[..|steps| - 1]);
      StepSettles(q, steps[|steps| - 1], id);
    }
  }

  /** An owner whose fence has been retired can never again refresh, invalidate or finalize the job. */
  lemma RetiredOwnerIsPowerless(p: Pool, steps: seq<Step>, id: string, s: RowStep, now: int)
    requires Inv(p) && id in p.jobs
    requires s.Refresh? || s.Invalidate? || s.Finalize?
    requires s.fence < p.jobs[id].fence
    ensures id in Run(p, steps).jobs && RowAfter(Run(p, steps).jobs[id], s, now) == Run(p, steps).jobs[id]
  {
    RunSettles(p, steps, id);
  }
}
