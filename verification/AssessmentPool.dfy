/** The shared dispatch pool: every worker, every job row, every attempt's I/O, and the two clocks. */
module AssessmentPool {
  import opened Options
  import opened AssessmentJobs
  import T = AssessmentTransport

  datatype Limits = Limits(concurrent: nat, requests: nat, window: nat)

  /** The claim transaction that holds the quota row: counted, or counted and marked but not committed. */
  datatype Claim =
    | Unlocked
    | Admitted(worker: string)
    | Prepared(worker: string, id: string, token: string, row: Job, deadline: int)

  /** A worker's dispatch after its claim committed; `deadline` is on the worker's clock, in nanoseconds. */
  datatype Attempt = Attempt(id: string, worker: string, deadline: int, io: T.Transport)

  /** `now` is real time in nanoseconds; the database reads it truncated to microseconds.
      `posted` counts the native requests handed to the HTTP transport. */
  datatype Pool = Pool(
    now: int, limits: Limits, jobs: map<string, Job>, claim: Claim, attempts: map<string, Attempt>,
    posted: multiset<string>)

  function Micros(ns: int): int { ns / 1000 }

  /** `intervalMicros`: a duration in whole microseconds, rounded up. */
  function IntervalMicros(ns: int): int { (ns + 999) / 1000 }

  function Clock(p: Pool): int { Micros(p.now) }

  predicate Reserves(j: Job, now: int) {
    j.ioToken.Some? && j.ioReleasedAt.None? && j.ioDeadline.Some? && j.ioDeadline.value > now
  }

  function Active(jobs: map<string, Job>, now: int): set<string> {
    set id | id in jobs && Reserves(jobs[id], now)
  }

  predicate StartsIn(j: Job, after: int, upTo: int) {
    j.startedAt.Some? && after < j.startedAt.value <= upTo
  }

  function Starts(jobs: map<string, Job>, after: int, upTo: int): set<string> {
    set id | id in jobs && StartsIn(jobs[id], after, upTo)
  }

  datatype RowStep =
    | Expire
    | Settle(state: JobState, code: Code)
    | Refresh(worker: string, fence: nat, lease: nat, expires: int)
    | Invalidate(worker: string, fence: nat)
    | Cancel
    | Finalize(worker: string, fence: nat, outcome: Outcome, denied: bool, operation: Option<Cause>, expires: int)

  datatype Step =
    | Tick(ns: nat)
    | Enqueue(id: string, consent: int)
    | Admit(worker: string)
    | Mark(id: string, token: string, before: int, budget: int, lease: nat, expires: int)
    | Commit(acknowledged: bool)
    | Abort
    | Row(id: string, step: RowStep)
    | Socket(token: string, io: T.Io)
    | Post(token: string)
    | Release(token: string)
    | Crash(token: string)

  /** The row is free for other transactions: the claim transaction locks the job it has marked. */
  predicate Free(p: Pool, id: string) {
    id in p.jobs && !(p.claim.Prepared? && p.claim.id == id)
  }

  function Write(p: Pool, id: string, j: Job): Pool {
    p.(jobs := p.jobs[id := j])
  }

  /** Worker-side use of an attempt is still permitted by its own deadline. */
  predicate Early(p: Pool, a: Attempt) {
    p.now < a.deadline
  }

  /** The claim transaction may dispatch: capacity and request budget are both short of their limits. */
  predicate Admissible(p: Pool) {
    |Active(p.jobs, Clock(p))| < p.limits.concurrent &&
    |Starts(p.jobs, Clock(p) - p.limits.window, Clock(p))| < p.limits.requests
  }

  ghost predicate UnusedToken(p: Pool, token: string) {
    token !in p.attempts && forall id <- p.jobs :: p.jobs[id].ioToken != Some(token)
  }

  /** The marker statement. The worker takes its local deadline `before` sending the statement, and the
      database reads a clock tick that is no earlier. */
  ghost predicate CanPrepare(p: Pool, id: string, token: string, before: int, budget: int, expires: int) {
    p.claim.Admitted? && id in p.jobs && CanMark(p.jobs[id], expires, Clock(p)) &&
    0 < budget <= 30000000000 && before <= 1000 * Clock(p) && UnusedToken(p, token)
  }

  ghost function Prepare(p: Pool, id: string, token: string, before: int, budget: int, lease: nat, expires: int): Pool
    requires CanPrepare(p, id, token, before, budget, expires)
  {
    p.(claim := Prepared(p.claim.worker, id, token,
                         Marked(p.jobs[id], p.claim.worker, token, lease, IntervalMicros(budget), Clock(p)),
                         before + budget))
  }

  /** The marker becomes visible; an unacknowledged commit leaves the row dispatching with no owner. */
  function Committed(p: Pool, acknowledged: bool): Pool
    requires p.claim.Prepared?
  {
    Pool(p.now, p.limits, p.jobs[p.claim.id := p.claim.row], Unlocked,
         if acknowledged
         then p.attempts[p.claim.token := Attempt(p.claim.id, p.claim.worker, p.claim.deadline, T.Fresh)]
         else p.attempts,
         p.posted)
  }

  function Performed(p: Pool, token: string, io: T.Io): Pool
    requires token in p.attempts
  {
    var a := p.attempts[token];
    p.(attempts := p.attempts[token := a.(io := T.Perform(a.io, io, Early(p, a)))])
  }

  /** The transport's compare-and-swap admits one request per attempt. */
  predicate CanPost(p: Pool, token: string) {
    token in p.attempts && !p.attempts[token].io.called && Early(p, p.attempts[token])
  }

  function Posted(p: Pool, token: string): Pool
    requires token in p.attempts
  {
    var a := p.attempts[token];
    p.(attempts := p.attempts[token := a.(io := a.io.(called := true))], posted := p.posted + multiset{a.id})
  }

  predicate CanAcknowledge(p: Pool, token: string) {
    token in p.attempts && T.Quiet(p.attempts[token].io) && Free(p, p.attempts[token].id) &&
    CanRelease(p.jobs[p.attempts[token].id], p.attempts[token].worker, token)
  }

  function Acknowledged(p: Pool, token: string): Pool
    requires token in p.attempts && p.attempts[token].id in p.jobs
  {
    var id := p.attempts[token].id;
    Write(p, id, p.jobs[id].(ioReleasedAt := Some(Clock(p))))
  }

  /** The row written by a step on one job's public state, or the row itself when the WHERE clause fails. */
  function RowAfter(j: Job, s: RowStep, now: int): Job {
    match s
    case Expire => if CanExpire(j, now) then Expired(j, now) else j
    case Settle(state, code) =>
      if CanSettle(j) && state in {Invalidated, Failed} then Retired(j, state, code, now) else j
    case Refresh(worker, fence, lease, expires) =>
      if CanRefresh(j, worker, fence, expires, now) then j.(leaseUntil := Some(now + lease)) else j
    case Invalidate(worker, fence) =>
      if Held(j, worker, fence, now) then Retired(j, Invalidated, AuthorizationRevokedCode, now) else j
    case Cancel => if CanCancel(j) then Retired(j, Cancelled, CancelledCode, now) else j
    case Finalize(worker, fence, outcome, denied, operation, expires) =>
      if CanFinalize(j, worker, fence, denied, expires, now) && OutcomeOk(outcome)
      then Finalized(j, FinalOutcome(outcome, denied, operation), now) else j
  }

  /** One database transaction, I/O event or passage of time. A guard that does not hold changes nothing,
      as an UPDATE that matches no row changes nothing. */
  ghost function Apply(p: Pool, s: Step): Pool {
    match s
    case Tick(ns) => p.(now := p.now + ns)
    case Enqueue(id, consent) => if id in p.jobs then p else Write(p, id, Enqueued(consent))
    case Admit(worker) => if p.claim.Unlocked? && Admissible(p) then p.(claim := Admitted(worker)) else p
    case Mark(id, token, before, budget, lease, expires) =>
      if CanPrepare(p, id, token, before, budget, expires) then Prepare(p, id, token, before, budget, lease, expires)
      else p
    case Commit(acknowledged) => if p.claim.Prepared? then Committed(p, acknowledged) else p
    case Abort => p.(claim := Unlocked)
    case Row(id, step) => if Free(p, id) then Write(p, id, RowAfter(p.jobs[id], step, Clock(p))) else p
    case Socket(token, io) => if token in p.attempts then Performed(p, token, io) else p
    case Post(token) => if CanPost(p, token) then Posted(p, token) else p
    case Release(token) => if CanAcknowledge(p, token) then Acknowledged(p, token) else p
    case Crash(token) => p.(attempts := p.attempts - {token})
  }

  function Open(now: int, limits: Limits): Pool {
    Pool(now, limits, map[], Unlocked, map[], multiset{})
  }

  ghost function Run(p: Pool, steps: seq<Step>): Pool {
    if steps == [] then p else Apply(Run(p, steps[..|steps| - 1]), steps[|steps| - 1])
  }
}
