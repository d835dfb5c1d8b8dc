/** Rows of `assessment_jobs`: the schema's CHECK constraints and every guarded UPDATE that writes one. */
module AssessmentJobs {
  import opened Options

  datatype JobState = Queued | Dispatching | Succeeded | Failed | Cancelled | Invalidated | Uncertain
  datatype DispatchState = NotStarted | PossiblySent | ResponseReceived

  datatype Assessment = Assessment(conclusion: string, uncertainty: string, evidenceRefs: seq<string>)
  datatype Usage = Usage(known: bool, input: int, output: int, cachedInput: int, cacheWrite: int)
  const NoUsage := Usage(false, 0, 0, 0, 0)

  datatype Code =
    | TimeoutCode | CancelledCode | AuthCode | RateLimitedCode | ToolOutputCode | ResponseLimitCode | CapabilityCode
    | AuthorizationRevokedCode | RefusalCode | GroundingCode | IncompleteCode | SchemaCode | ProviderCode
    | LeaseExpiredCode | InputLimitCode

  /** Database times are microseconds. `failure` holds the failure's code. */
  datatype Job = Job(
    consentExpiresAt: int, state: JobState, attempts: nat, dispatch: DispatchState,
    startedAt: Option<int>, completedAt: Option<int>,
    worker: Option<string>, fence: nat, leaseUntil: Option<int>,
    ioOwner: Option<string>, ioToken: Option<string>, ioDeadline: Option<int>, ioReleasedAt: Option<int>,
    result: Option<Assessment>, failure: Option<Code>, usage: Usage,
    requestId: string, returnedModel: string, stopReason: string, retryAfterMillis: int)

  predicate Terminal(s: JobState) {
    s != Queued && s != Dispatching
  }

  /** The row constraints of the schema, apart from identifier formats and JSON sizes. */
  predicate RowOk(j: Job) {
    j.attempts <= 1 &&
    |j.requestId| <= 512 && |j.returnedModel| <= 512 && |j.stopReason| <= 512 &&
    0 <= j.retryAfterMillis <= 86400000 &&
    (j.attempts == 0 <==> j.startedAt.None?) &&
    ((j.attempts == 0 && j.ioOwner.None? && j.ioToken.None? && j.ioDeadline.None? && j.ioReleasedAt.None?) ||
     (j.attempts == 1 && j.ioOwner.Some? && j.ioToken.Some? && j.ioDeadline.Some?)) &&
    (j.ioDeadline.Some? ==> j.startedAt.value < j.ioDeadline.value <= j.startedAt.value + 30000000) &&
    (j.ioReleasedAt.Some? ==> j.ioReleasedAt.value >= j.startedAt.value) &&
    (j.attempts == 0 <==> j.dispatch == NotStarted) &&
    (j.state == Succeeded <==> j.result.Some?) &&
    (j.state == Succeeded ==> j.attempts == 1 && j.dispatch == ResponseReceived && j.failure.None?) &&
    (j.state == Queued || j.state == Dispatching <==> j.completedAt.None?) &&
    (j.state in {Queued, Dispatching, Succeeded} <==> j.failure.None?) &&
    (j.state == Queued ==> j.attempts == 0) &&
    (j.state == Dispatching ==> j.attempts == 1 && j.worker.Some? && j.fence > 0 && j.leaseUntil.Some?) &&
    (j.state != Dispatching ==> j.worker.None? && j.leaseUntil.None?)
  }

  /** Public state and fence move together: the marker and the terminal write each spend one fence. */
  predicate FenceOk(j: Job) {
    j.fence == j.attempts + if Terminal(j.state) then 1 else 0
  }

  function Enqueued(consent: int): Job {
    Job(consent, Queued, 0, NotStarted, None, None, None, 0, None, None, None, None, None, None, None, NoUsage, "", "",
        "", 0)
  }

  // ----- the UPDATE statements, each with its WHERE clause -----

  predicate Held(j: Job, worker: string, fence: nat, now: int) {
    j.state == Dispatching && j.worker == Some(worker) && j.fence == fence && j.leaseUntil.Some? &&
    j.leaseUntil.value > now
  }

  function Retired(j: Job, state: JobState, code: Code, now: int): Job {
    j.(state := state, failure := Some(code), completedAt := Some(now), worker := None, leaseUntil := None,
       fence := j.fence + 1)
  }

  predicate CanExpire(j: Job, now: int) {
    j.state == Dispatching && j.leaseUntil.Some? && j.leaseUntil.value <= now
  }

  function Expired(j: Job, now: int): Job {
    Retired(j, Uncertain, LeaseExpiredCode, now).(dispatch := PossiblySent, result := None)
  }

  predicate CanSettle(j: Job) {
    j.state == Queued && j.attempts == 0
  }

  predicate CanMark(j: Job, expires: int, now: int) {
    j.state == Queued && j.attempts == 0 && j.consentExpiresAt > now && expires > now
  }

  function Marked(j: Job, worker: string, token: string, lease: nat, budget: nat, now: int): Job {
    j.(state := Dispatching, attempts := 1, dispatch := PossiblySent, startedAt := Some(now), worker := Some(worker),
       fence := j.fence + 1, leaseUntil := Some(now + lease),
       ioOwner := Some(worker), ioToken := Some(token), ioDeadline := Some(now + budget))
  }

  predicate CanRefresh(j: Job, worker: string, fence: nat, expires: int, now: int) {
    Held(j, worker, fence, now) && j.ioDeadline.Some? && j.ioDeadline.value > now && expires > now
  }

  predicate CanCancel(j: Job) {
    j.state == Queued || j.state == Dispatching
  }

  predicate CanRelease(j: Job, owner: string, token: string) {
    j.ioOwner == Some(owner) && j.ioToken == Some(token) && j.attempts == 1 && j.ioReleasedAt.None?
  }

  // ----- the outcome of one native call -----

  datatype OutputKind = Schema | Refusal | Grounding | Incomplete
  datatype Cause =
    | DeadlineExceeded | Canceled | Auth | RateLimited | ToolOutput | Limit | Capability | Policy
    | Output(kind: OutputKind) | Provider

  datatype Http = Http(received: bool, interrupted: bool, timedOut: bool)

  /** The binding fields that a native result must echo exactly. */
  datatype Echo = Echo(
    workspace: string, run: string, finding: string, profile: string, profileRevision: string, policyRevision: string,
    promptRevision: string, evidenceDigest: string, model: string, deployment: string)

  datatype Native = Native(
    echo: Echo, requestId: string, returnedModel: string, stopReason: string,
    assessment: Option<Assessment>, usage: Usage, retryAfterMillis: int)

  datatype Outcome = Outcome(
    state: JobState, dispatch: DispatchState, result: Option<Assessment>, failure: Option<Code>, usage: Usage,
    requestId: string, returnedModel: string, stopReason: string, retryAfterMillis: int)

  function FailureCode(c: Cause): Code {
    match c
    case DeadlineExceeded => TimeoutCode
    case Canceled => CancelledCode
    case Auth => AuthCode
    case RateLimited => RateLimitedCode
    case ToolOutput => ToolOutputCode
    case Limit => ResponseLimitCode
    case Capability => CapabilityCode
    case Policy => AuthorizationRevokedCode
    case Output(Refusal) => RefusalCode
    case Output(Grounding) => GroundingCode
    case Output(Incomplete) => IncompleteCode
    case Output(Schema) => SchemaCode
    case Provider => ProviderCode
  }

  predicate Arrived(http: Http) {
    http.received && !http.interrupted
  }

  /** Metadata fits the column and is safe to store; `clean` means valid UTF-8 without NUL or a known secret. */
  predicate Storable(value: string, clean: string -> bool) {
    |value| <= 512 && clean(value)
  }

  /** An assessment may be published: it is bounded and clean, and cites only the approved context. */
  predicate Publishable(a: Assessment, contextRef: string, clean: string -> bool, blank: string -> bool) {
    |a.uncertainty| <= 8192 && |a.evidenceRefs| <= 16 && clean(a.uncertainty) && !blank(a.uncertainty) &&
    forall i :: 0 <= i < |a.evidenceRefs| ==> a.evidenceRefs[i] == contextRef
  }

  /** Every condition under which the worker may record a success. */
  predicate Succeeds(
    job: Echo, contextRef: string, native: Native, cause: Option<Cause>, http: Http,
    clean: string -> bool, blank: string -> bool)
  {
    cause.None? && !http.timedOut && Arrived(http) && native.assessment.Some? && native.echo == job &&
    Storable(native.requestId, clean) && Storable(native.returnedModel, clean) && Storable(native.stopReason, clean) &&
    Publishable(native.assessment.value, contextRef, clean, blank)
  }

  predicate OutcomeOk(o: Outcome) {
    Terminal(o.state) && o.dispatch != NotStarted &&
    |o.requestId| <= 512 && |o.returnedModel| <= 512 && |o.stopReason| <= 512 && 0 <= o.retryAfterMillis <= 86400000 &&
    (o.state == Succeeded <==> o.result.Some?) && (o.state == Succeeded <==> o.failure.None?) &&
    (o.state == Succeeded ==> o.dispatch == ResponseReceived)
  }

  /** The metadata loop: keep what can be stored, and let the first unstorable value become the cause. */
  method KeepMetadata(values: seq<string>, reported: Option<Cause>, clean: string -> bool)
    returns (kept: seq<string>, cause: Option<Cause>)
    ensures |kept| == |values|
    ensures forall n :: 0 <= n < |values| ==> kept[n] == if Storable(values[n], clean) then values[n] else ""
    ensures reported.Some? ==> cause == reported
    ensures reported.None? ==> (cause.None? <==> forall n :: 0 <= n < |values| ==> Storable(values[n], clean))
    ensures cause.Some? && reported.None? ==> cause.value in {Limit, Output(Schema)}
  {
    kept, cause := [], reported;
    for i := 0 to |values|
      invariant |kept| == i
      invariant forall n :: 0 <= n < i ==> kept[n] == if Storable(values[n], clean) then values[n] else ""
      invariant reported.Some? ==> cause == reported
      invariant reported.None? ==> (cause.None? <==> forall n :: 0 <= n < i ==> Storable(values[n], clean))
      invariant cause.Some? && reported.None? ==> cause.value in {Limit, Output(Schema)}
    {
      if |values[i]| > 512 {
        if cause.None? { cause := Some(Limit); }
        kept := kept + [""];
      } else if !clean(values[i]) {
        if cause.None? { cause := Some(Output(Schema)); }
        kept := kept + [""];
      } else {
        kept := kept + [values[i]];
      }
    }
  }

  function Kept(value: string, clean: string -> bool): string {
    if Storable(value, clean) then value else ""
  }

  /** The loop on the three values of a native result. */
  method KeepThree(native: Native, reported: Option<Cause>, clean: string -> bool)
    returns (requestId: string, returnedModel: string, stopReason: string, cause: Option<Cause>)
    ensures requestId == Kept(native.requestId, clean)
    ensures returnedModel == Kept(native.returnedModel, clean)
    ensures stopReason == Kept(native.stopReason, clean)
    ensures reported.Some? ==> cause == reported
    ensures reported.None? ==>
              (cause.None? <==> Storable(native.requestId, clean) && Storable(native.returnedModel, clean) &&
                                                 Storable(native.stopReason, clean))
    ensures cause.Some? && reported.None? ==> cause.value in {Limit, Output(Schema)}
  {
    var values := [native.requestId, native.returnedModel, native.stopReason];
    var kept;
    kept, cause := KeepMetadata(values, reported, clean);
    assert values[0] == native.requestId && values[1] == native.returnedModel && values[2] == native.stopReason;
    requestId, returnedModel, stopReason := kept[0], kept[1], kept[2];
  }

  /** The content checks on a received assessment. */
  method CheckAssessment(a: Assessment, contextRef: string, clean: string -> bool, blank: string -> bool)
    returns (cause: Option<Cause>)
    ensures cause.None? <==> Publishable(a, contextRef, clean, blank)
    ensures cause.Some? ==> cause.value in {Limit, Output(Schema), Output(Grounding)}
  {
    if |a.uncertainty| > 8192 || |a.evidenceRefs| > 16 { return Some(Limit); }
    if !clean(a.uncertainty) || blank(a.uncertainty) { return Some(Output(Schema)); }
    for i := 0 to |a.evidenceRefs|
      invariant forall n :: 0 <= n < i ==> a.evidenceRefs[n] == contextRef
    {
      if a.evidenceRefs[i] != contextRef { return Some(Output(Grounding)); }
    }
    cause := None;
  }

  /** The cause that decides the outcome: a timeout, the cause so far, or a fault of the result itself. */
  method FinalCause(
    job: Echo, contextRef: string, native: Native, soFar: Option<Cause>, http: Http,
    clean: string -> bool, blank: string -> bool) returns (cause: Option<Cause>)
    ensures cause.None? <==>
              soFar.None? && !http.timedOut && Arrived(http) && native.assessment.Some? && native.echo == job &&
                             Publishable(native.assessment.value, contextRef, clean, blank)
    ensures http.timedOut ==> cause == Some(DeadlineExceeded)
    ensures soFar.Some? && !http.timedOut ==> cause == soFar
    ensures soFar.None? ==> cause != Some(Canceled)
  {
    cause := soFar;
    if http.timedOut || cause == Some(DeadlineExceeded) { cause := Some(DeadlineExceeded); }
    if cause.None? {
      if !Arrived(http) || native.assessment.None? || native.echo != job {
        cause := Some(Output(Schema));
      } else {
        cause := CheckAssessment(native.assessment.value, contextRef, clean, blank);
      }
    }
  }

  /** A provider's retry delay, clamped to what the column holds. */
  function RetryAfter(millis: int): int {
    if millis < 0 then 0 else if millis > 86400000 then 86400000 else millis
  }

  /** The state a cause decides; without one the call succeeded. */
  function StateOf(cause: Option<Cause>, arrived: bool): JobState {
    if cause.None? then Succeeded else if cause == Some(Canceled) then Cancelled
    else if arrived then Failed else Uncertain
  }

  function Classified(native: Native, cause: Option<Cause>, arrived: bool, kept: (string, string, string)): Outcome {
    Outcome(StateOf(cause, arrived), if arrived then ResponseReceived else PossiblySent,
            if cause.None? then native.assessment else None,
            if cause.None? then None else Some(FailureCode(cause.value)),
            if arrived then native.usage else NoUsage, kept.0, kept.1, kept.2, RetryAfter(native.retryAfterMillis))
  }

  lemma ClassifiedIsOk(native: Native, cause: Option<Cause>, arrived: bool, kept: (string, string, string))
    requires |kept.0| <= 512 && |kept.1| <= 512 && |kept.2| <= 512
    requires cause.None? ==> arrived && native.assessment.Some?
    ensures OutcomeOk(Classified(native, cause, arrived, kept))
  {}

  /** `assessmentNativeOutcome`: classify whatever the provider call returned. */
  method NativeOutcome(
    job: Echo, contextRef: string, native: Native, reported: Option<Cause>, http: Http,
    clean: string -> bool, blank: string -> bool) returns (o: Outcome)
    ensures OutcomeOk(o)
    ensures o.state == Succeeded <==> Succeeds(job, contextRef, native, reported, http, clean, blank)
    ensures o.state == Succeeded ==> o.result == native.assessment
    ensures o.dispatch == ResponseReceived <==> Arrived(http)
    ensures o.usage == if Arrived(http) then native.usage else NoUsage
    ensures o.state == Cancelled <==> reported == Some(Canceled) && !http.timedOut
    ensures o.state == Failed ==> Arrived(http)
    ensures o.state == Uncertain ==> !Arrived(http)
    ensures o.state != Invalidated
    ensures http.timedOut ==> o.failure == Some(TimeoutCode)
    ensures reported.Some? && !http.timedOut ==> o.failure == Some(FailureCode(reported.value))
    ensures o.requestId == Kept(native.requestId, clean) && o.returnedModel == Kept(native.returnedModel, clean)
    ensures o.stopReason == Kept(native.stopReason, clean)
    ensures o.retryAfterMillis == RetryAfter(native.retryAfterMillis)
  {
    var requestId, returnedModel, stopReason, soFar := KeepThree(native, reported, clean);
    var cause := FinalCause(job, contextRef, native, soFar, http, clean, blank);
    o := Classified(native, cause, Arrived(http), (requestId, returnedModel, stopReason));
    ClassifiedIsOk(native, cause, Arrived(http), (requestId, returnedModel, stopReason));
  }

  /** What finalization writes once authority and the operation's own context have been rechecked. */
  function FinalOutcome(o: Outcome, denied: bool, operation: Option<Cause>): Outcome {
    if denied then o.(state := Invalidated, result := None, failure := Some(FailureCode(Policy)))
    else if operation.Some? then
      o.(state := if operation.value == Canceled then Cancelled else Uncertain, result := None,
         failure := Some(FailureCode(operation.value)))
    else o
  }

  predicate CanFinalize(j: Job, worker: string, fence: nat, denied: bool, expires: int, now: int) {
    Held(j, worker, fence, now) && (denied || expires > now)
  }

  function Finalized(j: Job, o: Outcome, now: int): Job {
    j.(state := o.state, dispatch := o.dispatch, result := o.result, failure := o.failure, usage := o.usage,
       requestId := o.requestId, returnedModel := o.returnedModel, stopReason := o.stopReason,
       retryAfterMillis := o.retryAfterMillis, completedAt := Some(now), worker := None, leaseUntil := None,
       fence := j.fence + 1)
  }

  /** Rechecking authority never turns a storable outcome into one the row constraints reject. */
  lemma FinalOutcomeIsOk(o: Outcome, denied: bool, operation: Option<Cause>)
    requires OutcomeOk(o)
    ensures OutcomeOk(FinalOutcome(o, denied, operation))
    ensures FinalOutcome(o, denied, operation).state == Succeeded <==>
              o.state == Succeeded && !denied && operation.None?
  {}
}
