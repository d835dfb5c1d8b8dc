/** Rows of `finding_deliveries` and the mapping from a native result to the outcome that is stored. */
module Deliveries {
  import opened Options

  datatype Profile = Slack | Jira | Teams | Webhook
  datatype State = Queued | Dispatching | Confirmed | Accepted | Blocked | Failed | RateLimited | Uncertain

  datatype Denial =
    | LeaseLost | BindingChanged | AuthorizationRevoked | ConnectionChanged | ConnectionDisabled
    | CredentialUnavailable | NativeClientUnavailable | AlreadyAttempted

  /** Failure codes. `Connector` holds the codes that only a native adapter produces. */
  datatype Code =
    | UncertainCode | LeaseExpired | Canceled | Unavailable | Denied(denial: Denial)
    | Connector(kind: ConnectorKind)
  datatype ConnectorKind = Scope | Auth | RateLimit | RequiredFields | Limit | Protocol | Unsupported | DeadlineExceeded

  datatype Stage = NoStage | Metadata | Create
  datatype Failure = Failure(code: Code, nativeCode: string, stage: Stage)
  datatype Receipt = Receipt(remoteId: string, remoteUrl: string)

  datatype Delivery = Delivery(
    profile: Profile, state: State, fence: nat, worker: Option<string>, leaseUntil: Option<int>,
    startedAt: Option<int>, attemptedAt: Option<int>, completedAt: Option<int>,
    receipt: Option<Receipt>, failure: Option<Failure>)

  predicate Guarded(p: Profile) { p != Slack }

  predicate Terminal(s: State) { s != Queued && s != Dispatching }

  predicate Delivered(s: State) { s == Confirmed || s == Accepted }

  predicate Held(d: Delivery, worker: string, fence: nat, now: int) {
    d.state == Dispatching && d.worker == Some(worker) && d.fence == fence && d.leaseUntil.Some? &&
    d.leaseUntil.value > now
  }

  // ----- native results -----

  /** `Delivery.State` of the adapter; `Strange` stands for every other string. */
  datatype NativeState =
    | SaysConfirmed | SaysAccepted | SaysBlocked | SaysFailed | SaysRateLimited | SaysUncertain | Strange

  /** A native error; `detail` is present when it is the adapters' own error type. */
  datatype NativeError = NativeError(detail: Option<Detail>)
  datatype Detail = Detail(code: Code, nativeCode: string)

  datatype Result = Result(state: NativeState, error: Option<NativeError>, receipt: Receipt)

  datatype Outcome = Outcome(state: State, receipt: Option<Receipt>, failure: Option<Failure>)

  const Doubt := Outcome(Uncertain, None, Some(Failure(UncertainCode, "", NoStage)))

  predicate Contains(s: string, t: string) {
    exists i | 0 <= i <= |s| :: t <= s[i..]
  }

  /** What every stored outcome satisfies: terminal, with a failure exactly when it was not delivered. */
  predicate OutcomeOk(o: Outcome) {
    Terminal(o.state) && (Delivered(o.state) <==> o.failure.None?) && (o.receipt.Some? ==> Delivered(o.state))
  }

  predicate AdapterCode(c: Code) { c != LeaseExpired && !c.Denied? }

  /** Adapters build their errors with `connectorError`, whose codes are never the outbox's own. */
  predicate NativeOk(r: Result) {
    r.error.Some? && r.error.value.detail.Some? ==> AdapterCode(r.error.value.detail.value.code)
  }

  /** `deliveryOutcome`. */
  function DeliveryOutcome(canceled: bool, r: Result, token: string): (o: Outcome)
    ensures OutcomeOk(o)
    ensures Delivered(o.state) <==> r.error.None? && r.state in {SaysConfirmed, SaysAccepted}
    ensures o.failure.Some? && NativeOk(r) ==> AdapterCode(o.failure.value.code)
    ensures o.failure.Some? && token != "" ==> !Contains(o.failure.value.nativeCode, token)
    ensures canceled && !Delivered(o.state) ==> o.state == Uncertain && o.failure.value.code == UncertainCode
  {
    if r.error.None? && r.state == SaysConfirmed then Outcome(Confirmed, Some(r.receipt), None)
    else if r.error.None? && r.state == SaysAccepted then Outcome(Accepted, Some(r.receipt), None)
    else
      var told := if r.error.Some? then r.error.value.detail else None;
      var code := if told.Some? then told.value.code else UncertainCode;
      var native := if told.None? ||
        (token != "" && Contains(told.value.nativeCode, token)) then "" else told.value.nativeCode;
      if canceled then Outcome(Uncertain, None, Some(Failure(UncertainCode, native, NoStage)))
      else match r.state
        case SaysBlocked => Outcome(Blocked, None, Some(Failure(code, native, NoStage)))
        case SaysFailed => Outcome(Failed, None, Some(Failure(code, native, NoStage)))
        case SaysRateLimited => Outcome(RateLimited, None, Some(Failure(code, native, NoStage)))
        case SaysUncertain => Outcome(Uncertain, None, Some(Failure(code, native, NoStage)))
        case _ => Outcome(Uncertain, None, Some(Failure(UncertainCode, native, NoStage)))
  }

  /** `acceptedDeliveryOutcome`: Teams and webhooks acknowledge, they never confirm. */
  function AcceptedOutcome(canceled: bool, r: Result): (o: Outcome)
    ensures OutcomeOk(o) && o.state != Confirmed && o.receipt.None?
    ensures o.state == Accepted <==> r.error.None? && r.state == SaysAccepted && !canceled
    ensures o.failure.Some? ==> o.failure.value.nativeCode == "" && (NativeOk(r) ==> AdapterCode(o.failure.value.code))
  {
    if r.error.None? && r.state == SaysAccepted && !canceled then Outcome(Accepted, None, None)
    else
      var error := if r.error.None? then Some(NativeError(None)) else r.error;
      var o := DeliveryOutcome(canceled, r.(error := error), "");
      Outcome(o.state, None, Some(Failure(o.failure.value.code, "", NoStage)))
  }

  /** Why a guarded delivery stopped: a denial, a cancelled context, or anything else. */
  datatype Cause = Denial(denial: Denial) | ContextDone | OtherError

  /** `jiraInterruptedOutcome` and `guardedDeliveryInterruptedOutcome`. */
  function InterruptedOutcome(profile: Profile, cause: Cause, attempted: bool): (o: Outcome)
    ensures OutcomeOk(o) && !Delivered(o.state) && o.failure.value.code != LeaseExpired
    ensures attempted <==> o.state == Uncertain
    ensures o.failure.value.code.Denied? ==> !attempted && o.state == Blocked
  {
    var jira := profile == Jira;
    if attempted then Outcome(Uncertain, None, Some(Failure(UncertainCode, "", if jira then Create else NoStage)))
    else
      var code := match cause
        case Denial(d) => Denied(d)
        case ContextDone => Canceled
        case OtherError => Unavailable;
      Outcome(Blocked, None, Some(Failure(code, "", if jira then Metadata else NoStage)))
  }

  datatype MetadataError = ScopeError | RateError | AnyError

  /** `jiraMetadataOutcome`: a failed preview is never a delivery. */
  function MetadataOutcome(kind: MetadataError, error: NativeError, token: string): (o: Outcome)
    ensures OutcomeOk(o) && !Delivered(o.state)
    ensures NativeOk(Result(Strange, Some(error), Receipt("", ""))) ==> AdapterCode(o.failure.value.code)
  {
    var state := match kind
      case ScopeError => SaysBlocked
      case RateError => SaysRateLimited
      case AnyError => SaysFailed;
    var o := DeliveryOutcome(false, Result(state, Some(error), Receipt("", "")), token);
    o.(failure := Some(o.failure.value.(stage := Metadata)))
  }

  /** What `processJiraDelivery` and `processAcceptedDelivery` store after a send, and what the plain Slack
      path stores. `keyOk` is the issue-key check and `cause` the cancellation of the guarded context. */
  function SentOutcome(profile: Profile, canceled: bool, cause: Option<Cause>, r: Result, keyOk: bool, site: string,
      token: string): (o: Outcome)
    ensures OutcomeOk(o)
    ensures Delivered(o.state) ==> r.error.None?
    ensures Guarded(profile) && cause.Some? ==> o.state == Uncertain
    ensures o.failure.Some? && NativeOk(r) ==> AdapterCode(o.failure.value.code)
  {
    match profile
    case Slack => DeliveryOutcome(canceled, r, token)
    case Jira =>
      if cause.Some? then InterruptedOutcome(Jira, cause.value, true)
      else
        var o := DeliveryOutcome(canceled, r, token);
        if o.receipt.Some? && !keyOk then Doubt.(failure := Some(Failure(UncertainCode, "", Create)))
        else if o.receipt.Some?
          then o.(receipt := Some(Receipt(r.receipt.remoteId, site + "/browse/" + r.receipt.remoteId)))
        else o.(failure := Some(o.failure.value.(stage := Create)))
    case _ =>
      if cause.Some? then InterruptedOutcome(profile, cause.value, true) else AcceptedOutcome(canceled, r)
  }
}
