/** The delivery outbox: any number of workers claiming, marking, sending and finishing deliveries. */
module Outbox {
  import opened Options
  import opened Deliveries

  /** Where one dispatch stands in `ProcessNext`. `Interrupted` holds the `attempted` flag that the worker
      read back from the failed marker. */
  datatype Phase = Ready | Marked | Interrupted(attempted: bool) | Sent | Over

  datatype Dispatch = Dispatch(id: string, worker: string, fence: nat, phase: Phase)

  /** `dispatches` lists every dispatch a worker was ever handed; `sends` counts calls of the adapter's Send. */
  datatype Outbox = Outbox(
    now: int, rows: map<string, Delivery>, dispatches: seq<Dispatch>, sends: multiset<string>)

  /** How the marker transaction ended: committed, committed with a lost acknowledgement, failed at commit,
      or failed before the marker was written. */
  datatype MarkEnd = Acknowledged | Lost | Refused | Unwritten

  /** Why a dispatch finishes without or after a send. */
  datatype Finish =
    | AfterPreview(kind: MetadataError, error: NativeError, cause: Option<Cause>, token: string)
    | AfterMark(why: Cause)
    | AfterSend(canceled: bool, cause: Option<Cause>, result: Result, keyOk: bool, site: string, token: string)

  datatype Step =
    | Tick(ns: nat)
    | Enqueue(id: string, profile: Profile)
    | Claim(id: string, worker: string, lease: nat, acknowledged: bool)
    | Block(id: string, worker: string, reason: Denial)
    | Settle(id: string, worker: string)
    | Mark(n: nat, denial: Option<Denial>, end: MarkEnd)
    | Send(n: nat)
    | Complete(n: nat, finish: Finish, denial: Option<Denial>, committed: bool)
    | Crash(n: nat)

  function Fresh(profile: Profile): Delivery {
    Delivery(profile, Queued, 0, None, None, None, None, None, None, None)
  }

  function Claimed(d: Delivery, worker: string, lease: nat, now: int): Delivery {
    d.(state := Dispatching, worker := Some(worker), fence := d.fence + 1, startedAt := Some(now),
       leaseUntil := Some(now + lease))
  }

  /** `settleClaim`. */
  function Settled(d: Delivery, worker: string, state: State, code: Code, now: int): Delivery {
    d.(state := state, failure := Some(Failure(code, "", NoStage)), receipt := None, completedAt := Some(now),
       worker := Some(worker), fence := d.fence + 1, leaseUntil := None)
  }

  predicate Lapsed(d: Delivery, now: int) {
    d.state == Dispatching && d.leaseUntil.Some? && d.leaseUntil.value <= now
  }

  /** The recovery of an expired dispatch: only a guarded one without a marker is known not to have been sent. */
  function Recovered(d: Delivery, worker: string, now: int): Delivery {
    if Guarded(d.profile) && d.attemptedAt.None? then Settled(d, worker, Blocked, LeaseExpired, now)
    else Settled(d, worker, Uncertain, UncertainCode, now)
  }

  /** The final UPDATE of `finishDelivery` and `finishGuardedDelivery`. */
  function Finished(d: Delivery, o: Outcome, now: int): Delivery {
    d.(state := o.state, receipt := o.receipt, failure := o.failure, completedAt := Some(now), leaseUntil := None)
  }

  predicate HeldBy(o: Outbox, n: nat) {
    n < |o.dispatches| && o.dispatches[n].id in o.rows &&
    Held(o.rows[o.dispatches[n].id], o.dispatches[n].worker, o.dispatches[n].fence, o.now)
  }

  function Write(o: Outbox, id: string, d: Delivery): Outbox {
    o.(rows := o.rows[id := d])
  }

  function Move(o: Outbox, n: nat, phase: Phase): Outbox
    requires n < |o.dispatches|
  {
    o.(dispatches := o.dispatches[n := o.dispatches[n].(phase := phase)])
  }

  function ClaimStep(o: Outbox, id: string, worker: string, lease: nat, acknowledged: bool): Outbox {
    if id in o.rows && o.rows[id].state == Queued then
      var row := Claimed(o.rows[id], worker, lease, o.now);
      Write(o, id, row).(
        dispatches := if acknowledged then o.dispatches + [Dispatch(id, worker, row.fence, Ready)] else o.dispatches)
    else o
  }

  /** The marker is written only under the live lease and fence, with authority intact and no marker yet. */
  predicate MarkerWritten(o: Outbox, n: nat, denial: Option<Denial>, end: MarkEnd) {
    HeldBy(o, n) && denial.None? && end != Unwritten && o.rows[o.dispatches[n].id].attemptedAt.None?
  }

  /** `markDeliveryAttempt`, called by a guarded dispatch that has not marked yet. */
  function MarkStep(o: Outbox, n: nat, denial: Option<Denial>, end: MarkEnd): Outbox {
    if n >= |o.dispatches| || o.dispatches[n].phase != Ready || o.dispatches[n].id !in o.rows then o
    else
      var d := o.dispatches[n];
      var row := o.rows[d.id];
      if !Guarded(row.profile) then o
      else if MarkerWritten(o, n, denial, end) then
        var marked := Write(o, d.id, row.(attemptedAt := Some(o.now)));
        match end
        case Acknowledged => Move(marked, n, Marked)
        case Lost => Move(marked, n, Interrupted(true))
        case _ => Move(o, n, Interrupted(true))
      else
        // Only a row read under the live lease carries its marker back to the worker.
        Move(o, n, Interrupted(HeldBy(o, n) && end != Unwritten && row.attemptedAt.Some?))
  }

  /** A guarded dispatch sends only after an acknowledged marker; the Slack path sends straight away. */
  predicate MaySend(o: Outbox, n: nat) {
    n < |o.dispatches| && o.dispatches[n].id in o.rows &&
    if Guarded(o.rows[o.dispatches[n].id].profile) then o.dispatches[n].phase == Marked
    else o.dispatches[n].phase == Ready
  }

  function SendStep(o: Outbox, n: nat): Outbox {
    if MaySend(o, n) then Move(o, n, Sent).(sends := o.sends + multiset{o.dispatches[n].id}) else o
  }

  /** The outcome the worker is about to store agrees with the place in the code it comes from. */
  predicate MayFinish(phase: Phase, profile: Profile, finish: Finish) {
    match finish
    case AfterPreview(_, error, _, _) =>
      phase == Ready && profile == Jira && NativeOk(Result(Strange, Some(error), Receipt("", "")))
    case AfterMark(_) => phase.Interrupted?
    case AfterSend(_, _, result, _, _, _) => phase == Sent && NativeOk(result)
  }

  function Chosen(phase: Phase, profile: Profile, finish: Finish): Outcome
    requires MayFinish(phase, profile, finish)
  {
    match finish
    case AfterPreview(kind, error, cause, token) =>
      if cause.Some? then InterruptedOutcome(profile, cause.value, false) else MetadataOutcome(kind, error, token)
    case AfterMark(cause) => InterruptedOutcome(profile, cause, phase.attempted)
    case AfterSend(canceled, cause, result, keyOk, site, token) =>
      SentOutcome(profile, canceled, cause, result, keyOk, site, token)
  }

  /** `finishGuardedDelivery` replaces the outcome when authority was lost; the plain path does not look. */
  function Stored(row: Delivery, chosen: Outcome, denial: Option<Denial>): Outcome {
    if Guarded(row.profile) && denial.Some?
    then InterruptedOutcome(row.profile, Denial(denial.value), row.attemptedAt.Some?)
    else chosen
  }

  function CompleteStep(o: Outbox, n: nat, finish: Finish, denial: Option<Denial>, committed: bool): Outbox {
    if n >= |o.dispatches| || o.dispatches[n].id !in o.rows then o
    else
      var d := o.dispatches[n];
      var row := o.rows[d.id];
      if !MayFinish(d.phase, row.profile, finish) then o
      else if HeldBy(o, n) && committed then
        Write(Move(o, n, Over), d.id, Finished(row, Stored(row, Chosen(d.phase, row.profile, finish), denial), o.now))
      else Move(o, n, Over)
  }

  function Apply(o: Outbox, s: Step): Outbox {
    match s
    case Tick(ns) => o.(now := o.now + ns)
    case Enqueue(id, profile) => if id in o.rows then o else Write(o, id, Fresh(profile))
    case Claim(id, worker, lease, acknowledged) => ClaimStep(o, id, worker, lease, acknowledged)
    case Block(id, worker, reason) =>
      if id in o.rows && o.rows[id].state == Queued
      then Write(o, id, Settled(o.rows[id], worker, Blocked, Denied(reason), o.now)) else o
    case Settle(id, worker) =>
      if id in o.rows && Lapsed(o.rows[id], o.now) then Write(o, id, Recovered(o.rows[id], worker, o.now)) else o
    case Mark(n, denial, end) => MarkStep(o, n, denial, end)
    case Send(n) => SendStep(o, n)
    case Complete(n, finish, denial, committed) => CompleteStep(o, n, finish, denial, committed)
    case Crash(n) => if n < |o.dispatches| then Move(o, n, Over) else o
  }

  function Empty(now: int): Outbox {
    Outbox(now, map[], [], multiset{})
  }

  function Run(o: Outbox, steps: seq<Step>): Outbox {
    if steps == [] then o else Apply(Run(o, steps[..|steps| - 1]), steps[|steps| - 1])
  }
}
