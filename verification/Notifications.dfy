/** One workspace's notification policies, change events, policy outcomes, deliveries and Jira effects. */
module Notifications {
  import opened Options
  import opened Deliveries
  import opened DeliveryBinding

  datatype Kind = New | Changed | Reopened
  datatype Severity = Critical | High | Medium | Low | Info

  /** `notificationChangeKinds`, in the order a normalized policy lists them. */
  const Kinds: seq<Kind> := [New, Changed, Reopened]

  function KindName(k: Kind): string {
    match k case New => "new" case Changed => "changed" case Reopened => "reopened"
  }

  function SeverityName(s: Severity): string {
    match s
    case Critical => "critical"
    case High => "high"
    case Medium => "medium"
    case Low => "low"
    case Info => "info"
  }

  function Rank(s: Severity): nat {
    match s case Critical => 5 case High => 4 case Medium => 3 case Low => 2 case Info => 1
  }

  /** A policy row, and the revision row that is written together with it. */
  datatype Revision = Revision(
    policy: string, name: string, connection: string, profile: Profile, connectionRevision: int, enabled: bool,
    kinds: seq<Kind>, minimum: Severity, revision: nat, epoch: nat, actor: string)

  datatype EventState = Pending | Processing | Evaluated
  datatype Event = Event(
    epoch: nat, title: string, severity: Severity, asset: string, kind: Kind,
    state: EventState, worker: Option<string>, fence: nat, leaseUntil: Option<int>)

  /** A change event is identified by its finding and change revision. */
  type Change = (string, nat)

  datatype Verdict =
    | NewDelivery(delivery: string) | DuplicateTicket(delivery: string) | ConnectionStale | InvalidPayload
  datatype PolicyOutcome = PolicyOutcome(policy: string, revision: nat, change: Change, verdict: Verdict)

  datatype Board = Board(
    now: int, epoch: nat, policies: map<string, Revision>, revisions: seq<Revision>,
    connections: map<string, Connection>, seen: map<string, nat>, events: map<Change, Event>,
    outcomes: seq<PolicyOutcome>, deliveries: seq<Row>, effects: map<(string, string), string>)

  /** Fixed surroundings: the format checks and the workspace. */
  datatype Site = Site(rules: Rules, workspace: string)

  /** What a policy edit may change. */
  datatype Patch = Patch(
    name: Option<string>, connection: Option<string>, enabled: Option<bool>, kinds: Option<seq<Kind>>,
    minimum: Option<Severity>)

  /** Worker configuration and random identifiers used by one evaluation. */
  datatype Sender = Sender(origin: string, escaped: string, ids: map<string, string>)

  datatype Step =
    | Tick(ns: nat)
    | PutConnection(id: string, target: Connection)
    | CreatePolicy(id: string, draft: Revision)
    | UpdatePolicy(id: string, patch: Patch, actor: string)
    | ReadEpoch(run: string)
    | RecordChange(run: string, change: Change, title: string, severity: Severity, asset: string, kind: Kind)
    | ClaimEvent(change: Change, worker: string, lease: nat)
    | Evaluate(change: Change, worker: string, fence: nat, order: seq<string>, sender: Sender)
    | Enqueue(id: string, actor: string, connection: string, facts: Facts, key: string, origin: string, escaped: string)

  const MaxPolicies := 32

  // ----- policies -----

  /** The newest revision of a policy whose epoch is not after `epoch`. */
  function Latest(rs: seq<Revision>, policy: string, epoch: nat): Option<Revision> {
    if rs == [] then None
    else if rs[|rs| - 1].policy == policy && rs[|rs| - 1].epoch <= epoch then Some(rs[|rs| - 1])
    else Latest(rs[..|rs| - 1], policy, epoch)
  }

  /** The epoch is bumped, and the policy row and its revision row are written, in one transaction. */
  function WritePolicy(b: Board, r: Revision): Board {
    var row := r.(epoch := b.epoch + 1);
    b.(epoch := b.epoch + 1, policies := b.policies[r.policy := row], revisions := b.revisions + [row])
  }

  function CreateStep(b: Board, id: string, draft: Revision): Board {
    if id in b.policies || !ValidId(id) || |b.policies| >= MaxPolicies || draft.connection !in b.connections then b
    else
      var c := b.connections[draft.connection];
      WritePolicy(b, draft.(policy := id, profile := c.profile, connectionRevision := c.revision, revision := 1))
  }

  /** The fields of a request over the current policy; a new connection brings its own profile and revision. */
  function Amended(connections: map<string, Connection>, r: Revision, patch: Patch): Revision
    requires patch.connection.Some? ==> patch.connection.value in connections
  {
    var named := r.(
      name := if patch.name.Some? then patch.name.value else r.name,
      enabled := if patch.enabled.Some? then patch.enabled.value else r.enabled,
      kinds := if patch.kinds.Some? then patch.kinds.value else r.kinds,
      minimum := if patch.minimum.Some? then patch.minimum.value else r.minimum);
    if patch.connection.None? then named
    else
      var c := connections[patch.connection.value];
      named.(connection := patch.connection.value, profile := c.profile, connectionRevision := c.revision)
  }

  /** An edit that changes nothing is a conflict, and the epoch bump rolls back with it. */
  predicate SamePolicy(r: Revision, s: Revision) {
    r.name == s.name && r.connection == s.connection && r.enabled == s.enabled && r.kinds == s.kinds &&
    r.minimum == s.minimum
  }

  function UpdateStep(b: Board, id: string, patch: Patch, actor: string): Board {
    if id !in b.policies || (patch.connection.Some? && patch.connection.value !in b.connections) then b
    else
      var next := Amended(b.connections, b.policies[id], patch);
      if SamePolicy(next, b.policies[id]) then b
      else WritePolicy(b, next.(revision := b.policies[id].revision + 1, actor := actor))
  }

  // ----- events -----

  predicate Matches(r: Revision, e: Event) {
    r.enabled && e.kind in r.kinds && Rank(e.severity) >= Rank(r.minimum)
  }

  /** `reconcile` inserts an event with the epoch it read, once per change, when policies exist. */
  function RecordStep(b: Board, run: string, change: Change, title: string, severity: Severity, asset: string,
      kind: Kind): Board {
    if run !in b.seen || b.seen[run] == 0 || change in b.events || !ValidId(change.0) ||
       !(1 <= change.1 < 0x8000_0000_0000_0000) then b
    else b.(events := b.events[change := Event(b.seen[run], title, severity, asset, kind, Pending, None, 0, None)])
  }

  predicate Claimable(e: Event, now: int) {
    e.state == Pending || (e.state == Processing && e.leaseUntil.Some? && e.leaseUntil.value <= now)
  }

  function ClaimStep(b: Board, change: Change, worker: string, lease: nat): Board {
    if change !in b.events || !Claimable(b.events[change], b.now) then b
    else
      var e := b.events[change];
      b.(events := b.events[change := e.(state := Processing, worker := Some(worker), fence := e.fence + 1,
                                         leaseUntil := Some(b.now + lease))])
  }

  predicate HeldEvent(e: Event, worker: string, fence: nat, now: int) {
    e.state == Processing && e.worker == Some(worker) && e.fence == fence && e.leaseUntil.Some? &&
    e.leaseUntil.value > now
  }

  // ----- one evaluation -----

  /** The rows an evaluation transaction has written so far; `ok` turns false when a unique key is taken,
      which rolls the whole transaction back. */
  datatype Work = Work(ok: bool, outcomes: seq<PolicyOutcome>, deliveries: seq<Row>,
      effects: map<(string, string), string>)

  predicate Stale(site: Site, b: Board, r: Revision) {
    r.connection !in b.connections ||
    var c := b.connections[r.connection];
    !c.enabled || c.profile != r.profile || c.revision != r.connectionRevision ||
    (c.profile == Webhook && !(ValidWebhook(site.rules, c.webhook) && site.rules.webhookOrigin(c.webhook.value.origin)))
  }

  function Snapshot(change: Change, e: Event): Facts {
    Facts(change.0, e.title, SeverityName(e.severity), e.asset)
  }

  function Draft(site: Site, b: Board, change: Change, e: Event, r: Revision, id: string,
      sender: Sender): Option<Intent>
    requires r.connection in b.connections
  {
    PolicyIntent(site.rules, id, site.workspace, r.actor, r.connection, b.connections[r.connection],
                 Snapshot(change, e),
                 KindName(e.kind), sender.origin, sender.escaped, r.policy, r.revision, change.1)
  }

  predicate Taken(deliveries: seq<Row>, id: string, key: string) {
    exists i | 0 <= i < |deliveries| :: deliveries[i].intent.id == id || deliveries[i].key == key
  }

  /** A delivery row, and the effect row that reserves the ticket when it goes to Jira. */
  function Insert(w: Work, i: Intent, key: string, approvalRef: string): Work {
    w.(deliveries := w.deliveries + [Stored(i, key, approvalRef)],
       effects := if i.profile == Jira then w.effects[(i.connection, i.finding) := i.id] else w.effects)
  }

  function Judge(w: Work, change: Change, r: Revision, verdict: Verdict): Work {
    w.(outcomes := w.outcomes + [PolicyOutcome(r.policy, r.revision, change, verdict)])
  }

  function EvaluateOne(site: Site, b: Board, change: Change, e: Event, w: Work, r: Revision, sender: Sender): Work {
    if !w.ok || !Matches(r, e) then w
    else if Stale(site, b, r) then Judge(w, change, r, ConnectionStale)
    else if b.connections[r.connection].profile == Jira && (r.connection, change.0) in w.effects
    then Judge(w, change, r, DuplicateTicket(w.effects[(r.connection, change.0)]))
    else if r.policy !in sender.ids then w.(ok := false)
    else
      var id, key := sender.ids[r.policy], PolicyKey(r.policy, change.0, change.1);
      var draft := Draft(site, b, change, e, r, id, sender);
      if draft.None? then Judge(w, change, r, InvalidPayload)
      else if Taken(w.deliveries, id, key) then w.(ok := false)
      else Judge(Insert(w, draft.value, key, PolicyRef(site.workspace, r.policy, r.revision)), change, r,
                 NewDelivery(id))
  }

  /** The loop over the selected revisions, one per policy. */
  function EvaluateAll(site: Site, b: Board, change: Change, e: Event, w: Work, rs: seq<Revision>,
      sender: Sender): Work {
    if rs == [] then w
    else EvaluateOne(site, b, change, e, EvaluateAll(site, b, change, e, w, rs[..|rs| - 1], sender), rs[|rs| - 1],
                     sender)
  }

  function Pick(b: Board, e: Event, order: seq<string>): (rs: seq<Revision>)
    requires forall i :: 0 <= i < |order| ==> Latest(b.revisions, order[i], e.epoch).Some?
  {
    seq(|order|, i requires 0 <= i < |order| => Latest(b.revisions, order[i], e.epoch).value)
  }

  /** `order` lists, without repetition, the policies that have a revision up to the event's epoch. The query
      orders them by identifier; any order is allowed here. */
  ghost predicate Selects(b: Board, e: Event, order: seq<string>) {
    (forall i :: 0 <= i < |order| ==> Latest(b.revisions, order[i], e.epoch).Some?) &&
    (forall i, j :: 0 <= i < j < |order| ==> order[i] != order[j]) &&
    (forall p :: Latest(b.revisions, p, e.epoch).Some? ==> p in order)
  }

  function Ledger(b: Board): Work {
    Work(true, b.outcomes, b.deliveries, b.effects)
  }

  function Closed(e: Event): Event {
    e.(state := Evaluated, worker := None, leaseUntil := None)
  }

  function Commit(b: Board, change: Change, w: Work): Board
    requires change in b.events
  {
    b.(events := b.events[change := Closed(b.events[change])], outcomes := w.outcomes, deliveries := w.deliveries,
       effects := w.effects)
  }

  ghost function EvaluateStep(site: Site, b: Board, change: Change, worker: string, fence: nat, order: seq<string>,
      sender: Sender): Board {
    if change !in b.events || !HeldEvent(b.events[change], worker, fence, b.now) ||
      !Selects(b, b.events[change], order) then b
    else
      var w := EvaluateAll(site, b, change, b.events[change], Ledger(b), Pick(b, b.events[change], order), sender);
      if w.ok then Commit(b, change, w) else b
  }

  // ----- manual deliveries -----

  function EnqueueStep(
    site: Site, b: Board, id: string, actor: string, connection: string, facts: Facts, key: string, origin: string,
    escaped: string): Board
  {
    if connection !in b.connections || !ValidText(key, 256) || origin == "" then b
    else
      var intent := ManualIntent(site.rules, id, site.workspace, actor, connection, b.connections[connection], facts,
                                 origin, escaped);
      if intent.None? || Taken(b.deliveries, id, key) ||
        (intent.value.profile == Jira && (connection, facts.id) in b.effects) then b
      else
        var w := Insert(Ledger(b), intent.value, key, ManualRef(site.workspace, id));
        b.(deliveries := w.deliveries, effects := w.effects)
  }

  /** A new connection, or an edit of one: the profile stays and the revision goes up by one. */
  predicate CanPut(site: Site, b: Board, id: string, c: Connection) {
    ConnectionOk(site.rules, c) &&
    (id in b.connections ==> c.profile == b.connections[id].profile && c.revision == b.connections[id].revision + 1)
  }

  ghost function Apply(site: Site, b: Board, s: Step): Board {
    match s
    case Tick(ns) => b.(now := b.now + ns)
    case PutConnection(id, c) => if CanPut(site, b, id, c) then b.(connections := b.connections[id := c]) else b
    case CreatePolicy(id, draft) => CreateStep(b, id, draft)
    case UpdatePolicy(id, patch, actor) => UpdateStep(b, id, patch, actor)
    case ReadEpoch(run) => b.(seen := b.seen[run := b.epoch])
    case RecordChange(run, change, title, severity, asset, kind) => RecordStep(b, run, change, title, severity, asset,
                                                                               kind)
    case ClaimEvent(change, worker, lease) => ClaimStep(b, change, worker, lease)
    case Evaluate(change, worker, fence, order, sender) => EvaluateStep(site, b, change, worker, fence, order, sender)
    case Enqueue(id, actor, connection, facts, key, origin, escaped) =>
      EnqueueStep(site, b, id, actor, connection, facts, key, origin, escaped)
  }

  function Empty(now: int): Board {
    Board(now, 0, map[], [], map[], map[], map[], [], [], map[])
  }

  ghost function Run(site: Site, b: Board, steps: seq<Step>): Board {
    if steps == [] then b else Apply(site, Run(site, b, steps[..|steps| - 1]), steps[|steps| - 1])
  }
}
