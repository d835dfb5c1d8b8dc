/** The policy and delivery transactions as statements on the workspace's tables. */
module NotificationService {
  import opened Options
  import opened Deliveries
  import opened DeliveryBinding
  import opened Notifications

  /** The place of a kind in `notificationChangeKinds`. */
  function Position(k: Kind): (n: nat)
    ensures n < |Kinds| && Kinds[n] == k
  {
    match k case New => 0 case Changed => 1 case Reopened => 2
  }

  /** `normalizeNotificationChangeKinds`; `None` in the input stands for a string that is no change kind. */
  method NormalizeChangeKinds(values: seq<Option<Kind>>) returns (kinds: Option<seq<Kind>>)
    ensures kinds.Some? <==>
              1 <= |values| <= 3 && None !in values && forall i, j :: 0 <= i < j < |values| ==> values[i] != values[j]
    ensures kinds.Some? ==> forall k :: k in kinds.value <==> Some(k) in values
    ensures kinds.Some? ==>
              forall i, j :: 0 <= i < j < |kinds.value| ==> Position(kinds.value[i]) < Position(kinds.value[j])
  {
    if |values| == 0 || |values| > |Kinds| { return None; }
    var selected: set<Kind> := {};
    for n := 0 to |values|
      invariant forall k :: k in selected <==> Some(k) in values[..n]
      invariant None !in values[..n]
      invariant forall i, j :: 0 <= i < j < n ==> values[i] != values[j]
    {
      if values[n].None? || values[n].value in selected { return None; }
      selected := selected + {values[n].value};
    }
    assert values[..|values|] == values;
    var result := [];
    for n := 0 to |Kinds|
      invariant forall k :: k in result <==> k in selected && Position(k) < n
      invariant forall i, j :: 0 <= i < j < |result| ==> Position(result[i]) < Position(result[j])
    {
      if Kinds[n] in selected { result := result + [Kinds[n]]; }
    }
    kinds := Some(result);
  }

  /** The stepwise assignments of `updateNotificationPolicy`, before the comparison with the current policy. */
  method Amend(current: Revision, patch: Patch, connections: map<string, Connection>) returns (next: Revision)
    requires patch.connection.Some? ==> patch.connection.value in connections
    ensures next == Amended(connections, current, patch)
  {
    next := current;
    if patch.name.Some? { next := next.(name := patch.name.value); }
    if patch.enabled.Some? { next := next.(enabled := patch.enabled.value); }
    if patch.kinds.Some? { next := next.(kinds := patch.kinds.value); }
    if patch.minimum.Some? { next := next.(minimum := patch.minimum.value); }
    if patch.connection.Some? {
      var c := connections[patch.connection.value];
      next := next.(connection := patch.connection.value, profile := c.profile, connectionRevision := c.revision);
    }
  }

  /** The delivery with an idempotency key, if there is one. */
  method FindByKey(deliveries: seq<Row>, key: string) returns (found: Option<nat>)
    ensures found.None? <==> forall i :: 0 <= i < |deliveries| ==> deliveries[i].key != key
    ensures found.Some? ==> found.value < |deliveries| && deliveries[found.value].key == key
  {
    for n := 0 to |deliveries|
      invariant forall i :: 0 <= i < n ==> deliveries[i].key != key
    {
      if deliveries[n].key == key { return Some(n); }
    }
    found := None;
  }

  datatype Reply = Created | Replayed(delivery: Row) | Conflict | Invalid | Unavailable

  /** A preview digest as text: not 71 bytes long, not in the digest's form, or the digest of something. */
  datatype Preview = WrongLength | Malformed | PreviewOf(bound: Bound)

  /** Everything but Slack asks for a confirmation of exactly this delivery; Slack asks for none. */
  predicate Confirmed(i: Intent, confirm: Field<bool>, preview: Field<Preview>) {
    if Guarded(i.profile) then confirm == Value(true) && preview == Value(PreviewOf(Binding(i)))
    else confirm.Absent? && preview.Absent?
  }

  /** Why a request is refused before anything is looked up. */
  function Confirmation(i: Intent, confirm: Field<bool>, preview: Field<Preview>): (refused: Option<Reply>)
    ensures refused.None? <==> Confirmed(i, confirm, preview)
    ensures refused.Some? ==> refused.value == Invalid || refused.value == Conflict
    ensures refused == Some(Conflict) <==>
              Guarded(i.profile) && confirm == Value(true) && preview.Value? && !preview.value.WrongLength? &&
              preview.value != PreviewOf(Binding(i)) && (preview.value.Malformed? ==> i.profile == Jira)
  {
    if !Guarded(i.profile) then if confirm.Absent? && preview.Absent? then None else Some(Invalid)
    else if confirm != Value(true) || !preview.Value? || preview.value.WrongLength? then Some(Invalid)
    else if i.profile != Jira && preview.value.Malformed? then Some(Invalid)
    else if preview.value != PreviewOf(Binding(i)) then Some(Conflict)
    else None
  }

  /** The request selects a delivery and confirms it. */
  predicate ConfirmedRequest(site: Site, b: Board, id: string, actor: string, connection: string, facts: Facts,
      origin: string, escaped: string, confirm: Field<bool>, preview: Field<Preview>)
  {
    connection in b.connections &&
    var i := ManualIntent(site.rules, id, site.workspace, actor, connection, b.connections[connection], facts, origin,
                          escaped);
    i.Some? && Confirmed(i.value, confirm, preview)
  }

  class NotificationDatabase {
    const site: Site
    var now: int
    var epoch: nat
    var policies: map<string, Revision>
    var revisions: seq<Revision>
    var connections: map<string, Connection>
    var seen: map<string, nat>
    var events: map<Change, Event>
    var outcomes: seq<PolicyOutcome>
    var deliveries: seq<Row>
    var effects: map<(string, string), string>

    ghost function Model(): Board
      reads this
    {
      Board(now, epoch, policies, revisions, connections, seen, events, outcomes, deliveries, effects)
    }

    constructor (where: Site, start: int)
      ensures Model() == Empty(start) && site == where
    {
      site := where;
      now, epoch, policies, revisions, connections := start, 0, map[], [], map[];
      seen, events, outcomes, deliveries, effects := map[], map[], [], [], map[];
    }

    method CreateNotificationPolicy(id: string, draft: Revision) returns (created: bool)
      requires ValidId(id) && id !in policies
      modifies this`epoch, this`policies, this`revisions
      ensures Model() == CreateStep(old(Model()), id, draft)
      ensures created ==> id in policies && policies[id].epoch == epoch == old(epoch) + 1
      ensures !created ==> Model() == old(Model())
    {
      if |policies| >= MaxPolicies || draft.connection !in connections { return false; }
      epoch := epoch + 1;
      var c := connections[draft.connection];
      var policy := draft.(policy := id, profile := c.profile, connectionRevision := c.revision, revision := 1,
                           epoch := epoch);
      policies := policies[id := policy];
      revisions := revisions + [policy];
      created := true;
    }

    /** The patch is applied field by field; an edit that changes nothing rolls back. */
    method UpdateNotificationPolicy(id: string, patch: Patch, actor: string) returns (updated: bool)
      requires id in policies ==> policies[id].policy == id
      modifies this`epoch, this`policies, this`revisions
      ensures Model() == UpdateStep(old(Model()), id, patch, actor)
      ensures updated ==> id in old(policies) && id in policies &&
                          policies[id].revision == old(policies)[id].revision + 1 &&
                          policies[id].epoch == epoch == old(epoch) + 1
      ensures !updated ==> Model() == old(Model())
    {
      if id !in policies || (patch.connection.Some? && patch.connection.value !in connections) { return false; }
      var current := policies[id];
      var next := Amend(current, patch, connections);
      if SamePolicy(next, current) { return false; }
      epoch := epoch + 1;
      next := next.(revision := current.revision + 1, epoch := epoch, actor := actor);
      policies := policies[id := next];
      revisions := revisions + [next];
      updated := true;
    }

    method ClaimFindingChangeEvent(change: Change, worker: string, lease: nat) returns (claimed: bool)
      requires change in events
      modifies this`events
      ensures Model() == ClaimStep(old(Model()), change, worker, lease)
      ensures claimed <==> Claimable(old(events)[change], now)
      ensures claimed ==> events[change].fence == old(events)[change].fence + 1
    {
      var e := events[change];
      claimed := e.state == Pending || (e.state == Processing && e.leaseUntil.Some? && e.leaseUntil.value <= now);
      if claimed {
        events := events[change := e.(state := Processing, worker := Some(worker), fence := e.fence + 1,
                                      leaseUntil := Some(now + lease))];
      }
    }

    /** `evaluateFindingChangeEvent`: the loop over the selected revisions, then the fenced completion. */
    method EvaluateFindingChangeEvent(change: Change, worker: string, fence: nat, order: seq<string>,
        sender: Sender) returns (committed: bool)
      requires change in events && Selects(Model(), events[change], order)
      modifies this`events, this`outcomes, this`deliveries, this`effects
      ensures Model() == EvaluateStep(site, old(Model()), change, worker, fence, order, sender)
      ensures committed ==> events[change].state == Evaluated
      ensures !committed ==> Model() == old(Model())
    {
      ghost var b := Model();
      var e := events[change];
      if !HeldEvent(e, worker, fence, now) { return false; }
      var here := Board(now, epoch, policies, revisions, connections, seen, events, outcomes, deliveries, effects);
      var rs := Pick(here, e, order);
      var work := Work(true, outcomes, deliveries, effects);
      var n := 0;
      while n < |rs|
        invariant 0 <= n <= |rs| && Model() == b
        invariant work == EvaluateAll(site, b, change, e, Ledger(b), rs[..n], sender)
      {
        assert rs[..n + 1][..n] == rs[..n];
        work := EvaluateOne(site, here, change, e, work, rs[n], sender);
        n := n + 1;
      }
      assert rs[..n] == rs;
      if !work.ok { return false; }
      events := events[change := e.(state := Evaluated, worker := None, leaseUntil := None)];
      outcomes, deliveries, effects := work.outcomes, work.deliveries, work.effects;
      committed := true;
    }

    /** `enqueueFindingDelivery` after authorization: the confirmation, replay by key, then the Jira effect, then the
        insert. */
    method EnqueueFindingDelivery(
      id: string, actor: string, connection: string, facts: Facts, key: string, origin: string, escaped: string,
      confirm: Field<bool>, preview: Field<Preview>) returns (reply: Reply)
      requires forall i :: 0 <= i < |deliveries| ==> deliveries[i].intent.id != id
      modifies this`deliveries, this`effects
      ensures Model() ==
                if ConfirmedRequest(site, old(Model()), id, actor, connection, facts, origin, escaped, confirm, preview)
                then EnqueueStep(site, old(Model()), id, actor, connection, facts, key, origin, escaped)
                else old(Model())
      ensures reply != Created ==> Model() == old(Model())
      ensures reply == Created ==> |deliveries| == |old(deliveries)| + 1 && deliveries[|old(deliveries)|].key == key
      ensures reply == Created || reply.Replayed? ==>
                ConfirmedRequest(site, old(Model()), id, actor, connection, facts, origin, escaped, confirm, preview)
      ensures reply.Replayed? ==>
                reply.delivery in deliveries && reply.delivery.key == key && ValidBinding(site.rules, reply.delivery)
    {
      if !ValidText(key, 256) { return Invalid; }
      if origin == "" { return Reply.Unavailable; }
      if connection !in connections { return Invalid; }
      var intent := ManualIntent(site.rules, id, site.workspace, actor, connection, connections[connection], facts,
                                 origin, escaped);
      if intent.None? { return Invalid; }
      var refused := Confirmation(intent.value, confirm, preview);
      if refused.Some? { return refused.value; }
      reply := InsertManual(id, connection, facts, key, intent.value);
    }

    /** The rest of the transaction, once the request has been confirmed. */
    method InsertManual(id: string, connection: string, facts: Facts, key: string, intent: Intent)
      returns (reply: Reply)
      requires forall i :: 0 <= i < |deliveries| ==> deliveries[i].intent.id != id
      modifies this`deliveries, this`effects
      ensures reply == Created <==>
                !Taken(old(deliveries), id, key) && !(intent.profile == Jira && (connection, facts.id) in old(effects))
      ensures reply == Created ==>
                deliveries == old(deliveries) + [Stored(intent, key, ManualRef(site.workspace, id))] &&
                effects == if intent.profile == Jira then old(effects)[(connection, facts.id) := id] else old(effects)
      ensures reply != Created ==> deliveries == old(deliveries) && effects == old(effects)
      ensures reply.Replayed? ==>
                reply.delivery in deliveries && reply.delivery.key == key && ValidBinding(site.rules, reply.delivery)
    {
      var found := FindByKey(deliveries, key);
      if found.Some? {
        var row := deliveries[found.value];
        assert Taken(deliveries, id, key);
        if row.digest == IntentBinding(intent, key) && ValidBinding(site.rules, row) { return Replayed(row); }
        return Conflict;
      }
      if intent.profile == Jira && (connection, facts.id) in effects { return Conflict; }
      deliveries := deliveries + [Stored(intent, key, ManualRef(site.workspace, id))];
      if intent.profile == Jira { effects := effects[(connection, facts.id) := id]; }
      reply := Created;
    }
  }
}
