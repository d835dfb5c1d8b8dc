/** One Jira ticket per connection and finding, and rows that stay valid, over manual and policy deliveries. */
module TicketLaws {
  import opened Options
  import opened Deliveries
  import opened DeliveryBinding
  import opened Notifications
  import opened NotificationLaws

  function Ticket(r: Row): (string, string) {
    (r.intent.connection, r.intent.finding)
  }

  predicate Issued(deliveries: seq<Row>, ticket: (string, string), id: string) {
    exists i :: 0 <= i < |deliveries| && deliveries[i].intent.profile == Jira && Ticket(deliveries[i]) == ticket &&
                deliveries[i].intent.id == id
  }

  predicate KeysUnique(deliveries: seq<Row>) {
    forall i, j :: 0 <= i < j < |deliveries| ==>
      deliveries[i].intent.id != deliveries[j].intent.id && deliveries[i].key != deliveries[j].key
  }

  /** The effect table is exactly the table of Jira deliveries, seen by ticket. */
  ghost predicate TicketsOk(w: Work) {
    KeysUnique(w.deliveries) &&
    (forall i :: 0 <= i < |w.deliveries| && w.deliveries[i].intent.profile == Jira ==>
                 Ticket(w.deliveries[i]) in w.effects &&
                 w.effects[Ticket(w.deliveries[i])] == w.deliveries[i].intent.id) &&
    (forall t <- w.effects :: Issued(w.deliveries, t, w.effects[t]))
  }

  predicate AllValid(rules: Rules, deliveries: seq<Row>) {
    forall i :: 0 <= i < |deliveries| ==> ValidBinding(rules, deliveries[i])
  }

  ghost predicate LedgerOk(rules: Rules, w: Work) {
    TicketsOk(w) && AllValid(rules, w.deliveries)
  }

  lemma InsertKeepsTickets(w: Work, i: Intent, key: string, approvalRef: string)
    requires TicketsOk(w) && !Taken(w.deliveries, i.id, key)
    requires i.profile == Jira ==> (i.connection, i.finding) !in w.effects
    ensures TicketsOk(Insert(w, i, key, approvalRef))
  {
    var v := Insert(w, i, key, approvalRef);
    forall t <- v.effects ensures Issued(v.deliveries, t, v.effects[t]) {
      if t in w.effects && v.effects[t] == w.effects[t] {
        var k :| 0 <= k < |w.deliveries| && w.deliveries[k].intent.profile == Jira && Ticket(w.deliveries[k]) == t &&
          w.deliveries[k].intent.id == w.effects[t];
        assert v.deliveries[k] == w.deliveries[k];
      } else {
        assert Ticket(v.deliveries[|w.deliveries|]) == t;
      }
    }
  }

  lemma AppendKeepsValid(rules: Rules, deliveries: seq<Row>, row: Row)
    requires AllValid(rules, deliveries) && ValidBinding(rules, row)
    ensures AllValid(rules, deliveries + [row])
  {}

  ghost predicate Sound(site: Site, b: Board) {
    EpochsOk(b) && LedgerOk(site.rules, Ledger(b)) &&
    (forall c <- b.connections :: ConnectionOk(site.rules, b.connections[c])) &&
    (forall change <- b.events :: ValidId(change.0) && 1 <= change.1 < 0x8000_0000_0000_0000)
  }

  lemma DraftIsValid(site: Site, b: Board, change: Change, e: Event, r: Revision, id: string, sender: Sender)
    requires Sound(site, b) && change in b.events && RevisionOk(r, b.epoch) && r.connection in b.connections
    requires Draft(site, b, change, e, r, id, sender).Some?
    ensures ValidBinding(site.rules,
                         Stored(Draft(site, b, change, e, r, id, sender).value, PolicyKey(r.policy, change.0, change.1),
                                            PolicyRef(site.workspace, r.policy, r.revision)))
  {
    PolicyRowIsValid(site.rules, id, site.workspace, r.actor, r.connection, b.connections[r.connection],
                     Snapshot(change, e),
                     KindName(e.kind), sender.origin, sender.escaped, r.policy, r.revision, change.1);
  }

  lemma DraftNamesItsTicket(site: Site, b: Board, change: Change, e: Event, r: Revision, id: string, sender: Sender)
    requires r.connection in b.connections && Draft(site, b, change, e, r, id, sender).Some?
    ensures var i := Draft(site, b, change, e, r, id, sender).value;
            i.id == id && i.connection == r.connection && i.finding == change.0 &&
            i.profile == b.connections[r.connection].profile
  {}

  lemma OneEvaluationKeepsTickets(site: Site, b: Board, change: Change, e: Event, w: Work, r: Revision, sender: Sender)
    requires TicketsOk(w)
    ensures TicketsOk(EvaluateOne(site, b, change, e, w, r, sender))
  {
    if r.connection in b.connections && r.policy in sender.ids {
      var id, key := sender.ids[r.policy], PolicyKey(r.policy, change.0, change.1);
      var draft := Draft(site, b, change, e, r, id, sender);
      if draft.Some? {
        DraftNamesItsTicket(site, b, change, e, r, id, sender);
        if !Taken(w.deliveries, id, key) && !(draft.value.profile == Jira && (r.connection, change.0) in w.effects) {
          InsertKeepsTickets(w, draft.value, key, PolicyRef(site.workspace, r.policy, r.revision));
        }
      }
    }
  }

  lemma OneEvaluationKeepsValid(site: Site, b: Board, change: Change, e: Event, w: Work, r: Revision, sender: Sender)
    requires Sound(site, b) && change in b.events && RevisionOk(r, b.epoch) && AllValid(site.rules, w.deliveries)
    ensures AllValid(site.rules, EvaluateOne(site, b, change, e, w, r, sender).deliveries)
  {
    var v := EvaluateOne(site, b, change, e, w, r, sender);
    if v.deliveries != w.deliveries {
      var id := sender.ids[r.policy];
      DraftIsValid(site, b, change, e, r, id, sender);
      AppendKeepsValid(site.rules, w.deliveries,
                       Stored(Draft(site, b, change, e, r, id, sender).value, PolicyKey(r.policy, change.0, change.1),
                              PolicyRef(site.workspace, r.policy, r.revision)));
    }
  }

  lemma {:induction false} EvaluationKeepsLedger(site: Site, b: Board, change: Change, e: Event, w: Work,
      rs: seq<Revision>, sender: Sender)
    requires Sound(site, b) && change in b.events && LedgerOk(site.rules, w)
    requires forall i :: 0 <= i < |rs| ==> RevisionOk(rs[i], b.epoch)
    ensures LedgerOk(site.rules, EvaluateAll(site, b, change, e, w, rs, sender))
  {
    if rs != [] {
      EvaluationKeepsLedger(site, b, change, e, w, rs[..|rs| - 1], sender);
      var v := EvaluateAll(site, b, change, e, w, rs[..|rs| - 1], sender);
      OneEvaluationKeepsTickets(site, b, change, e, v, rs[|rs| - 1], sender);
      OneEvaluationKeepsValid(site, b, change, e, v, rs[|rs| - 1], sender);
    }
  }

  lemma EvaluateKeepsLedger(site: Site, b: Board, change: Change, worker: string, fence: nat, order: seq<string>,
      sender: Sender)
    requires Sound(site, b)
    ensures LedgerOk(site.rules, Ledger(EvaluateStep(site, b, change, worker, fence, order, sender)))
  {
    if change in b.events && Selects(b, b.events[change], order) {
      var rs := Pick(b, b.events[change], order);
      forall i | 0 <= i < |rs| ensures RevisionOk(rs[i], b.epoch) {
        LatestIsARevision(b.revisions, order[i], b.events[change].epoch);
      }
      EvaluationKeepsLedger(site, b, change, b.events[change], Ledger(b), rs, sender);
      var w := EvaluateAll(site, b, change, b.events[change], Ledger(b), rs, sender);
      assert LedgerOk(site.rules, w.(ok := true, outcomes := b.outcomes));
    }
  }

  lemma EnqueueKeepsTickets(
    site: Site, b: Board, id: string, actor: string, connection: string, facts: Facts, key: string, origin: string,
    escaped: string)
    requires TicketsOk(Ledger(b))
    ensures TicketsOk(Ledger(EnqueueStep(site, b, id, actor, connection, facts, key, origin, escaped)))
  {
    var q := EnqueueStep(site, b, id, actor, connection, facts, key, origin, escaped);
    if q != b {
      var intent := ManualIntent(site.rules, id, site.workspace, actor, connection, b.connections[connection], facts,
                                 origin, escaped);
      InsertKeepsTickets(Ledger(b), intent.value, key, ManualRef(site.workspace, id));
      assert Ledger(q) == Insert(Ledger(b), intent.value, key, ManualRef(site.workspace, id));
    }
  }

  lemma EnqueueKeepsValid(
    site: Site, b: Board, id: string, actor: string, connection: string, facts: Facts, key: string, origin: string,
    escaped: string)
    requires Sound(site, b)
    ensures AllValid(site.rules, EnqueueStep(site, b, id, actor, connection, facts, key, origin, escaped).deliveries)
  {
    var q := EnqueueStep(site, b, id, actor, connection, facts, key, origin, escaped);
    if q.deliveries != b.deliveries {
      var c := b.connections[connection];
      var intent := ManualIntent(site.rules, id, site.workspace, actor, connection, c, facts, origin, escaped);
      ManualRowIsValid(site.rules, id, site.workspace, actor, connection, c, facts, origin, escaped, key);
      AppendKeepsValid(site.rules, b.deliveries, Stored(intent.value, key, ManualRef(site.workspace, id)));
    }
  }

  lemma OtherStepsKeepLedger(site: Site, b: Board, s: Step)
    requires !s.Evaluate? && !s.Enqueue?
    ensures Ledger(Apply(site, b, s)) == Ledger(b)
  {}

  lemma StepKeepsSurroundings(site: Site, b: Board, s: Step)
    requires Sound(site, b)
    ensures forall c <- Apply(site, b, s).connections :: ConnectionOk(site.rules, Apply(site, b, s).connections[c])
    ensures forall change <- Apply(site, b, s).events :: ValidId(change.0) && 1 <= change.1 < 0x8000_0000_0000_0000
  {}

  lemma StepKeepsSound(site: Site, b: Board, s: Step)
    requires Sound(site, b)
    ensures Sound(site, Apply(site, b, s))
  {
    StepKeepsEpochs(site, b, s);
    StepKeepsSurroundings(site, b, s);
    match s
    case Evaluate(change, worker, fence, order, sender) => EvaluateKeepsLedger(site, b, change, worker, fence, order,
                                                                               sender);
    case Enqueue(id, actor, connection, facts, key, origin, escaped) =>
      EnqueueKeepsTickets(site, b, id, actor, connection, facts, key, origin, escaped);
      EnqueueKeepsValid(site, b, id, actor, connection, facts, key, origin, escaped);
    case _ => OtherStepsKeepLedger(site, b, s);
  }

  lemma {:induction false} RunKeepsSound(site: Site, b: Board, steps: seq<Step>)
    requires Sound(site, b)
    ensures Sound(site, Run(site, b, steps))
  {
    if steps != [] {
      RunKeepsSound(site, b, steps[..|steps| - 1]);
      StepKeepsSound(site, Run(site, b, steps[..|steps| - 1]), steps[|steps| - 1]);
    }
  }

  /** Over any mix of manual enqueues and policy evaluations, two Jira deliveries never share a connection
      and a finding, and the effect table names exactly the deliveries that exist. */
  lemma OneTicketPerFinding(site: Site, start: int, steps: seq<Step>)
    ensures var b := Run(site, Empty(start), steps);
            forall i, j :: (0 <= i < |b.deliveries| && 0 <= j < |b.deliveries| &&
                            b.deliveries[i].intent.profile == Jira && b.deliveries[j].intent.profile == Jira &&
                            Ticket(b.deliveries[i]) == Ticket(b.deliveries[j])) ==> i == j
    ensures var b := Run(site, Empty(start), steps);
            forall t, id :: (t in b.effects && b.effects[t] == id) <==> Issued(b.deliveries, t, id)
  {
    var b := Run(site, Empty(start), steps);
    RunKeepsSound(site, Empty(start), steps);
    forall t, id ensures (t in b.effects && b.effects[t] == id) <==> Issued(b.deliveries, t, id) {
      if Issued(b.deliveries, t, id) {
        var i :| 0 <= i < |b.deliveries| && b.deliveries[i].intent.profile == Jira && Ticket(b.deliveries[i]) == t &&
          b.deliveries[i].intent.id == id;
      }
    }
  }

  /** Every delivery that was ever inserted is accepted when a worker reads it back from its columns. */
  lemma EveryDeliveryRereadsValid(site: Site, start: int, steps: seq<Step>, i: nat)
    requires i < |Run(site, Empty(start), steps).deliveries|
    ensures ValidBinding(site.rules, Run(site, Empty(start), steps).deliveries[i])
  {
    RunKeepsSound(site, Empty(start), steps);
  }
}
