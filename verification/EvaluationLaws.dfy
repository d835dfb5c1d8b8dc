/** When the evaluation of a change event commits, and when it never can. */
module EvaluationLaws {
  import opened Options
  import opened Deliveries
  import opened DeliveryBinding
  import opened Notifications
  import opened NotificationLaws
  import opened TicketLaws

  // ----- which policies insert a delivery -----

  /** The policy matches the event, its connection is current, and its payload is in order. */
  predicate Eligible(site: Site, b: Board, change: Change, e: Event, r: Revision, sender: Sender) {
    Matches(r, e) && !Stale(site, b, r) && r.policy in sender.ids &&
    Draft(site, b, change, e, r, sender.ids[r.policy], sender).Some?
  }

  predicate ToJira(b: Board, r: Revision) {
    r.connection in b.connections && b.connections[r.connection].profile == Jira
  }

  /** An earlier policy of this evaluation claims the ticket of this connection. */
  predicate Claimed(site: Site, b: Board, change: Change, e: Event, rs: seq<Revision>, n: nat, connection: string,
      sender: Sender) {
    exists m :: 0 <= m < n <= |rs| && Eligible(site, b, change, e, rs[m], sender) && ToJira(b, rs[m]) &&
                rs[m].connection == connection
  }

  /** The n-th policy inserts a delivery, unless its key or identifier is taken. */
  predicate Inserts(site: Site, b: Board, change: Change, e: Event, w: Work, rs: seq<Revision>, n: nat,
      sender: Sender) {
    n < |rs| && Eligible(site, b, change, e, rs[n], sender) &&
    (ToJira(b, rs[n]) ==> (rs[n].connection, change.0) !in w.effects &&
                          !Claimed(site, b, change, e, rs, n, rs[n].connection, sender))
  }

  /** The n-th policy would insert a delivery whose key or identifier a stored delivery already has. */
  predicate Clashes(site: Site, b: Board, change: Change, e: Event, w: Work, rs: seq<Revision>, n: nat,
      sender: Sender) {
    Inserts(site, b, change, e, w, rs, n, sender) &&
    Taken(w.deliveries, sender.ids[rs[n].policy], PolicyKey(rs[n].policy, change.0, change.1))
  }

  /** One revision for each policy, and a new random identifier for each of them. */
  predicate Ready(rs: seq<Revision>, sender: Sender) {
    (forall i :: 0 <= i < |rs| ==> ValidId(rs[i].policy) && rs[i].policy in sender.ids) &&
    (forall i, j :: 0 <= i < j < |rs| ==>
       rs[i].policy != rs[j].policy && sender.ids[rs[i].policy] != sender.ids[rs[j].policy])
  }

  // ----- the loop -----

  predicate FromPolicy(row: Row, change: Change, r: Revision, sender: Sender) {
    r.policy in sender.ids && row.intent.id == sender.ids[r.policy] &&
    row.key == PolicyKey(r.policy, change.0, change.1)
  }

  predicate FromOneOf(row: Row, change: Change, rs: seq<Revision>, n: nat, sender: Sender) {
    exists m :: 0 <= m < n <= |rs| && FromPolicy(row, change, rs[m], sender)
  }

  /** Every delivery added since `was` belongs to one of the first `n` policies. */
  predicate Added(was: seq<Row>, now: seq<Row>, change: Change, rs: seq<Revision>, n: nat, sender: Sender) {
    was <= now && forall i :: |was| <= i < |now| ==> FromOneOf(now[i], change, rs, n, sender)
  }

  lemma AddedOne(was: seq<Row>, now: seq<Row>, row: Row, change: Change, rs: seq<Revision>, n: nat, sender: Sender)
    requires n < |rs| && Added(was, now, change, rs, n, sender) && FromPolicy(row, change, rs[n], sender)
    ensures Added(was, now + [row], change, rs, n + 1, sender)
  {
    var rows := now + [row];
    forall i | |was| <= i < |rows| ensures FromOneOf(rows[i], change, rs, n + 1, sender) {
      if i < |now| {
        assert FromOneOf(now[i], change, rs, n, sender);
        var m :| 0 <= m < n && FromPolicy(now[i], change, rs[m], sender);
        assert FromPolicy(rows[i], change, rs[m], sender);
      } else {
        assert FromPolicy(rows[i], change, rs[n], sender);
      }
    }
  }

  lemma AddedNone(was: seq<Row>, now: seq<Row>, change: Change, rs: seq<Revision>, n: nat, sender: Sender)
    requires n < |rs| && Added(was, now, change, rs, n, sender)
    ensures Added(was, now, change, rs, n + 1, sender)
  {
    forall i | |was| <= i < |now| ensures FromOneOf(now[i], change, rs, n + 1, sender) {
      assert FromOneOf(now[i], change, rs, n, sender);
      var m :| 0 <= m < n && FromPolicy(now[i], change, rs[m], sender);
      assert FromPolicy(now[i], change, rs[m], sender);
    }
  }

  lemma OtherPolicy(row: Row, change: Change, rs: seq<Revision>, m: nat, n: nat, sender: Sender)
    requires m < n < |rs| && Ready(rs, sender) && ValidId(change.0) && FromPolicy(row, change, rs[m], sender)
    ensures row.intent.id != sender.ids[rs[n].policy] && row.key != PolicyKey(rs[n].policy, change.0, change.1)
  {
    assert rs[m].policy != rs[n].policy && ValidId(rs[m].policy) && ValidId(rs[n].policy);
    if row.key == PolicyKey(rs[n].policy, change.0, change.1) {
      PolicyKeyIsInjective(rs[m].policy, change.0, change.1, rs[n].policy, change.0, change.1);
    }
  }

  /** Policies evaluated together never take each other's keys. */
  lemma TakenBefore(was: seq<Row>, now: seq<Row>, change: Change, rs: seq<Revision>, n: nat, sender: Sender)
    requires n < |rs| && Ready(rs, sender) && ValidId(change.0) && Added(was, now, change, rs, n, sender)
    ensures var id, key := sender.ids[rs[n].policy], PolicyKey(rs[n].policy, change.0, change.1);
            Taken(now, id, key) <==> Taken(was, id, key)
  {
    var id, key := sender.ids[rs[n].policy], PolicyKey(rs[n].policy, change.0, change.1);
    forall i | |was| <= i < |now| ensures now[i].intent.id != id && now[i].key != key {
      assert FromOneOf(now[i], change, rs, n, sender);
      var m :| 0 <= m < n && FromPolicy(now[i], change, rs[m], sender);
      OtherPolicy(now[i], change, rs, m, n, sender);
    }
    assert forall i :: 0 <= i < |was| ==> now[i] == was[i];
  }

  /** A ticket is reserved after `n` policies exactly when it was reserved before or one of them claims it. */
  ghost predicate Reserved(
    site: Site, b: Board, change: Change, e: Event, w: Work, v: Work, rs: seq<Revision>, n: nat, sender: Sender)
  {
    forall c :: (c, change.0) in v.effects <==>
      (c, change.0) in w.effects || Claimed(site, b, change, e, rs, n, c, sender)
  }

  lemma ClaimedNext(site: Site, b: Board, change: Change, e: Event, rs: seq<Revision>, n: nat, c: string,
      sender: Sender)
    requires n < |rs|
    ensures Claimed(site, b, change, e, rs, n + 1, c, sender) <==>
            Claimed(site, b, change, e, rs, n, c, sender) ||
            (Eligible(site, b, change, e, rs[n], sender) && ToJira(b, rs[n]) && rs[n].connection == c)
  {
    if Eligible(site, b, change, e, rs[n], sender) && ToJira(b, rs[n]) && rs[n].connection == c {
      assert Claimed(site, b, change, e, rs, n + 1, c, sender);
    }
  }

  /** Where the loop stands after `n` policies. */
  ghost predicate Standing(
    site: Site, b: Board, change: Change, e: Event, w: Work, v: Work, rs: seq<Revision>, n: nat, sender: Sender)
  {
    (v.ok <==> forall m :: 0 <= m < n ==> !Clashes(site, b, change, e, w, rs, m, sender)) &&
    (v.ok ==> Added(w.deliveries, v.deliveries, change, rs, n, sender) &&
              Reserved(site, b, change, e, w, v, rs, n, sender))
  }

  lemma ReservedNext(
    site: Site, b: Board, change: Change, e: Event, w: Work, v: Work, u: Work, rs: seq<Revision>, n: nat,
    sender: Sender)
    requires n < |rs| && Reserved(site, b, change, e, w, v, rs, n, sender)
    requires if Eligible(site, b, change, e, rs[n], sender) && ToJira(b, rs[n])
             then u.effects.Keys == v.effects.Keys + {(rs[n].connection, change.0)} else u.effects == v.effects
    ensures Reserved(site, b, change, e, w, u, rs, n + 1, sender)
  {
    forall c ensures (c, change.0) in u.effects <==>
      (c, change.0) in w.effects || Claimed(site, b, change, e, rs, n + 1, c, sender) {
      ClaimedNext(site, b, change, e, rs, n, c, sender);
      assert (c, change.0) in u.effects <==> (c, change.0) in u.effects.Keys;
      assert (c, change.0) in v.effects <==> (c, change.0) in v.effects.Keys;
    }
  }

  /** A policy that inserts nothing. */
  lemma SkipOne(site: Site, b: Board, change: Change, e: Event, w: Work, v: Work, rs: seq<Revision>, n: nat,
      sender: Sender)
    requires n < |rs| && Ready(rs, sender) && v.ok && Standing(site, b, change, e, w, v, rs, n, sender)
    requires !Inserts(site, b, change, e, w, rs, n, sender)
    ensures Standing(site, b, change, e, w, EvaluateOne(site, b, change, e, v, rs[n], sender), rs, n + 1, sender)
  {
    var u := EvaluateOne(site, b, change, e, v, rs[n], sender);
    var r := rs[n];
    AddedNone(w.deliveries, v.deliveries, change, rs, n, sender);
    assert r.policy in sender.ids;
    if Eligible(site, b, change, e, r, sender) {
      assert (r.connection, change.0) in v.effects;
      assert u.effects.Keys == v.effects.Keys + {(r.connection, change.0)};
    }
    assert u.ok && u.deliveries == v.deliveries && u.effects == v.effects;
    ReservedNext(site, b, change, e, w, v, u, rs, n, sender);
  }

  /** What one policy does once it comes to inserting. */
  lemma InsertResult(site: Site, b: Board, change: Change, e: Event, v: Work, r: Revision, sender: Sender)
    requires v.ok && Eligible(site, b, change, e, r, sender)
    requires ToJira(b, r) ==> (r.connection, change.0) !in v.effects
    ensures var u := EvaluateOne(site, b, change, e, v, r, sender);
            (u.ok <==> !Taken(v.deliveries, sender.ids[r.policy], PolicyKey(r.policy, change.0, change.1))) &&
            (u.ok ==> |u.deliveries| == |v.deliveries| + 1 &&
                      u.deliveries == v.deliveries + [u.deliveries[|v.deliveries|]] &&
                      FromPolicy(u.deliveries[|v.deliveries|], change, r, sender) &&
                      if ToJira(b, r) then u.effects.Keys == v.effects.Keys + {(r.connection, change.0)}
                      else u.effects == v.effects)
  {
    DraftNamesItsTicket(site, b, change, e, r, sender.ids[r.policy], sender);
  }

  /** A policy that inserts its delivery, or rolls everything back. */
  lemma InsertOne(site: Site, b: Board, change: Change, e: Event, w: Work, v: Work, u: Work, rs: seq<Revision>, n: nat,
      sender: Sender)
    requires n < |rs| && Ready(rs, sender) && ValidId(change.0) && v.ok &&
             Standing(site, b, change, e, w, v, rs, n, sender)
    requires Inserts(site, b, change, e, w, rs, n, sender) && u == EvaluateOne(site, b, change, e, v, rs[n], sender)
    ensures Standing(site, b, change, e, w, u, rs, n + 1, sender)
  {
    TakenBefore(w.deliveries, v.deliveries, change, rs, n, sender);
    InsertResult(site, b, change, e, v, rs[n], sender);
    assert u.ok <==> !Clashes(site, b, change, e, w, rs, n, sender);
    if u.ok {
      AddedOne(w.deliveries, v.deliveries, u.deliveries[|v.deliveries|], change, rs, n, sender);
      ReservedNext(site, b, change, e, w, v, u, rs, n, sender);
    }
  }

  lemma {:induction false} LoopStands(
    site: Site, b: Board, change: Change, e: Event, w: Work, rs: seq<Revision>, n: nat, sender: Sender)
    requires n <= |rs| && w.ok && Ready(rs, sender) && ValidId(change.0)
    ensures Standing(site, b, change, e, w, EvaluateAll(site, b, change, e, w, rs[..n], sender), rs, n, sender)
  {
    if n > 0 {
      LoopStands(site, b, change, e, w, rs, n - 1, sender);
      assert rs[..n][..n - 1] == rs[..n - 1];
      var v := EvaluateAll(site, b, change, e, w, rs[..n - 1], sender);
      if !v.ok {
      } else if Inserts(site, b, change, e, w, rs, n - 1, sender) {
        InsertOne(site, b, change, e, w, v, EvaluateAll(site, b, change, e, w, rs[..n], sender), rs, n - 1, sender);
      } else {
        SkipOne(site, b, change, e, w, v, rs, n - 1, sender);
      }
    }
  }

  // ----- the transaction -----

  lemma PickIsReady(b: Board, e: Event, order: seq<string>, sender: Sender)
    requires EpochsOk(b) && Selects(b, e, order) && Named(order, sender)
    ensures Ready(Pick(b, e, order), sender)
    ensures forall i :: 0 <= i < |order| ==> Pick(b, e, order)[i].policy == order[i]
  {
    var rs := Pick(b, e, order);
    forall i | 0 <= i < |order| ensures rs[i].policy == order[i] && ValidId(rs[i].policy) {
      LatestIsARevision(b.revisions, order[i], e.epoch);
      var k :| 0 <= k < |b.revisions| && b.revisions[k] == rs[i];
      assert RevisionOk(b.revisions[k], b.epoch);
    }
  }

  /** The worker draws a different identifier for every policy. */
  predicate Named(order: seq<string>, sender: Sender) {
    (forall i :: 0 <= i < |order| ==> order[i] in sender.ids) &&
    (forall i, j :: 0 <= i < j < |order| ==> sender.ids[order[i]] != sender.ids[order[j]])
  }

  ghost predicate SomeClash(site: Site, b: Board, change: Change, order: seq<string>, sender: Sender)
    requires change in b.events && Selects(b, b.events[change], order)
  {
    exists n :: Clashes(site, b, change, b.events[change], Ledger(b), Pick(b, b.events[change], order), n, sender)
  }

  lemma LoopDecides(site: Site, b: Board, change: Change, order: seq<string>, sender: Sender)
    requires EpochsOk(b) && ValidId(change.0) && change in b.events
    requires Selects(b, b.events[change], order) && Named(order, sender)
    ensures EvaluateAll(site, b, change, b.events[change], Ledger(b), Pick(b, b.events[change], order), sender).ok <==>
            !SomeClash(site, b, change, order, sender)
  {
    var e := b.events[change];
    var rs := Pick(b, e, order);
    PickIsReady(b, e, order, sender);
    LoopStands(site, b, change, e, Ledger(b), rs, |rs|, sender);
    assert rs[..|rs|] == rs;
    if SomeClash(site, b, change, order, sender) {
      var n: nat :| Clashes(site, b, change, e, Ledger(b), rs, n, sender);
      assert 0 <= n < |rs|;
    }
  }

  /** The holder's evaluation commits if and only if no policy that would insert a delivery has its key or
      identifier taken by a delivery stored before; policies evaluated together never block each other. */
  lemma EvaluationCommitsIff(site: Site, b: Board, change: Change, worker: string, fence: nat, order: seq<string>,
      sender: Sender)
    requires EpochsOk(b) && ValidId(change.0) && change in b.events && HeldEvent(b.events[change], worker, fence, b.now)
    requires Selects(b, b.events[change], order) && Named(order, sender)
    ensures var c := EvaluateStep(site, b, change, worker, fence, order, sender);
            if SomeClash(site, b, change, order, sender) then c == b
            else change in c.events && c.events[change].state == Evaluated
  {
    LoopDecides(site, b, change, order, sender);
  }

  // ----- a key that is taken stays taken -----

  predicate KeyHeld(deliveries: seq<Row>, key: string) {
    exists i :: 0 <= i < |deliveries| && deliveries[i].key == key
  }

  lemma {:induction false} EvaluationOnlyAppends(
    site: Site, b: Board, change: Change, e: Event, w: Work, rs: seq<Revision>, sender: Sender)
    ensures w.deliveries <= EvaluateAll(site, b, change, e, w, rs, sender).deliveries
  {
    if rs != [] { EvaluationOnlyAppends(site, b, change, e, w, rs[..|rs| - 1], sender); }
  }

  lemma StepOnlyAppends(site: Site, b: Board, s: Step)
    ensures b.deliveries <= Apply(site, b, s).deliveries
  {
    if s.Evaluate? && s.change in b.events && Selects(b, b.events[s.change], s.order) {
      EvaluationOnlyAppends(site, b, s.change, b.events[s.change], Ledger(b), Pick(b, b.events[s.change], s.order),
                            s.sender);
    }
  }

  lemma {:induction false} HeldKeyStaysHeld(site: Site, b: Board, later: seq<Step>, key: string)
    requires KeyHeld(b.deliveries, key)
    ensures KeyHeld(Run(site, b, later).deliveries, key)
  {
    if later != [] {
      var c := Run(site, b, later[..|later| - 1]);
      HeldKeyStaysHeld(site, b, later[..|later| - 1], key);
      StepOnlyAppends(site, c, later[|later| - 1]);
      var i :| 0 <= i < |c.deliveries| && c.deliveries[i].key == key;
      assert Apply(site, c, later[|later| - 1]).deliveries[i].key == key;
    }
  }

  /** The policy would insert a delivery for this change: it still matches, its connection is current, its
      payload is in order, and no ticket stands in its way. */
  ghost predicate WouldInsert(site: Site, b: Board, change: Change, p: string, order: seq<string>, sender: Sender)
    requires change in b.events && Selects(b, b.events[change], order)
  {
    exists n :: 0 <= n < |order| && order[n] == p &&
                Inserts(site, b, change, b.events[change], Ledger(b), Pick(b, b.events[change], order), n, sender)
  }

  lemma HeldKeyRollsBack(site: Site, b: Board, change: Change, p: string, worker: string, fence: nat,
      order: seq<string>, sender: Sender)
    requires EpochsOk(b) && ValidId(change.0) && change in b.events &&
             KeyHeld(b.deliveries, PolicyKey(p, change.0, change.1))
    requires Selects(b, b.events[change], order) && Named(order, sender) &&
             WouldInsert(site, b, change, p, order, sender)
    ensures EvaluateStep(site, b, change, worker, fence, order, sender) == b
  {
    var e := b.events[change];
    var rs := Pick(b, e, order);
    if HeldEvent(e, worker, fence, b.now) {
      PickIsReady(b, e, order, sender);
      var n :| 0 <= n < |order| && order[n] == p && Inserts(site, b, change, e, Ledger(b), rs, n, sender);
      var i :| 0 <= i < |b.deliveries| && b.deliveries[i].key == PolicyKey(p, change.0, change.1);
      assert rs[n].policy == p;
      assert Taken(b.deliveries, sender.ids[p], PolicyKey(p, change.0, change.1));
      assert Clashes(site, b, change, e, Ledger(b), rs, n, sender);
      EvaluationCommitsIff(site, b, change, worker, fence, order, sender);
    }
  }

  /** Whenever the event is evaluated, the policy would insert its delivery. */
  ghost predicate KeepsWanting(site: Site, b: Board, later: seq<Step>, change: Change, p: string, i: nat)
    requires i < |later|
  {
    later[i].Evaluate? && later[i].change == change ==>
      var c := Run(site, b, later[..i]);
      change in c.events && (Selects(c, c.events[change], later[i].order) ==>
        Named(later[i].order, later[i].sender) && WouldInsert(site, c, change, p, later[i].order, later[i].sender))
  }

  lemma OtherStepsKeepState(site: Site, b: Board, s: Step, change: Change)
    requires change in b.events && b.events[change].state != Evaluated && !(s.Evaluate? && s.change == change)
    ensures change in Apply(site, b, s).events && Apply(site, b, s).events[change].state != Evaluated
  {}

  lemma BlockedStep(site: Site, b: Board, s: Step, change: Change, p: string)
    requires EpochsOk(b) && ValidId(change.0) && change in b.events && b.events[change].state != Evaluated
    requires KeyHeld(b.deliveries, PolicyKey(p, change.0, change.1))
    requires s.Evaluate? && s.change == change && Selects(b, b.events[change], s.order) ==>
               Named(s.order, s.sender) && WouldInsert(site, b, change, p, s.order, s.sender)
    ensures change in Apply(site, b, s).events && Apply(site, b, s).events[change].state != Evaluated
  {
    if s.Evaluate? && s.change == change {
      if Selects(b, b.events[change], s.order) {
        HeldKeyRollsBack(site, b, change, p, s.worker, s.fence, s.order, s.sender);
      }
    } else {
      OtherStepsKeepState(site, b, s, change);
    }
  }

  lemma WantingPrefix(site: Site, b: Board, later: seq<Step>, change: Change, p: string, i: nat)
    requires i + 1 < |later| && KeepsWanting(site, b, later, change, p, i)
    ensures KeepsWanting(site, b, later[..|later| - 1], change, p, i)
  {
    assert later[..|later| - 1][..i] == later[..i];
  }

  /** While a policy would still insert its delivery and its key is taken, no later run evaluates the event:
      every attempt rolls back, for every worker and every policy. */
  lemma {:induction false} HeldKeyBlocksForever(site: Site, b: Board, later: seq<Step>, change: Change, p: string)
    requires EpochsOk(b) && ValidId(change.0) && change in b.events && b.events[change].state != Evaluated
    requires KeyHeld(b.deliveries, PolicyKey(p, change.0, change.1))
    requires forall i: nat :: i < |later| ==> KeepsWanting(site, b, later, change, p, i)
    ensures change in Run(site, b, later).events && Run(site, b, later).events[change].state != Evaluated
  {
    if later != [] {
      var n := |later| - 1;
      var front := later[..n];
      forall i: nat | i < |front| ensures KeepsWanting(site, b, front, change, p, i) {
        WantingPrefix(site, b, later, change, p, i);
      }
      HeldKeyBlocksForever(site, b, front, change, p);
      RunKeepsEpochs(site, b, front);
      HeldKeyStaysHeld(site, b, front, PolicyKey(p, change.0, change.1));
      assert KeepsWanting(site, b, later, change, p, n);
      BlockedStep(site, Run(site, b, front), later[n], change, p);
    }
  }

  // ----- what ends the block -----

  /** The policy's ticket is taken: reserved before, or by an earlier policy of the same evaluation. */
  predicate TicketTaken(site: Site, b: Board, change: Change, e: Event, rs: seq<Revision>, n: nat, sender: Sender) {
    n < |rs| && ToJira(b, rs[n]) &&
    ((rs[n].connection, change.0) in b.effects || Claimed(site, b, change, e, rs, n, rs[n].connection, sender))
  }

  /** A worker with a public origin finds that the payload is not in order. */
  predicate PayloadRejected(site: Site, b: Board, change: Change, e: Event, r: Revision, sender: Sender) {
    sender.origin != "" && r.connection in b.connections && r.policy in sender.ids &&
    Draft(site, b, change, e, r, sender.ids[r.policy], sender).None?
  }

  /** The policy gets an outcome without inserting a delivery. */
  predicate GetsPast(site: Site, b: Board, change: Change, e: Event, rs: seq<Revision>, n: nat, sender: Sender) {
    n < |rs| &&
    (Stale(site, b, rs[n]) || TicketTaken(site, b, change, e, rs, n, sender) || sender.origin == "" ||
     PayloadRejected(site, b, change, e, rs[n], sender))
  }

  lemma GetsPastOrInserts(site: Site, b: Board, change: Change, e: Event, rs: seq<Revision>, n: nat, sender: Sender)
    requires n < |rs| && Matches(rs[n], e) && rs[n].policy in sender.ids
    ensures GetsPast(site, b, change, e, rs, n, sender) <==> !Inserts(site, b, change, e, Ledger(b), rs, n, sender)
  {}

  /** No other policy that would insert has its key or identifier taken. */
  ghost predicate OthersClear(site: Site, b: Board, change: Change, p: string, order: seq<string>, sender: Sender)
    requires change in b.events && Selects(b, b.events[change], order)
  {
    forall n: nat :: n < |order| && order[n] != p ==>
      !Clashes(site, b, change, b.events[change], Ledger(b), Pick(b, b.events[change], order), n, sender)
  }

  /** The live holder evaluates the change, the policy gets past, and no other policy stands in the way. */
  ghost predicate Ends(site: Site, b: Board, s: Step, change: Change, p: string) {
    s.Evaluate? && s.change == change && change in b.events &&
    HeldEvent(b.events[change], s.worker, s.fence, b.now) && Selects(b, b.events[change], s.order) &&
    OthersClear(site, b, change, p, s.order, s.sender) &&
    exists n: nat :: n < |s.order| && s.order[n] == p &&
                     GetsPast(site, b, change, b.events[change], Pick(b, b.events[change], s.order), n, s.sender)
  }

  lemma HeldKeyClashes(site: Site, b: Board, change: Change, p: string, order: seq<string>, n: nat, sender: Sender)
    requires EpochsOk(b) && change in b.events && KeyHeld(b.deliveries, PolicyKey(p, change.0, change.1))
    requires Selects(b, b.events[change], order) && Named(order, sender) && n < |order| && order[n] == p
    requires Wanted(b.revisions, b.events[change], p)
    ensures var e, rs := b.events[change], Pick(b, b.events[change], order);
            Clashes(site, b, change, e, Ledger(b), rs, n, sender) <==> !GetsPast(site, b, change, e, rs, n, sender)
  {
    var e, rs := b.events[change], Pick(b, b.events[change], order);
    PickIsReady(b, e, order, sender);
    GetsPastOrInserts(site, b, change, e, rs, n, sender);
    var i :| 0 <= i < |b.deliveries| && b.deliveries[i].key == PolicyKey(p, change.0, change.1);
    assert Taken(b.deliveries, sender.ids[p], PolicyKey(p, change.0, change.1));
  }

  lemma HeldKeyDecides(site: Site, b: Board, change: Change, p: string, order: seq<string>, n: nat, sender: Sender)
    requires EpochsOk(b) && change in b.events && KeyHeld(b.deliveries, PolicyKey(p, change.0, change.1))
    requires Selects(b, b.events[change], order) && Named(order, sender) && n < |order| && order[n] == p
    requires Wanted(b.revisions, b.events[change], p)
    ensures SomeClash(site, b, change, order, sender) <==>
              !(OthersClear(site, b, change, p, order, sender) &&
                GetsPast(site, b, change, b.events[change], Pick(b, b.events[change], order), n, sender))
  {
    var e, rs := b.events[change], Pick(b, b.events[change], order);
    HeldKeyClashes(site, b, change, p, order, n, sender);
    if m: nat :| Clashes(site, b, change, e, Ledger(b), rs, m, sender) {
      assert m < |order| && (order[m] == p ==> m == n);
    }
  }

  lemma EvaluateEnds(site: Site, b: Board, s: Step, change: Change, p: string)
    requires EpochsOk(b) && ValidId(change.0) && change in b.events && b.events[change].state != Evaluated
    requires KeyHeld(b.deliveries, PolicyKey(p, change.0, change.1)) && Wanted(b.revisions, b.events[change], p)
    requires s.Evaluate? && s.change == change && Named(s.order, s.sender)
    ensures change in Apply(site, b, s).events
    ensures Apply(site, b, s).events[change].state == Evaluated <==> Ends(site, b, s, change, p)
  {
    var e := b.events[change];
    if HeldEvent(e, s.worker, s.fence, b.now) && Selects(b, e, s.order) {
      assert p in s.order;
      var n :| 0 <= n < |s.order| && s.order[n] == p;
      assert forall m: nat :: m < |s.order| && s.order[m] == p ==> m == n;
      HeldKeyDecides(site, b, change, p, s.order, n, s.sender);
      EvaluationCommitsIff(site, b, change, s.worker, s.fence, s.order, s.sender);
    }
  }

  lemma StepEnds(site: Site, b: Board, s: Step, change: Change, p: string)
    requires EpochsOk(b) && ValidId(change.0) && change in b.events && b.events[change].state != Evaluated
    requires KeyHeld(b.deliveries, PolicyKey(p, change.0, change.1)) && Wanted(b.revisions, b.events[change], p)
    requires s.Evaluate? && s.change == change ==> Named(s.order, s.sender)
    ensures change in Apply(site, b, s).events
    ensures Apply(site, b, s).events[change].state == Evaluated <==> Ends(site, b, s, change, p)
  {
    if s.Evaluate? && s.change == change {
      EvaluateEnds(site, b, s, change, p);
    } else {
      OtherStepsKeepState(site, b, s, change);
    }
  }

  lemma EvaluatedStays(site: Site, b: Board, s: Step, change: Change)
    requires change in b.events && b.events[change].state == Evaluated
    ensures change in Apply(site, b, s).events && Apply(site, b, s).events[change].state == Evaluated
  {}

  ghost predicate EndsAt(site: Site, b: Board, later: seq<Step>, change: Change, p: string, i: nat) {
    i < |later| && Ends(site, Run(site, b, later[..i]), later[i], change, p)
  }

  lemma EndsBefore(site: Site, b: Board, later: seq<Step>, change: Change, p: string, i: nat)
    requires i + 1 < |later|
    ensures EndsAt(site, b, later, change, p, i) <==> EndsAt(site, b, later[..|later| - 1], change, p, i)
  {
    assert later[..|later| - 1][..i] == later[..i];
  }

  lemma EndsInFrontOrLast(site: Site, b: Board, later: seq<Step>, front: seq<Step>, change: Change, p: string)
    requires later != [] && front == later[..|later| - 1]
    ensures (exists i: nat :: EndsAt(site, b, later, change, p, i)) <==>
              (exists i: nat :: EndsAt(site, b, front, change, p, i)) || EndsAt(site, b, later, change, p, |front|)
  {
    forall i: nat | i < |front|
      ensures EndsAt(site, b, later, change, p, i) <==> EndsAt(site, b, front, change, p, i)
    {
      EndsBefore(site, b, later, change, p, i);
    }
  }

  /** Whoever evaluates the change draws a different identifier for every policy. */
  predicate WellNamed(s: Step, change: Change) {
    s.Evaluate? && s.change == change ==> Named(s.order, s.sender)
  }

  lemma WantedStays(site: Site, b: Board, later: seq<Step>, change: Change, p: string)
    requires change in b.events && b.events[change].epoch <= b.epoch && Wanted(b.revisions, b.events[change], p)
    ensures var c := Run(site, b, later);
            change in c.events && c.events[change].epoch <= c.epoch && Wanted(c.revisions, c.events[change], p) &&
            Latest(c.revisions, p, c.events[change].epoch) == Latest(b.revisions, p, b.events[change].epoch)
  {
    RunGrows(site, b, later);
    SnapshotIsKept(site, b, later, change);
    WantedIsStable(b, Run(site, b, later), b.events[change], p);
  }

  /** The exact rule over any later run. Once another delivery has the key of a policy that wants the change, the
      change becomes evaluated if and only if a live holder evaluates it while that policy's connection is stale,
      its ticket is taken, the holder has no public origin or rejects the payload, and no other policy clashes. */
  lemma {:induction false} HeldKeyEndsIff(site: Site, b: Board, later: seq<Step>, change: Change, p: string)
    requires EpochsOk(b) && ValidId(change.0) && change in b.events && b.events[change].state != Evaluated
    requires b.events[change].epoch <= b.epoch && Wanted(b.revisions, b.events[change], p)
    requires KeyHeld(b.deliveries, PolicyKey(p, change.0, change.1))
    requires forall i :: 0 <= i < |later| ==> WellNamed(later[i], change)
    ensures change in Run(site, b, later).events
    ensures Run(site, b, later).events[change].state == Evaluated <==>
              exists i: nat :: EndsAt(site, b, later, change, p, i)
  {
    if later != [] {
      HeldKeyEndsIff(site, b, later[..|later| - 1], change, p);
      EndsInFrontOrLast(site, b, later, later[..|later| - 1], change, p);
      LastStepDecides(site, b, later, change, p);
    }
  }

  lemma LastStepDecides(site: Site, b: Board, later: seq<Step>, change: Change, p: string)
    requires EpochsOk(b) && ValidId(change.0) && change in b.events && b.events[change].epoch <= b.epoch
    requires Wanted(b.revisions, b.events[change], p) && KeyHeld(b.deliveries, PolicyKey(p, change.0, change.1))
    requires later != [] && WellNamed(later[|later| - 1], change)
    ensures var n := |later| - 1; var c := Run(site, b, later[..n]);
            change in c.events && change in Run(site, b, later).events &&
            (Run(site, b, later).events[change].state == Evaluated <==>
               c.events[change].state == Evaluated || EndsAt(site, b, later, change, p, n)) &&
            (c.events[change].state == Evaluated ==> !EndsAt(site, b, later, change, p, n))
  {
    var n := |later| - 1;
    var c := Run(site, b, later[..n]);
    RunKeepsEpochs(site, b, later[..n]);
    HeldKeyStaysHeld(site, b, later[..n], PolicyKey(p, change.0, change.1));
    WantedStays(site, b, later[..n], change, p);
    if c.events[change].state == Evaluated {
      EvaluatedStays(site, c, later[n], change);
    } else {
      StepEnds(site, c, later[n], change, p);
    }
  }

  // ----- a payload that is in order -----

  /** Whatever identifiers a worker with a public origin draws, the policy's payload is in order. */
  ghost predicate Sends(site: Site, b: Board, change: Change, e: Event, r: Revision) {
    r.connection in b.connections &&
    forall sender: Sender :: sender.origin != "" && r.policy in sender.ids ==>
      Draft(site, b, change, e, r, sender.ids[r.policy], sender).Some?
  }

  /** The connection is as it was, or has a later revision than the policy names. */
  predicate SameOrNewer(b: Board, c: Board, r: Revision) {
    r.connection in b.connections && r.connection in c.connections &&
    (c.connections[r.connection] == b.connections[r.connection] ||
     c.connections[r.connection].revision > r.connectionRevision)
  }

  lemma StepSameOrNewer(site: Site, b: Board, c: Board, s: Step, r: Revision)
    requires SameOrNewer(b, c, r) && b.connections[r.connection].revision == r.connectionRevision
    ensures SameOrNewer(b, Apply(site, c, s), r)
  {}

  lemma {:induction false} RunSameOrNewer(site: Site, b: Board, later: seq<Step>, r: Revision)
    requires r.connection in b.connections && b.connections[r.connection].revision == r.connectionRevision
    ensures SameOrNewer(b, Run(site, b, later), r)
  {
    if later != [] {
      RunSameOrNewer(site, b, later[..|later| - 1], r);
      StepSameOrNewer(site, b, Run(site, b, later[..|later| - 1]), later[|later| - 1], r);
    }
  }

  /** A payload that was in order when the connection was current is never rejected later, except as stale. */
  lemma NeverRejected(site: Site, b: Board, c: Board, change: Change, r: Revision, sender: Sender)
    requires change in b.events && change in c.events && SameSnapshot(b.events[change], c.events[change])
    requires !Stale(site, b, r) && Sends(site, b, change, b.events[change], r) && SameOrNewer(b, c, r)
    ensures PayloadRejected(site, c, change, c.events[change], r, sender) ==> Stale(site, c, r)
  {
    if c.connections[r.connection] == b.connections[r.connection] && r.policy in sender.ids && sender.origin != "" {
      assert Draft(site, b, change, b.events[change], r, sender.ids[r.policy], sender).Some?;
      assert Draft(site, c, change, c.events[change], r, sender.ids[r.policy], sender) ==
             Draft(site, b, change, b.events[change], r, sender.ids[r.policy], sender);
    }
  }

  /** For a policy whose payload is in order, what lets the change through is one of three things: the connection
      has become stale, the ticket is taken, or the worker has no public origin. */
  lemma InOrderGetsPastIff(site: Site, b: Board, later: seq<Step>, change: Change, p: string, order: seq<string>,
      n: nat, sender: Sender)
    requires change in b.events && b.events[change].epoch <= b.epoch && Wanted(b.revisions, b.events[change], p)
    requires var r := Latest(b.revisions, p, b.events[change].epoch).value;
             !Stale(site, b, r) && Sends(site, b, change, b.events[change], r)
    requires var c := Run(site, b, later);
             change in c.events && Selects(c, c.events[change], order) && n < |order| && order[n] == p
    ensures var c := Run(site, b, later);
            var e, rs := c.events[change], Pick(c, c.events[change], order);
            GetsPast(site, c, change, e, rs, n, sender) <==>
              Stale(site, c, rs[n]) || TicketTaken(site, c, change, e, rs, n, sender) || sender.origin == ""
  {
    var r := Latest(b.revisions, p, b.events[change].epoch).value;
    var c := Run(site, b, later);
    WantedStays(site, b, later, change, p);
    SnapshotIsKept(site, b, later, change);
    RunSameOrNewer(site, b, later, r);
    assert Pick(c, c.events[change], order)[n] == r;
    NeverRejected(site, b, c, change, r, sender);
  }

  /** The live holder evaluates the change while the policy's connection is stale, its ticket is taken or the holder
      has no public origin, and no other policy stands in the way. */
  ghost predicate LetThrough(site: Site, b: Board, s: Step, change: Change, p: string) {
    s.Evaluate? && s.change == change && change in b.events &&
    HeldEvent(b.events[change], s.worker, s.fence, b.now) && Selects(b, b.events[change], s.order) &&
    OthersClear(site, b, change, p, s.order, s.sender) &&
    exists n: nat :: n < |s.order| && s.order[n] == p && PassesInOrder(site, b, change, s.order, n, s.sender)
  }

  ghost predicate PassesInOrder(site: Site, b: Board, change: Change, order: seq<string>, n: nat, sender: Sender)
    requires change in b.events && Selects(b, b.events[change], order) && n < |order|
  {
    var e, rs := b.events[change], Pick(b, b.events[change], order);
    Stale(site, b, rs[n]) || TicketTaken(site, b, change, e, rs, n, sender) || sender.origin == ""
  }

  ghost predicate LetThroughAt(site: Site, b: Board, later: seq<Step>, change: Change, p: string, i: nat) {
    i < |later| && LetThrough(site, Run(site, b, later[..i]), later[i], change, p)
  }

  lemma EndsIsLetThrough(site: Site, b: Board, later: seq<Step>, change: Change, p: string, i: nat)
    requires change in b.events && b.events[change].epoch <= b.epoch && Wanted(b.revisions, b.events[change], p)
    requires var r := Latest(b.revisions, p, b.events[change].epoch).value;
             !Stale(site, b, r) && Sends(site, b, change, b.events[change], r)
    ensures EndsAt(site, b, later, change, p, i) <==> LetThroughAt(site, b, later, change, p, i)
  {
    if i < |later| && later[i].Evaluate? && later[i].change == change {
      var c, s := Run(site, b, later[..i]), later[i];
      if change in c.events && Selects(c, c.events[change], s.order) {
        forall n: nat | n < |s.order| && s.order[n] == p
          ensures GetsPast(site, c, change, c.events[change], Pick(c, c.events[change], s.order), n, s.sender) <==>
                    PassesInOrder(site, c, change, s.order, n, s.sender)
        {
          InOrderGetsPastIff(site, b, later[..i], change, p, s.order, n, s.sender);
        }
      }
    }
  }

  /** The rule for a policy, Jira or not, whose connection is current and whose payload is in order when its key is
      found taken: over any later run the change becomes evaluated if and only if a live holder evaluates it while
      the connection is stale, the ticket is taken, or the holder's own origin is empty, and no other policy
      clashes. */
  lemma InOrderEndsIff(site: Site, b: Board, later: seq<Step>, change: Change, p: string)
    requires EpochsOk(b) && ValidId(change.0) && change in b.events && b.events[change].state != Evaluated
    requires b.events[change].epoch <= b.epoch && Wanted(b.revisions, b.events[change], p)
    requires var r := Latest(b.revisions, p, b.events[change].epoch).value;
             !Stale(site, b, r) && Sends(site, b, change, b.events[change], r)
    requires KeyHeld(b.deliveries, PolicyKey(p, change.0, change.1))
    requires forall i :: 0 <= i < |later| ==> WellNamed(later[i], change)
    ensures change in Run(site, b, later).events
    ensures Run(site, b, later).events[change].state == Evaluated <==>
              exists i: nat :: LetThroughAt(site, b, later, change, p, i)
  {
    HeldKeyEndsIff(site, b, later, change, p);
    forall i: nat ensures EndsAt(site, b, later, change, p, i) <==> LetThroughAt(site, b, later, change, p, i) {
      EndsIsLetThrough(site, b, later, change, p, i);
    }
  }
}
