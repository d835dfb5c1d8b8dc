/** Policy lookup by epoch, one outcome per matching policy, and one Jira ticket per finding, over all runs. */
module NotificationLaws {
  import opened Options
  import opened Deliveries
  import opened DeliveryBinding
  import opened Notifications

  // ----- epochs -----

  predicate RevisionOk(r: Revision, epoch: nat) {
    0 < r.epoch <= epoch && ValidId(r.policy) && r.revision >= 1
  }

  /** Revision rows are appended with growing epochs, and a policy row is its newest revision row. */
  ghost predicate EpochsOk(b: Board) {
    (forall i, j :: 0 <= i < j < |b.revisions| ==> b.revisions[i].epoch < b.revisions[j].epoch) &&
    (forall i :: 0 <= i < |b.revisions| ==> RevisionOk(b.revisions[i], b.epoch)) &&
    (forall run <- b.seen :: b.seen[run] <= b.epoch) &&
    (forall p :: Get(b.policies, p) == Latest(b.revisions, p, b.epoch))
  }

  lemma {:induction false} LatestIsARevision(rs: seq<Revision>, p: string, epoch: nat)
    requires Latest(rs, p, epoch).Some?
    ensures Latest(rs, p, epoch).value in rs && Latest(rs, p, epoch).value.policy == p &&
            Latest(rs, p, epoch).value.epoch <= epoch
  {
    if !(rs[|rs| - 1].policy == p && rs[|rs| - 1].epoch <= epoch) {
      LatestIsARevision(rs[..|rs| - 1], p, epoch);
    }
  }

  /** `Latest` is the query's DISTINCT ON (policy_id) … ORDER BY epoch DESC: the maximum, when there is one. */
  lemma {:induction false} LatestIsMaximal(rs: seq<Revision>, p: string, epoch: nat, k: nat)
    requires forall i, j :: 0 <= i < j < |rs| ==> rs[i].epoch < rs[j].epoch
    requires k < |rs| && rs[k].policy == p && rs[k].epoch <= epoch
    ensures Latest(rs, p, epoch).Some? && rs[k].epoch <= Latest(rs, p, epoch).value.epoch
  {
    var front := rs[..|rs| - 1];
    if rs[|rs| - 1].policy == p && rs[|rs| - 1].epoch <= epoch {
    } else {
      assert front[k] == rs[k];
      LatestIsMaximal(front, p, epoch, k);
    }
  }

  lemma {:induction false} LatestAtHigherEpoch(rs: seq<Revision>, p: string, low: nat, high: nat)
    requires low <= high && forall i :: 0 <= i < |rs| ==> rs[i].epoch <= low
    ensures Latest(rs, p, low) == Latest(rs, p, high)
  {
    if rs != [] { LatestAtHigherEpoch(rs[..|rs| - 1], p, low, high); }
  }

  lemma WriteKeepsEpochs(b: Board, r: Revision)
    requires EpochsOk(b) && ValidId(r.policy) && r.revision >= 1
    ensures EpochsOk(WritePolicy(b, r))
  {
    var q := WritePolicy(b, r);
    var row := r.(epoch := b.epoch + 1);
    forall p ensures Get(q.policies, p) == Latest(q.revisions, p, q.epoch) {
      assert q.revisions[..|b.revisions|] == b.revisions;
      LatestAtHigherEpoch(b.revisions, p, b.epoch, q.epoch);
    }
  }

  lemma PolicyRowIsRevision(b: Board, id: string)
    requires EpochsOk(b) && id in b.policies
    ensures b.policies[id].policy == id && ValidId(id)
  {
    assert Get(b.policies, id) == Latest(b.revisions, id, b.epoch);
    LatestIsARevision(b.revisions, id, b.epoch);
    var i :| 0 <= i < |b.revisions| && b.revisions[i] == b.policies[id];
    assert RevisionOk(b.revisions[i], b.epoch);
  }

  lemma UpdateKeepsEpochs(b: Board, id: string, patch: Patch, actor: string)
    requires EpochsOk(b)
    ensures EpochsOk(UpdateStep(b, id, patch, actor))
  {
    if id in b.policies && (patch.connection.Some? ==> patch.connection.value in b.connections) {
      PolicyRowIsRevision(b, id);
      WriteKeepsEpochs(b, Amended(b.connections, b.policies[id], patch).(revision := b.policies[id].revision + 1,
                                                                         actor := actor));
    }
  }

  lemma StepKeepsEpochs(site: Site, b: Board, s: Step)
    requires EpochsOk(b)
    ensures EpochsOk(Apply(site, b, s))
  {
    match s
    case CreatePolicy(id, draft) =>
      if ValidId(id) && draft.connection in b.connections {
        var c := b.connections[draft.connection];
        WriteKeepsEpochs(b, draft.(policy := id, profile := c.profile, connectionRevision := c.revision,
                                   revision := 1));
      }
    case UpdatePolicy(id, patch, actor) => UpdateKeepsEpochs(b, id, patch, actor);
    case _ =>
  }

  lemma {:induction false} RunKeepsEpochs(site: Site, b: Board, steps: seq<Step>)
    requires EpochsOk(b)
    ensures EpochsOk(Run(site, b, steps))
  {
    if steps != [] {
      RunKeepsEpochs(site, b, steps[..|steps| - 1]);
      StepKeepsEpochs(site, Run(site, b, steps[..|steps| - 1]), steps[|steps| - 1]);
    }
  }

  /** Later steps only append revisions, each with an epoch that was not yet in use. */
  ghost predicate Grows(b: Board, c: Board) {
    b.epoch <= c.epoch && b.revisions <= c.revisions &&
    (forall i :: |b.revisions| <= i < |c.revisions| ==> b.epoch < c.revisions[i].epoch)
  }

  lemma StepGrows(site: Site, b: Board, s: Step)
    ensures Grows(b, Apply(site, b, s))
  {}

  lemma {:induction false} RunGrows(site: Site, b: Board, steps: seq<Step>)
    ensures Grows(b, Run(site, b, steps))
  {
    if steps != [] {
      RunGrows(site, b, steps[..|steps| - 1]);
      StepGrows(site, Run(site, b, steps[..|steps| - 1]), steps[|steps| - 1]);
    }
  }

  lemma {:induction false} LatestIsStable(rs: seq<Revision>, longer: seq<Revision>, p: string, epoch: nat)
    requires rs <= longer && forall i :: |rs| <= i < |longer| ==> epoch < longer[i].epoch
    ensures Latest(longer, p, epoch) == Latest(rs, p, epoch)
    decreases |longer|
  {
    if |rs| < |longer| {
      LatestIsStable(rs, longer[..|longer| - 1], p, epoch);
    } else {
      assert rs == longer;
    }
  }

  /** At any later time, looking a policy up by an epoch that was current at `b` gives the policy as it
      stood at `b`: created policies, edited policies, and policies that did not exist yet. */
  lemma LookupIsTimeTravel(site: Site, b: Board, later: seq<Step>, p: string)
    requires EpochsOk(b)
    ensures Latest(Run(site, b, later).revisions, p, b.epoch) == Get(b.policies, p)
  {
    RunGrows(site, b, later);
    LatestIsStable(b.revisions, Run(site, b, later).revisions, p, b.epoch);
  }

  // ----- what an import read -----

  lemma StepKeepsReading(site: Site, b: Board, s: Step, run: string)
    requires run in b.seen && s != ReadEpoch(run)
    ensures run in Apply(site, b, s).seen && Apply(site, b, s).seen[run] == b.seen[run]
  {}

  lemma {:induction false} ReadingIsKept(site: Site, b: Board, steps: seq<Step>, run: string)
    requires run in b.seen && ReadEpoch(run) !in steps
    ensures run in Run(site, b, steps).seen && Run(site, b, steps).seen[run] == b.seen[run]
  {
    if steps != [] {
      ReadingIsKept(site, b, steps[..|steps| - 1], run);
      StepKeepsReading(site, Run(site, b, steps[..|steps| - 1]), steps[|steps| - 1], run);
    }
  }

  /** The fields an event is created with; the claim fields are not among them. */
  predicate SameSnapshot(e: Event, f: Event) {
    e.epoch == f.epoch && e.severity == f.severity && e.kind == f.kind && e.title == f.title && e.asset == f.asset
  }

  lemma StepKeepsSnapshot(site: Site, b: Board, s: Step, change: Change)
    requires change in b.events
    ensures change in Apply(site, b, s).events && SameSnapshot(b.events[change], Apply(site, b, s).events[change])
  {
    match s
    case Evaluate(c, worker, fence, order, sender) => EvaluateKeepsSnapshot(site, b, c, worker, fence, order, sender,
                                                                            change);
    case _ =>
  }

  lemma EvaluateKeepsSnapshot(site: Site, b: Board, c: Change, worker: string, fence: nat, order: seq<string>,
      sender: Sender, change: Change)
    requires change in b.events
    ensures var q := EvaluateStep(site, b, c, worker, fence, order, sender);
            change in q.events && SameSnapshot(b.events[change], q.events[change])
  {}

  lemma {:induction false} SnapshotIsKept(site: Site, b: Board, steps: seq<Step>, change: Change)
    requires change in b.events
    ensures change in Run(site, b, steps).events && SameSnapshot(b.events[change], Run(site, b, steps).events[change])
  {
    if steps != [] {
      SnapshotIsKept(site, b, steps[..|steps| - 1], change);
      StepKeepsSnapshot(site, Run(site, b, steps[..|steps| - 1]), steps[|steps| - 1], change);
    }
  }

  /** The whole path: an import reads the epoch, other transactions interleave, the import records the
      change, more transactions interleave. Every policy the evaluation then looks up is the one that was
      live when the import read the epoch. */
  lemma EvaluationSeesThePoliciesOfTheImport(
    site: Site, start: int, before: seq<Step>, run: string, between: seq<Step>,
    change: Change, title: string, severity: Severity, asset: string, kind: Kind, after: seq<Step>, p: string)
    requires ReadEpoch(run) !in between
    requires var read := Run(site, Empty(start), before);
             var ready := Run(site, Apply(site, read, ReadEpoch(run)), between);
             change !in ready.events && change in RecordStep(ready, run, change, title, severity, asset, kind).events
    ensures var read := Run(site, Empty(start), before);
            var ready := Run(site, Apply(site, read, ReadEpoch(run)), between);
            var end := Run(site, RecordStep(ready, run, change, title, severity, asset, kind), after);
            change in end.events && Latest(end.revisions, p, end.events[change].epoch) == Get(read.policies, p)
  {
    var read := Run(site, Empty(start), before);
    var first := Apply(site, read, ReadEpoch(run));
    var ready := Run(site, first, between);
    var recorded := RecordStep(ready, run, change, title, severity, asset, kind);
    var end := Run(site, recorded, after);
    RunKeepsEpochs(site, Empty(start), before);
    ReadingIsKept(site, first, between, run);
    SnapshotIsKept(site, recorded, after, change);
    RunGrows(site, first, between);
    RunGrows(site, recorded, after);
    LatestIsStable(read.revisions, ready.revisions, p, read.epoch);
    LatestIsStable(ready.revisions, end.revisions, p, read.epoch);
  }

  // ----- one outcome per matching policy -----

  /** Policy `p` asked to be told about this change, by the revision that was live at the event's epoch. */
  predicate Wanted(rs: seq<Revision>, e: Event, p: string) {
    Latest(rs, p, e.epoch).Some? && Matches(Latest(rs, p, e.epoch).value, e)
  }

  predicate For(o: PolicyOutcome, p: string, change: Change) {
    o.policy == p && o.change == change
  }

  predicate Answered(outcomes: seq<PolicyOutcome>, p: string, change: Change) {
    exists i :: 0 <= i < |outcomes| && For(outcomes[i], p, change)
  }

  predicate OutcomeOk(b: Board, o: PolicyOutcome) {
    o.change in b.events && b.events[o.change].state == Evaluated &&
    Wanted(b.revisions, b.events[o.change], o.policy) &&
    o.revision == Latest(b.revisions, o.policy, b.events[o.change].epoch).value.revision
  }

  /** No pair of a policy and a change has two outcomes. */
  predicate OutcomesUnique(outcomes: seq<PolicyOutcome>) {
    forall i, j :: 0 <= i < j < |outcomes| ==> !For(outcomes[j], outcomes[i].policy, outcomes[i].change)
  }

  ghost predicate OutcomesOk(b: Board) {
    (forall change <- b.events :: b.events[change].epoch <= b.epoch) &&
    (forall i :: 0 <= i < |b.outcomes| ==> OutcomeOk(b, b.outcomes[i])) &&
    OutcomesUnique(b.outcomes) &&
    (forall change, p ::
       change in b.events && b.events[change].state == Evaluated && Wanted(b.revisions, b.events[change], p) ==>
         Answered(b.outcomes, p, change))
  }

  predicate IsFor(rs: seq<Revision>, change: Change, e: Event, o: PolicyOutcome, order: seq<string>) {
    o.change == change && o.policy in order && Wanted(rs, e, o.policy) &&
    o.revision == Latest(rs, o.policy, e.epoch).value.revision
  }

  /** The loop appends exactly one outcome for each selected policy that matches, unless it rolls back. */
  ghost predicate Appends(rs: seq<Revision>, change: Change, e: Event, was: seq<PolicyOutcome>,
      rows: seq<PolicyOutcome>, order: seq<string>) {
    was <= rows &&
    (forall i :: |was| <= i < |rows| ==> IsFor(rs, change, e, rows[i], order)) &&
    (forall i, j :: |was| <= i < j < |rows| ==> rows[i].policy != rows[j].policy) &&
    (forall p :: p in order && Wanted(rs, e, p) ==> Answered(rows, p, change))
  }

  lemma OneAppends(rs: seq<Revision>, change: Change, e: Event, was: seq<PolicyOutcome>, mid: seq<PolicyOutcome>,
      order: seq<string>, p: string, verdict: Verdict)
    requires Appends(rs, change, e, was, mid, order) && p !in order && Wanted(rs, e, p)
    ensures Appends(rs, change, e, was,
                    mid + [PolicyOutcome(p, Latest(rs, p, e.epoch).value.revision, change, verdict)], order + [p])
  {
    var o := PolicyOutcome(p, Latest(rs, p, e.epoch).value.revision, change, verdict);
    var rows := mid + [o];
    forall i | |was| <= i < |rows| ensures IsFor(rs, change, e, rows[i], order + [p]) {
      if i < |mid| { assert IsFor(rs, change, e, mid[i], order); }
    }
    forall q | q in order + [p] && Wanted(rs, e, q) ensures Answered(rows, q, change) {
      if q == p {
        assert For(rows[|mid|], p, change);
      } else {
        var i :| 0 <= i < |mid| && For(mid[i], q, change);
        assert For(rows[i], q, change);
      }
    }
  }

  lemma NoneAppends(rs: seq<Revision>, change: Change, e: Event, was: seq<PolicyOutcome>, mid: seq<PolicyOutcome>,
      order: seq<string>, p: string)
    requires Appends(rs, change, e, was, mid, order) && !Wanted(rs, e, p)
    ensures Appends(rs, change, e, was, mid, order + [p])
  {
    forall i | |was| <= i < |mid| ensures IsFor(rs, change, e, mid[i], order + [p]) {
      assert IsFor(rs, change, e, mid[i], order);
    }
  }

  lemma OneEvaluationAppends(site: Site, b: Board, change: Change, e: Event, w: Work, was: seq<PolicyOutcome>,
      order: seq<string>, p: string, sender: Sender)
    requires Latest(b.revisions, p, e.epoch).Some? && p !in order && w.ok &&
             Appends(b.revisions, change, e, was, w.outcomes, order)
    requires var v := EvaluateOne(site, b, change, e, w, Latest(b.revisions, p, e.epoch).value, sender); v.ok
    ensures var v := EvaluateOne(site, b, change, e, w, Latest(b.revisions, p, e.epoch).value, sender);
            Appends(b.revisions, change, e, was, v.outcomes, order + [p])
  {
    var r := Latest(b.revisions, p, e.epoch).value;
    var v := EvaluateOne(site, b, change, e, w, r, sender);
    LatestIsARevision(b.revisions, p, e.epoch);
    if Matches(r, e) {
      assert |v.outcomes| == |w.outcomes| + 1;
      OneAppends(b.revisions, change, e, was, w.outcomes, order, p, v.outcomes[|w.outcomes|].verdict);
    } else {
      NoneAppends(b.revisions, change, e, was, w.outcomes, order, p);
    }
  }

  lemma PickPrefix(b: Board, e: Event, order: seq<string>)
    requires order != [] && forall i :: 0 <= i < |order| ==> Latest(b.revisions, order[i], e.epoch).Some?
    ensures Pick(b, e, order)[..|order| - 1] == Pick(b, e, order[..|order| - 1])
  {}

  lemma {:induction false} EvaluationAppends(site: Site, b: Board, change: Change, e: Event, w: Work,
      order: seq<string>, sender: Sender)
    requires forall i :: 0 <= i < |order| ==> Latest(b.revisions, order[i], e.epoch).Some?
    requires forall i, j :: 0 <= i < j < |order| ==> order[i] != order[j]
    requires EvaluateAll(site, b, change, e, w, Pick(b, e, order), sender).ok
    ensures w.ok && Appends(b.revisions, change, e, w.outcomes,
                            EvaluateAll(site, b, change, e, w, Pick(b, e, order), sender).outcomes, order)
  {
    if order != [] {
      var front, p := order[..|order| - 1], order[|order| - 1];
      PickPrefix(b, e, order);
      EvaluationAppends(site, b, change, e, w, front, sender);
      assert order == front + [p];
      OneEvaluationAppends(site, b, change, e, EvaluateAll(site, b, change, e, w, Pick(b, e, front), sender),
                           w.outcomes, front, p, sender);
    }
  }

  lemma CommitKeepsOutcomes(b: Board, change: Change, w: Work, order: seq<string>)
    requires OutcomesOk(b) && change in b.events && b.events[change].state != Evaluated &&
             Selects(b, b.events[change], order)
    requires Appends(b.revisions, change, b.events[change], b.outcomes, w.outcomes, order)
    ensures OutcomesOk(Commit(b, change, w))
  {
    var q := Commit(b, change, w);
    forall i | 0 <= i < |q.outcomes| ensures OutcomeOk(q, q.outcomes[i]) {
      if i < |b.outcomes| {
        assert q.outcomes[i] == b.outcomes[i] && OutcomeOk(b, b.outcomes[i]);
      } else {
        assert IsFor(b.revisions, change, b.events[change], w.outcomes[i], order);
      }
    }
    forall i, j | 0 <= i < j < |q.outcomes| ensures !For(q.outcomes[j], q.outcomes[i].policy, q.outcomes[i].change) {
      if i < |b.outcomes| {
        assert q.outcomes[i] == b.outcomes[i] && OutcomeOk(b, b.outcomes[i]);
        if j < |b.outcomes| {
          assert q.outcomes[j] == b.outcomes[j];
        } else {
          assert IsFor(b.revisions, change, b.events[change], w.outcomes[j], order);
        }
      }
    }
    forall c, p | c in q.events && q.events[c].state == Evaluated && Wanted(q.revisions, q.events[c], p)
      ensures Answered(q.outcomes, p, c)
    {
      if c == change {
        assert Wanted(b.revisions, b.events[change], p);
      } else {
        assert Answered(b.outcomes, p, c);
        var i :| 0 <= i < |b.outcomes| && For(b.outcomes[i], p, c);
        assert For(q.outcomes[i], p, c);
      }
    }
  }

  lemma EvaluateKeepsOutcomes(site: Site, b: Board, change: Change, worker: string, fence: nat, order: seq<string>,
      sender: Sender)
    requires OutcomesOk(b)
    ensures OutcomesOk(EvaluateStep(site, b, change, worker, fence, order, sender))
  {
    if change in b.events && HeldEvent(b.events[change], worker, fence, b.now) && Selects(b, b.events[change], order) {
      var w := EvaluateAll(site, b, change, b.events[change], Ledger(b), Pick(b, b.events[change], order), sender);
      if w.ok {
        EvaluationAppends(site, b, change, b.events[change], Ledger(b), order, sender);
        CommitKeepsOutcomes(b, change, w, order);
      }
    }
  }

  lemma WantedIsStable(b: Board, c: Board, e: Event, p: string)
    requires Grows(b, c) && e.epoch <= b.epoch
    ensures Latest(c.revisions, p, e.epoch) == Latest(b.revisions, p, e.epoch)
    ensures Wanted(c.revisions, e, p) == Wanted(b.revisions, e, p)
  {
    LatestIsStable(b.revisions, c.revisions, p, e.epoch);
  }

  /** A policy edit, an epoch bump or a new connection changes no outcome and no answer owed. */
  lemma EditKeepsOutcomes(b: Board, c: Board)
    requires OutcomesOk(b) && Grows(b, c) && c.outcomes == b.outcomes && c.events == b.events
    ensures OutcomesOk(c)
  {
    forall i | 0 <= i < |c.outcomes| ensures OutcomeOk(c, c.outcomes[i]) {
      assert OutcomeOk(b, b.outcomes[i]);
      WantedIsStable(b, c, b.events[b.outcomes[i].change], b.outcomes[i].policy);
    }
    forall change, p | change in c.events && c.events[change].state == Evaluated &&
      Wanted(c.revisions, c.events[change], p)
      ensures Answered(c.outcomes, p, change)
    {
      WantedIsStable(b, c, b.events[change], p);
    }
  }

  /** Recording or claiming an event touches one event that is not evaluated, before and after. */
  lemma EventKeepsOutcomes(b: Board, change: Change, e: Event)
    requires OutcomesOk(b) && e.state != Evaluated && e.epoch <= b.epoch
    requires change in b.events ==> b.events[change].state != Evaluated
    ensures OutcomesOk(b.(events := b.events[change := e]))
  {
    var c := b.(events := b.events[change := e]);
    forall i | 0 <= i < |c.outcomes| ensures OutcomeOk(c, c.outcomes[i]) {
      assert OutcomeOk(b, b.outcomes[i]);
    }
  }

  lemma StepKeepsOutcomes(site: Site, b: Board, s: Step)
    requires EpochsOk(b) && OutcomesOk(b)
    ensures OutcomesOk(Apply(site, b, s))
  {
    StepGrows(site, b, s);
    match s
    case RecordChange(run, change, title, severity, asset, kind) =>
      if RecordStep(b, run, change, title, severity, asset, kind) != b {
        EventKeepsOutcomes(b, change, Event(b.seen[run], title, severity, asset, kind, Pending, None, 0, None));
      }
    case ClaimEvent(change, worker, lease) =>
      if change in b.events && Claimable(b.events[change], b.now) {
        EventKeepsOutcomes(b, change, ClaimStep(b, change, worker, lease).events[change]);
      }
    case Evaluate(change, worker, fence, order, sender) => EvaluateKeepsOutcomes(site, b, change, worker, fence, order,
        sender);
    case _ => EditKeepsOutcomes(b, Apply(site, b, s));
  }

  lemma {:induction false} RunKeepsOutcomes(site: Site, b: Board, steps: seq<Step>)
    requires EpochsOk(b) && OutcomesOk(b)
    ensures OutcomesOk(Run(site, b, steps))
  {
    if steps != [] {
      RunKeepsOutcomes(site, b, steps[..|steps| - 1]);
      RunKeepsEpochs(site, b, steps[..|steps| - 1]);
      StepKeepsOutcomes(site, Run(site, b, steps[..|steps| - 1]), steps[|steps| - 1]);
    }
  }

  /** Over every run, with any lease losses and reclaims: a policy has an outcome for a change exactly when
      the change has been evaluated and the policy's revision at the event's epoch matches it, there is
      never a second one, and it names that revision. */
  lemma OneOutcomePerMatchingPolicy(site: Site, start: int, steps: seq<Step>, p: string, change: Change)
    ensures var b := Run(site, Empty(start), steps);
            Answered(b.outcomes, p, change) <==>
            change in b.events && b.events[change].state == Evaluated && Wanted(b.revisions, b.events[change], p)
    ensures var b := Run(site, Empty(start), steps);
            forall i, j ::
              0 <= i < |b.outcomes| && 0 <= j < |b.outcomes| &&
              For(b.outcomes[i], p, change) && For(b.outcomes[j], p, change) ==>
                i == j
    ensures var b := Run(site, Empty(start), steps);
            forall i :: 0 <= i < |b.outcomes| && For(b.outcomes[i], p, change) ==>
                        b.outcomes[i].revision == Latest(b.revisions, p, b.events[change].epoch).value.revision
  {
    var b := Run(site, Empty(start), steps);
    RunKeepsOutcomes(site, Empty(start), steps);
    if Answered(b.outcomes, p, change) {
      var i :| 0 <= i < |b.outcomes| && For(b.outcomes[i], p, change);
      assert OutcomeOk(b, b.outcomes[i]);
    }
  }
}
