/** The decision and correlation transactions as statements on the findings tables. */
module FindingService {
  import opened Options
  import opened Decisions
  import opened Correlations
  import opened CorrelationLaws
  import D = DecisionLaws

  /** The stepwise assignments of `applyFindingDecisionPatch` that concern the disposition. */
  method DisposeStepwise(before: Decision, p: Patch) returns (after: Decision, ok: bool)
    requires !p.disposition.Null? && !p.scope.Null?
    ensures !ok <==> p.disposition.Value? && p.disposition.value == Suppressed && before.disposition != Suppressed &&
                     p.scope.Absent?
    ensures ok && Touches(p) ==> after == Disposed(before, p)
    ensures ok && !Touches(p) ==> after == before
  {
    after, ok := before, true;
    var changed := false;
    if p.disposition.Value? {
      changed := after.disposition != p.disposition.value;
      after := after.(disposition := p.disposition.value);
    }
    if !p.acceptedUntil.Absent? { after := after.(acceptedUntil := Assigned(p.acceptedUntil, after.acceptedUntil)); }
    if p.scope.Value? { after := after.(scope := p.scope.value); }
    if !p.suppressedUntil.Absent? {
      after := after.(suppressedUntil := Assigned(p.suppressedUntil, after.suppressedUntil));
    }
    if changed {
      match after.disposition {
        case NoDisposition =>
          after := after.(acceptedUntil := None, suppressedUntil := None, scope := NoScope, rationale := "");
        case AcceptedRisk =>
          after := after.(suppressedUntil := None);
          if p.scope.Absent? { after := after.(scope := FindingScope); }
        case Suppressed =>
          after := after.(acceptedUntil := None);
          if p.scope.Absent? { return after, false; }
        case _ =>
          after := after.(acceptedUntil := None, suppressedUntil := None);
          if p.scope.Absent? { after := after.(scope := FindingScope); }
      }
    }
    if Touches(p) {
      if after.disposition == NoDisposition {
        after := after.(acceptedUntil := None, suppressedUntil := None, scope := NoScope, rationale := "");
      } else {
        after := after.(rationale := p.rationale);
      }
    }
  }

  /** `applyFindingDecisionPatch` up to the writes. */
  method PatchStepwise(before: Decision, p: Patch, ownerOk: bool, now: int) returns (result: Option<Decision>)
    ensures result == Patched(before, p, ownerOk, now)
  {
    if !ownerOk || p.workflow.Null? { return None; }
    var workflow := Filled(p.workflow, before.workflow);
    if workflow == UnknownWorkflow { return None; }
    if p.disposition.Null? || p.scope.Null? { return None; }
    var after, ok := DisposeStepwise(before, p);
    if !ok { return None; }
    after := after.(owner := Assigned(p.owner, before.owner), workflow := workflow);
    if Touches(p) {
      if !ValidText(p.rationale, 8192) { return None; }
    } else if p.rationale != "" && !ValidText(p.rationale, 8192) {
      return None;
    }
    if !ShapeOk(after) || !Live(after, now) { return None; }
    if p.rejectNoChange && after == before { return None; }
    result := Some(after);
  }

  const MaxBulk := 100

  predicate Distinct(ids: seq<string>) {
    forall i, j :: 0 <= i < j < |ids| ==> ids[i] != ids[j]
  }

  predicate AllVisible(r: Registry, ids: seq<string>, n: nat)
    requires n <= |ids|
  {
    forall i :: 0 <= i < n ==> Visible(r, ids[i])
  }

  /** Every finding is visible, and every patch goes through after the ones before it. */
  predicate BulkOk(r: Registry, ids: seq<string>, patches: map<string, Patch>, ownerOk: bool) {
    AllVisible(r, ids, |ids|) && PatchFindings(r.ledger, ids, patches, ownerOk).Some?
  }

  predicate BulkSoFar(r: Registry, ids: seq<string>, n: nat, patches: map<string, Patch>, ownerOk: bool, l: Ledger) {
    n <= |ids| && AllVisible(r, ids, n) && PatchFindings(r.ledger, ids[..n], patches, ownerOk) == Some(l)
  }

  lemma BulkFails(r: Registry, ids: seq<string>, n: nat, patches: map<string, Patch>, ownerOk: bool)
    requires n < |ids| && !(Visible(r, ids[n]) && PatchFindings(r.ledger, ids[..n + 1], patches, ownerOk).Some?)
    ensures !BulkOk(r, ids, patches, ownerOk)
  {
    if PatchFindings(r.ledger, ids[..n + 1], patches, ownerOk).None? {
      FailsFrom(r.ledger, ids, patches, ownerOk, n + 1);
    }
  }

  datatype Replay = Unseen | Same(group: string) | Differs

  class FindingDatabase {
    var now: int
    var findings: map<string, Finding>
    var approvals: map<(string, nat), Approval>
    var groups: map<string, Group>

    ghost function Tables(): Ledger
      reads this
    {
      Ledger(now, findings, approvals)
    }

    ghost function Model(): Registry
      reads this
    {
      Registry(Tables(), groups)
    }

    constructor (start: int)
      ensures Model() == Empty(start)
    {
      now, findings, approvals, groups := start, map[], map[], map[];
    }

    /** `applyFindingDecisionPatch`, on a finding that is not hidden behind another primary: the approval, then
        the row. */
    method PatchOne(id: string, p: Patch, ownerOk: bool) returns (ok: bool)
      modifies this`findings, this`approvals
      ensures Model() == Apply(old(Model()), Decision_(D.PatchOne(id, p, ownerOk)))
      ensures ok <==> Visible(old(Model()), id) && PatchFinding(old(Tables()), id, p, ownerOk).Some?
      ensures Tables() == if ok then PatchFinding(old(Tables()), id, p, ownerOk).value else old(Tables())
    {
      if id !in findings || !Visible(Registry(Ledger(now, findings, approvals), groups), id) { return false; }
      var f := findings[id];
      if p.expected.Some? && p.expected.value != f.revision { return false; }
      var before := Read(Ledger(now, findings, approvals), id);
      var after := PatchStepwise(before, p, ownerOk, now);
      if after.None? { return false; }
      var d := after.value;
      if Touches(p) && d.disposition != NoDisposition {
        if !CanApprove(f, id, d, p.rationale, now) { return false; }
        approvals := approvals[(id, f.revision + 1) := Approval(d.disposition, d.scope, Reason(d, p.rationale),
                                                                Expiry(d))];
      }
      findings := findings[id := f.(owner := d.owner, workflow := d.workflow, disposition := d.disposition,
                                    acceptedUntil := d.acceptedUntil, revision := f.revision + 1)];
      ok := true;
    }

    /** One turn of the loop of `bulkPatchFindings`. */
    method PatchNext(ids: seq<string>, n: nat, patches: map<string, Patch>, ownerOk: bool,
        ghost start: Registry) returns (ok: bool)
      requires n < |ids| && ids[n] in patches && BulkSoFar(start, ids, n, patches, ownerOk, Tables())
      requires groups == start.groups
      modifies this`findings, this`approvals
      ensures ok ==> BulkSoFar(start, ids, n + 1, patches, ownerOk, Tables())
      ensures !ok ==> !BulkOk(start, ids, patches, ownerOk)
    {
      OneMore(start.ledger, ids, patches, ownerOk, n, Tables());
      ok := PatchOne(ids[n], patches[ids[n]], ownerOk);
      if !ok { BulkFails(start, ids, n, patches, ownerOk); }
    }

    /** The loop of `bulkPatchFindings`; a failure leaves the earlier findings written. */
    method PatchEach(ids: seq<string>, patches: map<string, Patch>, ownerOk: bool) returns (ok: bool)
      requires forall id <- ids :: id in patches
      modifies this`findings, this`approvals
      ensures ok <==> BulkOk(old(Model()), ids, patches, ownerOk)
      ensures ok ==> PatchFindings(old(Tables()), ids, patches, ownerOk) == Some(Tables())
    {
      ghost var start := Model();
      var n := 0;
      while n < |ids|
        invariant 0 <= n <= |ids| && BulkSoFar(start, ids, n, patches, ownerOk, Tables())
      {
        ok := PatchNext(ids, n, patches, ownerOk, start);
        if !ok { return; }
        n := n + 1;
      }
      assert ids[..n] == ids;
      ok := true;
    }

    /** `bulkPatchFindings` of up to 100 different findings: the first failure rolls every earlier finding
        back, and so does a finding that the last query no longer shows. */
    method BulkPatchFindings(ids: seq<string>, patches: map<string, Patch>, ownerOk: bool) returns (ok: bool)
      requires forall id <- ids :: id in patches
      modifies this`findings, this`approvals
      ensures ok <==> 1 <= |ids| <= MaxBulk && Distinct(ids) && BulkOk(old(Model()), ids, patches, ownerOk)
      ensures Model() == if ok then Apply(old(Model()), Decision_(D.PatchMany(ids, patches, ownerOk))) else old(Model())
    {
      if |ids| == 0 || |ids| > MaxBulk || !Distinct(ids) { return false; }
      var savedFindings, savedApprovals := findings, approvals;
      ok := PatchEach(ids, patches, ownerOk);
      if ok {
        ghost var start := old(Model());
        PatchedExist(start.ledger, ids, patches, ownerOk);
        var here := Registry(Ledger(now, findings, approvals), groups);
        var shown := set id | id in ids && id in findings && Visible(here, id);
        assert shown == set id | id in ids;
        SizeOfDistinct(ids);
        ok := |shown| == |ids|;
      }
      if !ok { findings, approvals := savedFindings, savedApprovals; }
    }

    method AddNote(id: string) returns (ok: bool)
      modifies this`findings
      ensures ok <==> id in old(findings) && Visible(old(Model()), id)
      ensures Model() == Apply(old(Model()), Decision_(D.AddNote(id)))
    {
      ok := id in findings && Visible(Registry(Ledger(now, findings, approvals), groups), id);
      if ok { findings := findings[id := findings[id].(revision := findings[id].revision + 1)]; }
    }

    /** `correlationReplay`: a key that was used for this very request answers with its group, and a key that
        was used for anything else is a conflict. */
    method CorrelationReplay(q: Request) returns (answer: Replay)
      requires Inv(Model())
      ensures answer == Unseen <==> !KeyTaken(Model(), q.key)
      ensures forall id :: answer == Same(id) <==> Answered(Model(), id, q)
    {
      var r := Registry(Ledger(now, findings, approvals), groups);
      if !KeyTaken(r, q.key) {
        ghost var m := Model();
        forall id ensures !Answered(m, id, q) {
          if Answered(m, id, q) { AnswerIsKept(m, m, id, q); }
        }
        return Unseen;
      }
      var id :| id in groups && Holds(groups[id], q.key);
      var i :| 0 <= i < |groups[id].events| && groups[id].events[i].request.key == q.key;
      var stored := groups[id].events[i].request;
      assert Answered(Model(), id, stored);
      forall h | Answered(Model(), h, q) ensures h == id && q == stored { OneAnswerPerKey(Model(), id, stored, h, q); }
      answer := if stored == q then Same(id) else Differs;
    }

    /** `applyFindingDecision`. */
    method ApplyFindingDecision(id: string, d: Decision, ownerOk: bool, fallback: string) returns (ok: bool)
      modifies this`findings, this`approvals
      ensures ok <==> Decide(old(Tables()), id, d, ownerOk, fallback).Some?
      ensures Tables() == if ok then Decide(old(Tables()), id, d, ownerOk, fallback).value else old(Tables())
    {
      if id !in findings || !ownerOk { return false; }
      var f := findings[id];
      if d.disposition != NoDisposition {
        if !CanApprove(f, id, d, fallback, now) { return false; }
        approvals := approvals[(id, f.revision + 1) := Approval(d.disposition, d.scope, Reason(d, fallback),
                                                                Expiry(d))];
      }
      findings := findings[id := f.(owner := d.owner, workflow := d.workflow, disposition := d.disposition,
                                    acceptedUntil := d.acceptedUntil, revision := f.revision + 1)];
      ok := true;
    }

    /** `mergeFindings` of a primary that has no group yet; `id` is the new group's identifier. */
    method MergeFindings(q: Request, id: string, c: Checks) returns (ok: bool)
      requires id !in groups
      modifies this`findings, this`approvals, this`groups
      ensures Model() == Apply(old(Model()), MergeFirst(q, id, c))
      ensures ok <==> MergeNew(old(Model()), q, id, c).Some?
    {
      var r := Registry(Ledger(now, findings, approvals), groups);
      if !Mergeable(r, q, c) || !Ungrouped(r, q.primary) || q.revision != 0 { return false; }
      var first, second := Read(r.ledger, q.primary), Read(r.ledger, q.other);
      ok := ApplyFindingDecision(q.primary, q.decision, c.ownerOk, q.rationale);
      if !ok { return; }
      var members := [Member(q.primary, 0, true, first), Member(q.other, 1, true, second)];
      groups := groups[id := Group(q.primary, Grouped, 1, members, [Event(1, q)])];
    }

    /** `mergeFindings` into the primary's existing group: count the members, refuse a known one. */
    method ExtendGroup(q: Request, id: string, c: Checks) returns (ok: bool)
      modifies this`findings, this`approvals, this`groups
      ensures Model() == Apply(old(Model()), MergeMore(q, id, c))
      ensures ok <==> MergeInto(old(Model()), q, id, c).Some?
    {
      var r := Registry(Ledger(now, findings, approvals), groups);
      if id !in groups { return false; }
      var g := groups[id];
      if !Mergeable(r, q, c) || !ActiveIn(g, q.primary) || g.primary != q.primary ||
        g.revision != q.revision { return false; }
      var ordinal := 0;
      while ordinal < |g.members|
        invariant 0 <= ordinal <= |g.members|
        invariant forall i :: 0 <= i < ordinal ==>
                    g.members[i].finding != q.other && g.members[i].finding in findings &&
                                                   (g.members[i].active ==>
                                                      findings[g.members[i].finding].source != findings[q.other].source)
      {
        var m := g.members[ordinal];
        if m.finding == q.other || m.finding !in findings ||
          (m.active && findings[m.finding].source == findings[q.other].source) { return false; }
        ordinal := ordinal + 1;
      }
      if ordinal > 63 { return false; }
      var original := Read(r.ledger, q.other);
      ok := ApplyFindingDecision(q.primary, q.decision, c.ownerOk, q.rationale);
      if !ok { return; }
      groups := groups[id := g.(revision := g.revision + 1,
                                members := g.members + [Member(q.other, ordinal, true, original)],
                                events := g.events + [Event(g.revision + 1, q)])];
    }

    /** `splitFinding`: both decisions, the release, and the event, or none of them. */
    method SplitFinding(q: Request, id: string, c: Checks) returns (ok: bool)
      modifies this`findings, this`approvals, this`groups
      ensures Model() == Apply(old(Model()), SplitOff(q, id, c))
      ensures ok <==> SplitFrom(old(Model()), q, id, c).Some?
    {
      var r := Registry(Ledger(now, findings, approvals), groups);
      if !Splittable(r, q, id, c) { return false; }
      var savedFindings, savedApprovals := findings, approvals;
      ok := ApplyFindingDecision(q.primary, q.decision, c.ownerOk, q.rationale);
      if !ok { return; }
      ok := ApplyFindingDecision(q.other, q.otherDecision, c.otherOwnerOk, q.rationale);
      if !ok {
        findings, approvals := savedFindings, savedApprovals;
        return;
      }
      var g := groups[id];
      var terminal := |Actives(g.members)| == 2;
      groups := groups[id := g.(state := if terminal then Dissolved else Grouped, revision := g.revision + 1,
                                members := Released(g.members, terminal, q.other),
                                events := g.events + [Event(g.revision + 1, q)])];
    }
  }

  lemma OneMore(l: Ledger, ids: seq<string>, patches: map<string, Patch>, ownerOk: bool, n: nat, front: Ledger)
    requires n < |ids| && ids[n] in patches && PatchFindings(l, ids[..n], patches, ownerOk) == Some(front)
    ensures PatchFindings(l, ids[..n + 1], patches, ownerOk) == PatchFinding(front, ids[n], patches[ids[n]], ownerOk)
  {
    assert ids[..n + 1][..n] == ids[..n];
  }

  lemma {:induction false} FailsFrom(l: Ledger, ids: seq<string>, patches: map<string, Patch>, ownerOk: bool, n: nat)
    requires n <= |ids| && PatchFindings(l, ids[..n], patches, ownerOk).None?
    ensures PatchFindings(l, ids, patches, ownerOk).None?
    decreases |ids| - n
  {
    if n == |ids| {
      assert ids[..n] == ids;
    } else {
      assert ids[..n + 1][..n] == ids[..n];
      FailsFrom(l, ids, patches, ownerOk, n + 1);
    }
  }

  /** Every finding that was patched exists, before and after. */
  lemma {:induction false} PatchedExist(l: Ledger, ids: seq<string>, patches: map<string, Patch>, ownerOk: bool)
    requires PatchFindings(l, ids, patches, ownerOk).Some?
    ensures PatchFindings(l, ids, patches, ownerOk).value.findings.Keys == l.findings.Keys &&
            forall id <- ids :: id in l.findings
  {
    if ids != [] {
      PatchedExist(l, ids[..|ids| - 1], patches, ownerOk);
      assert ids == ids[..|ids| - 1] + [ids[|ids| - 1]];
    }
  }

  lemma {:induction false} SizeOfDistinct(ids: seq<string>)
    requires Distinct(ids)
    ensures |set id | id in ids| == |ids|
  {
    if ids != [] {
      var front, last := ids[..|ids| - 1], ids[|ids| - 1];
      SizeOfDistinct(front);
      assert last !in front;
      assert (set id | id in ids) == (set id | id in front) + {last};
    }
  }
}
