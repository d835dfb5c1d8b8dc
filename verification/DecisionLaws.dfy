/** The two tables together behave like one plain record per finding. */
module DecisionLaws {
  import opened Options
  import opened Decisions

  /** No approval lies ahead of its finding, and every disposition has the approval that grants it. */
  predicate RowOk(l: Ledger, id: string)
    requires id in l.findings
  {
    var f := l.findings[id];
    f.workflow != UnknownWorkflow &&
    (f.disposition != NoDisposition ==>
      var a := Current(l, id);
      a.Some? && ShapeOk(ReadWith(f, a)) && a.value.expiresAt == Expiry(ReadWith(f, a)) &&
      ValidText(a.value.rationale, 8192)) &&
    (f.disposition == NoDisposition ==> f.acceptedUntil.None?)
  }

  predicate ApprovalsOk(l: Ledger) {
    forall k <- l.approvals ::
      k.0 in l.findings && k.1 <= l.findings[k.0].revision && l.approvals[k].disposition != NoDisposition
  }

  predicate LedgerOk(l: Ledger) {
    ApprovalsOk(l) && forall id <- l.findings :: RowOk(l, id)
  }

  lemma {:induction false} LatestIgnores(a: map<(string, nat), Approval>, b: map<(string, nat), Approval>, id: string,
      d: Disposition, revision: nat)
    requires forall n: nat :: n <= revision ==> Get(a, (id, n)) == Get(b, (id, n))
    ensures LatestApproval(a, id, d, revision) == LatestApproval(b, id, d, revision)
  {
    assert Get(a, (id, revision)) == Get(b, (id, revision));
    if revision > 0 { LatestIgnores(a, b, id, d, revision - 1); }
  }

  lemma {:induction false} LatestMatches(a: map<(string, nat), Approval>, id: string, d: Disposition, revision: nat)
    ensures LatestApproval(a, id, d, revision).Some? ==>
            exists n: nat :: n <= revision && (id, n) in a && a[(id, n)] == LatestApproval(a, id, d, revision).value &&
                             a[(id, n)].disposition == d
  {
    if (id, revision) in a && a[(id, revision)].disposition == d {
    } else if revision > 0 {
      LatestMatches(a, id, d, revision - 1);
    }
  }

  lemma NoApprovalOfNothing(l: Ledger, id: string)
    requires ApprovalsOk(l) && id in l.findings && l.findings[id].disposition == NoDisposition
    ensures Current(l, id).None?
  {
    LatestMatches(l.approvals, id, NoDisposition, l.findings[id].revision);
  }

  /** What is read back from a good ledger always makes sense. */
  lemma ReadIsOk(l: Ledger, id: string)
    requires LedgerOk(l) && id in l.findings
    ensures ShapeOk(Read(l, id))
  {
    if l.findings[id].disposition == NoDisposition { NoApprovalOfNothing(l, id); }
  }

  /** The decision as it will be read: with the reason that was stored. */
  function Recorded(d: Decision, fallback: string): Decision {
    if d.disposition == NoDisposition then d else d.(rationale := Reason(d, fallback))
  }

  lemma OthersUnread(l: Ledger, m: Ledger, id: string, other: string)
    requires other in l.findings && other != id && other in m.findings && m.findings[other] == l.findings[other]
    requires forall n: nat :: Get(m.approvals, (other, n)) == Get(l.approvals, (other, n))
    ensures Current(m, other) == Current(l, other) && Read(m, other) == Read(l, other) &&
            (RowOk(l, other) ==> RowOk(m, other))
  {
    LatestIgnores(l.approvals, m.approvals, other, l.findings[other].disposition, l.findings[other].revision);
  }

  /** Writing an approved disposition: the new approval is the latest one. */
  lemma ApprovedReadsBack(l: Ledger, id: string, d: Decision, fallback: string)
    requires LedgerOk(l) && id in l.findings && d.disposition != NoDisposition &&
             CanApprove(l.findings[id], id, d, fallback, l.now)
    requires d.workflow != UnknownWorkflow
    ensures var m := Write(l, id, d, true, fallback); Read(m, id) == Recorded(d, fallback) && RowOk(m, id)
  {}

  /** Writing no disposition: no approval can be picked up by mistake. */
  lemma NothingReadsBack(l: Ledger, id: string, d: Decision, fallback: string)
    requires LedgerOk(l) && id in l.findings && d.disposition == NoDisposition && Sensible(d)
    ensures var m := Write(l, id, d, false, fallback); ApprovalsOk(m) && Read(m, id) == d && RowOk(m, id)
  {
    var m := Write(l, id, d, false, fallback);
    NoApprovalOfNothing(m, id);
  }

  /** Writing an untouched disposition: the approval that granted it is still the latest. */
  lemma UntouchedReadsBack(l: Ledger, id: string, d: Decision, fallback: string)
    requires LedgerOk(l) && id in l.findings && l.findings[id].disposition != NoDisposition
    requires d == Read(l, id).(owner := d.owner, workflow := d.workflow) && d.workflow != UnknownWorkflow
    ensures var m := Write(l, id, d, false, fallback); Read(m, id) == d && RowOk(m, id)
  {
    var m := Write(l, id, d, false, fallback);
    assert (id, m.findings[id].revision) !in m.approvals;
    assert Current(m, id) == Current(l, id);
  }

  lemma WriteKeepsApprovals(l: Ledger, id: string, d: Decision, approve: bool, fallback: string)
    requires ApprovalsOk(l) && id in l.findings && (approve ==> d.disposition != NoDisposition)
    ensures ApprovalsOk(Write(l, id, d, approve, fallback))
  {}

  /** One write changes what is read of one finding. */
  lemma WriteKeepsOthers(l: Ledger, id: string, d: Decision, approve: bool, fallback: string)
    requires LedgerOk(l) && id in l.findings
    ensures var m := Write(l, id, d, approve, fallback);
            forall other <- l.findings ::
              other in m.findings && (other != id ==> Read(m, other) == Read(l, other) && RowOk(m, other))
  {
    var m := Write(l, id, d, approve, fallback);
    forall other <- l.findings | other != id
      ensures Read(m, other) == Read(l, other) && RowOk(m, other)
    {
      OthersUnread(l, m, id, other);
    }
  }

  /** The effect of one operation on what every reader sees: one finding now reads as `d`, the rest as before. */
  predicate Sets(l: Ledger, m: Ledger, id: string, d: Decision) {
    m.findings.Keys == l.findings.Keys && id in m.findings && Read(m, id) == d &&
    forall other <- l.findings :: other != id ==> Read(m, other) == Read(l, other)
  }

  lemma TouchedRationale(b: Decision, p: Patch, ownerOk: bool, now: int)
    requires Patched(b, p, ownerOk, now).Some? && Touches(p) &&
             Patched(b, p, ownerOk, now).value.disposition != NoDisposition
    ensures Recorded(Patched(b, p, ownerOk, now).value, p.rationale) == Patched(b, p, ownerOk, now).value
  {}

  /** A patch that succeeds is read back exactly, and nothing else changes for any reader. */
  lemma PatchReadsBack(l: Ledger, id: string, p: Patch, ownerOk: bool)
    requires LedgerOk(l) && PatchFinding(l, id, p, ownerOk).Some?
    ensures var m := PatchFinding(l, id, p, ownerOk).value;
            LedgerOk(m) && Patched(Read(l, id), p, ownerOk, l.now).Some? &&
            Sets(l, m, id, Patched(Read(l, id), p, ownerOk, l.now).value)
  {
    var d := Patched(Read(l, id), p, ownerOk, l.now).value;
    var approve := Touches(p) && d.disposition != NoDisposition;
    WriteKeepsApprovals(l, id, d, approve, p.rationale);
    WriteKeepsOthers(l, id, d, approve, p.rationale);
    if approve {
      TouchedRationale(Read(l, id), p, ownerOk, l.now);
      ApprovedReadsBack(l, id, d, p.rationale);
    } else if d.disposition == NoDisposition {
      NothingReadsBack(l, id, d, p.rationale);
    } else {
      UntouchedReadsBack(l, id, d, p.rationale);
    }
  }

  /** A decision chosen in a merge or split is read back with the reason that was stored for it. */
  lemma DecideReadsBack(l: Ledger, id: string, d: Decision, ownerOk: bool, fallback: string)
    requires LedgerOk(l) && Decide(l, id, d, ownerOk, fallback).Some? && Sensible(d)
    ensures var m := Decide(l, id, d, ownerOk, fallback).value; LedgerOk(m) && Sets(l, m, id, Recorded(d, fallback))
  {
    var approve := d.disposition != NoDisposition;
    WriteKeepsApprovals(l, id, d, approve, fallback);
    WriteKeepsOthers(l, id, d, approve, fallback);
    if approve { ApprovedReadsBack(l, id, d, fallback); } else { NothingReadsBack(l, id, d, fallback); }
  }

  lemma NoteIsUnread(l: Ledger, id: string)
    requires LedgerOk(l) && id in l.findings
    ensures var m := Note(l, id).value; LedgerOk(m) && Sets(l, m, id, Read(l, id))
  {
    var m := Note(l, id).value;
    assert (id, m.findings[id].revision) !in l.approvals;
    assert Current(m, id) == Current(l, id);
    forall other <- l.findings | other != id ensures Read(m, other) == Read(l, other) && RowOk(m, other) {
      OthersUnread(l, m, id, other);
    }
  }

  lemma ImportIsUnread(l: Ledger, id: string, asset: string, source: string, scanScope: string, owner: Option<string>)
    requires LedgerOk(l)
    ensures var m := Import(l, id, asset, source, scanScope, owner);
            LedgerOk(m) && id in m.findings &&
            forall other <- l.findings :: other in m.findings && Read(m, other) == Read(l, other)
    ensures id !in l.findings ==>
              Read(Import(l, id, asset, source, scanScope, owner), id) ==
              Decision(owner, Open, NoDisposition, None, NoScope, None, "")
  {
    var m := Import(l, id, asset, source, scanScope, owner);
    if id !in l.findings {
      assert ApprovalsOk(m);
      NoApprovalOfNothing(m, id);
      forall other <- l.findings ensures Read(m, other) == Read(l, other) && RowOk(m, other) {
        OthersUnread(l, m, id, other);
      }
    }
  }

  // ----- the plain record -----

  /** The simple system: one decision per finding. */
  type Book = map<string, Decision>

  function View(l: Ledger): Book {
    map id | id in l.findings :: Read(l, id)
  }

  datatype Step =
    | Tick(us: nat)
    | ImportFinding(id: string, asset: string, source: string, scanScope: string, owner: Option<string>)
    | PatchOne(id: string, patch: Patch, ownerOk: bool)
    | PatchMany(ids: seq<string>, patches: map<string, Patch>, ownerOk: bool)
    | DecideOne(id: string, decision: Decision, ownerOk: bool, fallback: string)
    | AddNote(id: string)

  function Kept(l: Ledger, next: Option<Ledger>): Ledger {
    if next.Some? then next.value else l
  }

  function Apply(l: Ledger, s: Step): Ledger {
    match s
    case Tick(us) => l.(now := l.now + us)
    case ImportFinding(id, asset, source, scanScope, owner) => Import(l, id, asset, source, scanScope, owner)
    case PatchOne(id, patch, ownerOk) => Kept(l, PatchFinding(l, id, patch, ownerOk))
    case PatchMany(ids, patches, ownerOk) => Kept(l, PatchFindings(l, ids, patches, ownerOk))
    case DecideOne(id, decision, ownerOk, fallback) =>
      if Sensible(decision) then Kept(l, Decide(l, id, decision, ownerOk, fallback)) else l
    case AddNote(id) => Kept(l, Note(l, id))
  }

  /** The simple system's side of each step: it sees the outcome of the step, but no tables. */
  function PlainMany(now: int, book: Book, ids: seq<string>, patches: map<string, Patch>, ownerOk: bool): Book {
    if ids == [] then book
    else
      var front := PlainMany(now, book, ids[..|ids| - 1], patches, ownerOk);
      var id := ids[|ids| - 1];
      if id !in front || id !in patches then front
      else
        var d := Patched(front[id], patches[id], ownerOk, now);
        if d.None? then front else front[id := d.value]
  }

  function Plain(now: int, book: Book, s: Step, ok: bool): Book {
    match s
    case Tick(_) => book
    case ImportFinding(id, _, _, _, owner) =>
      if id in book then book else book[id := Decision(owner, Open, NoDisposition, None, NoScope, None, "")]
    case PatchOne(id, patch, ownerOk) =>
      if !ok || id !in book then book
      else
        var d := Patched(book[id], patch, ownerOk, now);
        if d.None? then book else book[id := d.value]
    case PatchMany(ids, patches, ownerOk) => if ok then PlainMany(now, book, ids, patches, ownerOk) else book
    case DecideOne(id, decision, _, fallback) =>
      if !ok || id !in book then book else book[id := Recorded(decision, fallback)]
    case AddNote(_) => book
  }

  /** Whether the stored step went through. */
  predicate Succeeds(l: Ledger, s: Step) {
    match s
    case PatchOne(id, patch, ownerOk) => PatchFinding(l, id, patch, ownerOk).Some?
    case PatchMany(ids, patches, ownerOk) => PatchFindings(l, ids, patches, ownerOk).Some?
    case DecideOne(id, decision, ownerOk, fallback) =>
      Sensible(decision) && Decide(l, id, decision, ownerOk, fallback).Some?
    case _ => true
  }

  lemma ViewOfSets(l: Ledger, m: Ledger, id: string, d: Decision)
    requires Sets(l, m, id, d)
    ensures View(m) == View(l)[id := d]
  {}

  lemma {:induction false} ManyReadBack(l: Ledger, ids: seq<string>, patches: map<string, Patch>, ownerOk: bool)
    requires LedgerOk(l) && PatchFindings(l, ids, patches, ownerOk).Some?
    ensures var m := PatchFindings(l, ids, patches, ownerOk).value;
            LedgerOk(m) && m.now == l.now && View(m) == PlainMany(l.now, View(l), ids, patches, ownerOk)
  {
    if ids != [] {
      var front, id := ids[..|ids| - 1], ids[|ids| - 1];
      ManyReadBack(l, front, patches, ownerOk);
      var k := PatchFindings(l, front, patches, ownerOk).value;
      PatchReadsBack(k, id, patches[id], ownerOk);
      ViewOfSets(k, PatchFinding(k, id, patches[id], ownerOk).value, id,
                 Patched(Read(k, id), patches[id], ownerOk, k.now).value);
    }
  }

  lemma TickIsUnread(l: Ledger, us: nat)
    requires LedgerOk(l)
    ensures LedgerOk(l.(now := l.now + us)) && View(l.(now := l.now + us)) == View(l)
  {
    var m := l.(now := l.now + us);
    assert forall id <- l.findings :: Read(m, id) == Read(l, id);
    assert forall id <- l.findings :: RowOk(l, id) ==> RowOk(m, id);
  }

  lemma ImportRefines(l: Ledger, id: string, asset: string, source: string, scanScope: string, owner: Option<string>)
    requires LedgerOk(l)
    ensures var m := Import(l, id, asset, source, scanScope, owner);
            LedgerOk(m) &&
            View(m) == if id in l.findings then View(l)
                       else View(l)[id := Decision(owner, Open, NoDisposition, None, NoScope, None, "")]
  {
    ImportIsUnread(l, id, asset, source, scanScope, owner);
  }

  lemma PatchRefines(l: Ledger, id: string, p: Patch, ownerOk: bool)
    requires LedgerOk(l) && PatchFinding(l, id, p, ownerOk).Some?
    ensures var m := PatchFinding(l, id, p, ownerOk).value;
            LedgerOk(m) && Patched(Read(l, id), p, ownerOk, l.now).Some? &&
            View(m) == View(l)[id := Patched(Read(l, id), p, ownerOk, l.now).value]
  {
    PatchReadsBack(l, id, p, ownerOk);
    ViewOfSets(l, PatchFinding(l, id, p, ownerOk).value, id, Patched(Read(l, id), p, ownerOk, l.now).value);
  }

  lemma DecideRefines(l: Ledger, id: string, d: Decision, ownerOk: bool, fallback: string)
    requires LedgerOk(l) && Decide(l, id, d, ownerOk, fallback).Some? && Sensible(d)
    ensures var m := Decide(l, id, d, ownerOk, fallback).value;
            LedgerOk(m) && View(m) == View(l)[id := Recorded(d, fallback)]
  {
    DecideReadsBack(l, id, d, ownerOk, fallback);
    ViewOfSets(l, Decide(l, id, d, ownerOk, fallback).value, id, Recorded(d, fallback));
  }

  lemma NoteRefines(l: Ledger, id: string)
    requires LedgerOk(l)
    ensures LedgerOk(Kept(l, Note(l, id))) && View(Kept(l, Note(l, id))) == View(l)
  {
    if id in l.findings {
      NoteIsUnread(l, id);
      ViewOfSets(l, Note(l, id).value, id, Read(l, id));
    }
  }

  /** A step that does not go through changes nothing, on either side. */
  lemma FailedStep(l: Ledger, s: Step)
    requires !Succeeds(l, s)
    ensures Apply(l, s) == l && Plain(l.now, View(l), s, false) == View(l)
  {}

  /** Each step on the tables is the corresponding step on the plain record. */
  lemma StepRefines(l: Ledger, s: Step)
    requires LedgerOk(l)
    ensures LedgerOk(Apply(l, s)) && View(Apply(l, s)) == Plain(l.now, View(l), s, Succeeds(l, s))
  {
    if !Succeeds(l, s) {
      FailedStep(l, s);
    } else {
      match s
      case Tick(us) => TickIsUnread(l, us);
      case ImportFinding(id, asset, source, scanScope, owner) => ImportRefines(l, id, asset, source, scanScope, owner);
      case PatchOne(id, patch, ownerOk) => PatchRefines(l, id, patch, ownerOk);
      case PatchMany(ids, patches, ownerOk) => ManyReadBack(l, ids, patches, ownerOk);
      case DecideOne(id, decision, ownerOk, fallback) => DecideRefines(l, id, decision, ownerOk, fallback);
      case AddNote(id) => NoteRefines(l, id);
    }
  }

  function Run(l: Ledger, steps: seq<Step>): Ledger {
    if steps == [] then l else Apply(Run(l, steps[..|steps| - 1]), steps[|steps| - 1])
  }

  /** The plain record driven by the same requests, told which of them went through. */
  function PlainRun(l: Ledger, steps: seq<Step>): Book {
    if steps == [] then View(l)
    else
      var before := Run(l, steps[..|steps| - 1]);
      Plain(before.now, PlainRun(l, steps[..|steps| - 1]), steps[|steps| - 1], Succeeds(before, steps[|steps| - 1]))
  }

  /** Over any interleaving of patches, bulk patches, merges, splits, notes and imports, the lateral read
      returns exactly the decision last written. */
  lemma {:induction false} LedgerRefinesBook(l: Ledger, steps: seq<Step>)
    requires LedgerOk(l)
    ensures LedgerOk(Run(l, steps)) && View(Run(l, steps)) == PlainRun(l, steps)
  {
    if steps != [] {
      LedgerRefinesBook(l, steps[..|steps| - 1]);
      StepRefines(Run(l, steps[..|steps| - 1]), steps[|steps| - 1]);
    }
  }

  /** In every reachable state a disposition is backed by an approval of the same kind, scope and expiry. */
  lemma EveryDispositionIsApproved(start: int, steps: seq<Step>, id: string)
    requires id in Run(Ledger(start, map[], map[]), steps).findings
    requires Run(Ledger(start, map[], map[]), steps).findings[id].disposition != NoDisposition
    ensures var l := Run(Ledger(start, map[], map[]), steps);
            exists n: nat :: n <= l.findings[id].revision && (id, n) in l.approvals &&
                             l.approvals[(id, n)].disposition == l.findings[id].disposition &&
                             l.approvals[(id, n)].scope == Read(l, id).scope &&
                             l.approvals[(id, n)].expiresAt == Expiry(Read(l, id))
  {
    var l := Run(Ledger(start, map[], map[]), steps);
    LedgerRefinesBook(Ledger(start, map[], map[]), steps);
    assert RowOk(l, id);
    LatestMatches(l.approvals, id, l.findings[id].disposition, l.findings[id].revision);
  }

  /** What a patch that leaves the disposition alone must satisfy, whatever the disposition is. */
  predicate EditOk(l: Ledger, id: string, p: Patch, ownerOk: bool)
    requires id in l.findings
  {
    var f := l.findings[id];
    ownerOk && (p.expected.Some? ==> p.expected.value == f.revision) &&
    (p.workflow.Absent? || (p.workflow.Value? && p.workflow.value != UnknownWorkflow)) && ReasonOk(p.rationale) &&
    !(p.rejectNoChange && Assigned(p.owner, f.owner) == f.owner && Filled(p.workflow, f.workflow) == f.workflow)
  }

  /** A patch that leaves the disposition of a suppressed finding alone goes through if and only if it is in
      order and the suppression has not run out; once it has, nothing but the disposition can be changed. */
  lemma ExpiredSuppressionBlocksPatches(l: Ledger, id: string, p: Patch, ownerOk: bool)
    requires LedgerOk(l) && id in l.findings && l.findings[id].disposition == Suppressed && !Touches(p)
    ensures Read(l, id).suppressedUntil.Some?
    ensures PatchFinding(l, id, p, ownerOk).Some? <==>
              EditOk(l, id, p, ownerOk) && Read(l, id).suppressedUntil.value > l.now
  {
    assert RowOk(l, id);
    var b := Read(l, id);
    var after := b.(owner := Assigned(p.owner, b.owner), workflow := Filled(p.workflow, b.workflow));
    assert ShapeOk(b) && ShapeOk(after);
    assert after == b <==> Assigned(p.owner, b.owner) == b.owner && Filled(p.workflow, b.workflow) == b.workflow;
  }

  function Reassign(owner: string): Patch {
    Patch(Value(owner), Absent, Absent, Absent, Absent, Absent, "", None, false)
  }

  /** Even handing the finding to another member of the workspace fails from the moment the suppression runs
      out. */
  lemma ReassigningFailsAfterExpiry(l: Ledger, id: string, owner: string)
    requires LedgerOk(l) && id in l.findings && l.findings[id].disposition == Suppressed
    ensures Read(l, id).suppressedUntil.Some?
    ensures PatchFinding(l, id, Reassign(owner), true).None? <==> Read(l, id).suppressedUntil.value <= l.now
  {
    ExpiredSuppressionBlocksPatches(l, id, Reassign(owner), true);
  }
}
