/** A finding's decision, stored in two tables: the findings row and the disposition approvals. */
module Decisions {
  import opened Options

  datatype Workflow = Open | InProgress | PendingRetest | Resolved | UnknownWorkflow
  datatype Disposition = NoDisposition | AcceptedRisk | Suppressed | FalsePositive | UnknownDisposition
  datatype Scope = NoScope | FindingScope | AssetScope | SourceScope | ScanScope | UnknownScope

  /** What a reader sees as one record. Times are microseconds. */
  datatype Decision = Decision(
    owner: Option<string>, workflow: Workflow, disposition: Disposition, acceptedUntil: Option<int>,
    scope: Scope, suppressedUntil: Option<int>, rationale: string)

  datatype Finding = Finding(
    asset: string, source: string, scanScope: string,
    owner: Option<string>, workflow: Workflow, disposition: Disposition, acceptedUntil: Option<int>, revision: nat)

  datatype Approval = Approval(disposition: Disposition, scope: Scope, rationale: string, expiresAt: Option<int>)

  /** The approvals table is keyed by finding and decision revision. */
  datatype Ledger = Ledger(now: int, findings: map<string, Finding>, approvals: map<(string, nat), Approval>)

  // ----- reading -----

  /** The lateral join: the latest approval of this disposition at or before a revision. */
  function LatestApproval(approvals: map<(string, nat), Approval>, id: string, disposition: Disposition,
      revision: nat): Option<Approval> {
    if (id, revision) in approvals && approvals[(id, revision)].disposition == disposition
    then Some(approvals[(id, revision)])
    else if revision == 0 then None
    else LatestApproval(approvals, id, disposition, revision - 1)
  }

  function ReadWith(f: Finding, approval: Option<Approval>): Decision {
    Decision(f.owner, f.workflow, f.disposition, f.acceptedUntil,
             if f.disposition == NoDisposition then NoScope else if approval.Some? then approval.value.scope
             else FindingScope,
             if f.disposition == Suppressed && approval.Some? then approval.value.expiresAt else None,
             if approval.Some? then approval.value.rationale else "")
  }

  function Current(l: Ledger, id: string): Option<Approval>
    requires id in l.findings
  {
    LatestApproval(l.approvals, id, l.findings[id].disposition, l.findings[id].revision)
  }

  function Read(l: Ledger, id: string): Decision
    requires id in l.findings
  {
    ReadWith(l.findings[id], Current(l, id))
  }

  // ----- validity -----

  predicate Space(c: char) { c == ' ' || c == '\t' || c == '\n' || c == '\r' }

  predicate ValidText(s: string, limit: nat) {
    (exists i :: 0 <= i < |s| && !Space(s[i])) && |s| <= limit && '\0' !in s
  }

  /** The zero value of Go's time. */
  const ZeroTime := -62135596800000000

  predicate NotZero(t: Option<int>) { t != Some(ZeroTime) }

  /** Which combinations of disposition, scope and expiries make sense. */
  predicate ShapeOk(d: Decision) {
    match d.disposition
    case NoDisposition => d.acceptedUntil.None? && d.suppressedUntil.None? && d.scope == NoScope && d.rationale == ""
    case AcceptedRisk => d.scope == FindingScope && d.suppressedUntil.None? && NotZero(d.acceptedUntil)
    case Suppressed => d.scope !in {NoScope, UnknownScope} && d.acceptedUntil.None? && d.suppressedUntil.Some? &&
      NotZero(d.suppressedUntil)
    case FalsePositive => d.scope == FindingScope && d.acceptedUntil.None? && d.suppressedUntil.None?
    case UnknownDisposition => false
  }

  /** What a decision chosen in a merge or a split has been checked for before it is written. */
  predicate Sensible(d: Decision) {
    d.workflow != UnknownWorkflow && (d.disposition == NoDisposition ==> ShapeOk(d))
  }

  /** A suppression that has run out cannot be written again, not even unchanged. */
  predicate Live(d: Decision, now: int) {
    d.disposition == Suppressed ==> d.suppressedUntil.Some? && d.suppressedUntil.value > now
  }

  /** The value that a scope names in the approval row. */
  function ScopeValue(f: Finding, id: string, scope: Scope): Option<string> {
    match scope
    case FindingScope => Some(id)
    case AssetScope => Some(f.asset)
    case SourceScope => Some(f.source)
    case ScanScope => if f.scanScope == " /  (revision )" then None else Some(f.scanScope)
    case _ => None
  }

  predicate ScopeValueOk(f: Finding, id: string, scope: Scope) {
    var v := ScopeValue(f, id, scope);
    v.Some? && '\0' !in v.value && |v.value| <= 4096
  }

  function Expiry(d: Decision): Option<int> {
    match d.disposition
    case AcceptedRisk => d.acceptedUntil
    case Suppressed => d.suppressedUntil
    case _ => None
  }

  /** `insertDispositionApproval`: the rationale given for the disposition, or the request's own. */
  function Reason(d: Decision, fallback: string): string {
    if d.rationale == "" then fallback else d.rationale
  }

  predicate CanApprove(f: Finding, id: string, d: Decision, fallback: string, now: int) {
    ValidText(Reason(d, fallback), 8192) && ShapeOk(d) && Live(d, now) && ScopeValueOk(f, id, d.scope)
  }

  // ----- patching -----

  datatype Patch = Patch(
    owner: Field<string>, workflow: Field<Workflow>, disposition: Field<Disposition>, acceptedUntil: Field<int>,
    scope: Field<Scope>, suppressedUntil: Field<int>, rationale: string, expected: Option<nat>, rejectNoChange: bool)

  predicate Touches(p: Patch) {
    !p.disposition.Absent? || !p.acceptedUntil.Absent? || !p.scope.Absent? || !p.suppressedUntil.Absent?
  }

  /** The disposition half of a patched decision. */
  function Disposed(b: Decision, p: Patch): Decision {
    var disposition := Filled(p.disposition, b.disposition);
    var changed := disposition != b.disposition;
    if disposition == NoDisposition
    then b.(disposition := NoDisposition, acceptedUntil := None, suppressedUntil := None, scope := NoScope,
            rationale := "")
    else b.(disposition := disposition,
            acceptedUntil := if changed && disposition != AcceptedRisk then None
              else Assigned(p.acceptedUntil, b.acceptedUntil),
            suppressedUntil := if changed && disposition != Suppressed then None
              else Assigned(p.suppressedUntil, b.suppressedUntil),
            scope := if changed && p.scope.Absent? && disposition != Suppressed then FindingScope
              else Filled(p.scope, b.scope),
            rationale := p.rationale)
  }

  /** `applyFindingDecisionPatch` on one decision: the decision it writes, or an error. `ownerOk` is the
      membership check of the new owner. */
  function Patched(b: Decision, p: Patch, ownerOk: bool, now: int): Option<Decision> {
    var after := (if Touches(p) then Disposed(b, p)
                  else b).(owner := Assigned(p.owner, b.owner), workflow := Filled(p.workflow, b.workflow));
    if !ownerOk || p.workflow.Null? || p.disposition.Null? || p.scope.Null? ||
       after.workflow == UnknownWorkflow then None
    else if !p.disposition.Absent? && p.disposition.value == Suppressed && b.disposition != Suppressed &&
      p.scope.Absent? then None
    else if !(if Touches(p) then ValidText(p.rationale, 8192) else ReasonOk(p.rationale)) then None
    else if !ShapeOk(after) || !Live(after, now) then None
    else if p.rejectNoChange && after == b then None
    else Some(after)
  }

  /** One stored decision: the approval when there is a disposition to approve, and the row with it. */
  function Write(l: Ledger, id: string, d: Decision, approve: bool, fallback: string): Ledger
    requires id in l.findings
  {
    var f := l.findings[id];
    var revision := f.revision + 1;
    l.(findings := l.findings[id := f.(owner := d.owner, workflow := d.workflow, disposition := d.disposition,
                                       acceptedUntil := d.acceptedUntil, revision := revision)],
       approvals := if approve
         then l.approvals[(id, revision) := Approval(d.disposition, d.scope, Reason(d, fallback), Expiry(d))]
                    else l.approvals)
  }

  /** The transaction of one patch; `None` when it fails and everything stays as it was. */
  function PatchFinding(l: Ledger, id: string, p: Patch, ownerOk: bool): Option<Ledger> {
    if id !in l.findings || (p.expected.Some? && p.expected.value != l.findings[id].revision) then None
    else
      var after := Patched(Read(l, id), p, ownerOk, l.now);
      if after.None? then None
      else if Touches(p) && after.value.disposition != NoDisposition then
        if CanApprove(l.findings[id], id, after.value, p.rationale, l.now)
        then Some(Write(l, id, after.value, true, p.rationale)) else None
      else Some(Write(l, id, after.value, false, p.rationale))
  }

  /** `bulkPatchFindings`: every finding or none. */
  function PatchFindings(l: Ledger, ids: seq<string>, patches: map<string, Patch>, ownerOk: bool): Option<Ledger> {
    if ids == [] then Some(l)
    else
      var front := PatchFindings(l, ids[..|ids| - 1], patches, ownerOk);
      if front.None? || ids[|ids| - 1] !in patches then None
      else PatchFinding(front.value, ids[|ids| - 1], patches[ids[|ids| - 1]], ownerOk)
  }

  /** `applyFindingDecision`: a whole decision chosen in a merge or a split. */
  function Decide(l: Ledger, id: string, d: Decision, ownerOk: bool, fallback: string): Option<Ledger> {
    if id !in l.findings || !ownerOk then None
    else if d.disposition == NoDisposition then Some(Write(l, id, d, false, fallback))
    else if CanApprove(l.findings[id], id, d, fallback, l.now) then Some(Write(l, id, d, true, fallback))
    else None
  }

  /** `addNote`: the note takes a decision revision of its own. */
  function Note(l: Ledger, id: string): Option<Ledger> {
    if id !in l.findings then None
    else Some(l.(findings := l.findings[id := l.findings[id].(revision := l.findings[id].revision + 1)]))
  }

  /** A finding as an import first stores it. */
  function Import(l: Ledger, id: string, asset: string, source: string, scanScope: string,
      owner: Option<string>): Ledger {
    if id in l.findings then l
    else l.(findings := l.findings[id := Finding(asset, source, scanScope, owner, Open, NoDisposition, None, 1)])
  }

  /** Which chosen decisions are accepted: a scope may be left out except for a suppression, and a rationale
      must be text where there is a disposition to justify. */
  predicate ChoiceOk(d: Decision) {
    d.workflow != UnknownWorkflow &&
    match d.disposition
    case NoDisposition => d.scope in {NoScope, FindingScope} && d.acceptedUntil.None? && d.suppressedUntil.None?
    case AcceptedRisk =>
      d.scope in {NoScope, FindingScope} && NotZero(d.acceptedUntil) && d.suppressedUntil.None? && ReasonOk(d.rationale)
    case Suppressed =>
      d.scope !in {NoScope, UnknownScope} && d.acceptedUntil.None? && d.suppressedUntil.Some? &&
      NotZero(d.suppressedUntil) && ReasonOk(d.rationale)
    case FalsePositive =>
      d.scope in {NoScope, FindingScope} && d.acceptedUntil.None? && d.suppressedUntil.None? && ReasonOk(d.rationale)
    case UnknownDisposition => false
  }

  predicate ReasonOk(rationale: string) {
    rationale == "" || ValidText(rationale, 8192)
  }

  /** `findingDecisionInput.decision`: a decision chosen in a merge or a split is complete and makes sense. */
  function Chosen(ownerGiven: bool, acceptedGiven: bool, d: Decision): (r: Option<Decision>)
    ensures r.Some? <==> ownerGiven && acceptedGiven && ChoiceOk(d)
    ensures r.Some? ==> Sensible(r.value) && ShapeOk(r.value)
    ensures r.Some? ==> r.value == if d.disposition == NoDisposition then d.(scope := NoScope, rationale := "")
                                   else if d.disposition == Suppressed then d else d.(scope := FindingScope)
  {
    if !ownerGiven || !acceptedGiven || d.workflow == UnknownWorkflow then None
    else
      var scoped := if d.scope == NoScope then FindingScope else d.scope;
      var next := match d.disposition
        case NoDisposition => if scoped == FindingScope then d.(scope := NoScope, rationale := "") else d
        case Suppressed => d
        case _ => d.(scope := scoped);
      if ShapeOk(next) && (next.disposition == NoDisposition || ReasonOk(next.rationale)) then Some(next) else None
  }
}
