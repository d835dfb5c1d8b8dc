/** Reconciliation of imported scans with the stored findings of a scope (internal/app/reconcile.go). */
module Reconciliation {
  import opened Options

  datatype Scope = Scope(workspace: string, asset: string, source: string, id: string, revision: string, branch: string)
  datatype Key = Key(scope: Scope, identity: string)

  datatype ScanKind = Full | Delta
  datatype Completeness = Complete | Partial | UnknownCompleteness

  /** One reported finding; `digest` stands for all of its content. */
  datatype Report = Report(identity: string, digest: string)

  datatype Import = Import(
    run: string, scope: Scope, succeeded: bool, kind: ScanKind, completeness: Completeness,
    scanAt: Option<int>, importedAt: int, reports: seq<Report>)
  {
    predicate Comparable() {
      succeeded && kind == Full && completeness == Complete && scanAt.Some?
    }

    predicate Mentions(k: Key) {
      scope == k.scope && exists i :: 0 <= i < |reports| && reports[i].identity == k.identity
    }
  }

  datatype SourceState = Observed | Unknown | InferredResolved
  datatype ChangeKind = New | Changed | Unchanged | Reopened | Resolved

  datatype Finding = Finding(
    state: SourceState, scanAt: Option<int>, freshnessAt: Option<int>, digest: string,
    changeKind: ChangeKind, changeAt: Option<int>, changeRun: string, changeRevision: nat, evidenceRevision: nat)

  datatype Observation = Observation(key: Key, run: string)
  datatype Store = Store(coverage: map<Scope, int>, findings: map<Key, Finding>, observed: set<Observation>)

  // ----- the upsert of one reported finding -----

  /** The scan is older than an authoritative scan already committed for the scope. */
  predicate Covered(r: Import, coverage: Option<int>) {
    r.succeeded && r.scanAt.Some? && Below(r.scanAt.value, coverage)
  }

  function ProposedState(r: Import, coverage: Option<int>): SourceState {
    if Covered(r, coverage) then InferredResolved else if r.succeeded then Observed else Unknown
  }

  function ProposedFreshness(r: Import, coverage: Option<int>): Option<int> {
    if Covered(r, coverage) then coverage else if r.Comparable() then r.scanAt else None
  }

  /** The `newer` guard: this observation replaces the current source projection. */
  predicate Newer(r: Import, f: Finding) {
    r.succeeded &&
    match r.scanAt
    case Some(t) => (f.scanAt.None? || t > f.scanAt.value) && (f.freshnessAt.None? || t >= f.freshnessAt.value)
    case None => f.scanAt.None? && f.freshnessAt.None?
  }

  function Inserted(r: Import, coverage: Option<int>, digest: string): Finding {
    Finding(ProposedState(r, coverage), r.scanAt, ProposedFreshness(r, coverage), digest,
            if r.succeeded then New else Unchanged,
            if r.succeeded then Some(r.importedAt) else None,
            if r.succeeded then r.run else "", 1, 1)
  }

  function ReplacedKind(f: Finding, digest: string): ChangeKind {
    if f.state == InferredResolved then Reopened
    else if f.digest == "" then Unchanged
    else if f.digest != digest then Changed
    else Unchanged
  }

  function Updated(r: Import, coverage: Option<int>, digest: string, f: Finding): Finding {
    var freshness := ProposedFreshness(r, coverage);
    var g := f.(
      freshnessAt := if (r.Comparable() || Covered(r, coverage)) && freshness.Some?
                        && (f.freshnessAt.None? || freshness.value > f.freshnessAt.value)
                     then freshness else f.freshnessAt,
      evidenceRevision := f.evidenceRevision + 1);
    if Newer(r, f) then
      g.(state := ProposedState(r, coverage), scanAt := r.scanAt, digest := digest,
         changeKind := ReplacedKind(f, digest), changeAt := Some(r.importedAt), changeRun := r.run,
       changeRevision := f.changeRevision + 1)
    else g
  }

  function Upserted(r: Import, coverage: Option<int>, digest: string, f: Option<Finding>): Finding {
    match f
    case None => Inserted(r, coverage, digest)
    case Some(g) => Updated(r, coverage, digest, g)
  }

  // ----- one import as a step on the store -----

  function UpsertOne(findings: map<Key, Finding>, r: Import, coverage: Option<int>, report: Report): map<Key, Finding> {
    var k := Key(r.scope, report.identity);
    findings[k := Upserted(r, coverage, report.digest, Get(findings, k))]
  }

  /** The findings after the first `n` reports of the import. */
  function UpsertPrefix(findings: map<Key, Finding>, r: Import, coverage: Option<int>, n: nat): map<Key, Finding>
    requires n <= |r.reports|
  {
    if n == 0 then findings
    else UpsertOne(UpsertPrefix(findings, r, coverage, n - 1), r, coverage, r.reports[n - 1])
  }

  function ObservePrefix(observed: set<Observation>, r: Import, n: nat): set<Observation>
    requires n <= |r.reports|
  {
    observed + set i | 0 <= i < n :: Observation(Key(r.scope, r.reports[i].identity), r.run)
  }

  /** The import moves the scope's coverage forward, so absence becomes evidence. */
  predicate Advances(r: Import, coverage: Option<int>) {
    r.Comparable() && (coverage.None? || r.scanAt.value > coverage.value)
  }

  predicate Sweepable(f: Finding, t: int) {
    f.scanAt.Some? && f.scanAt.value < t && f.state != Unknown && (f.freshnessAt.None? || f.freshnessAt.value < t)
  }

  function Swept(r: Import, f: Finding): Finding
    requires r.scanAt.Some?
  {
    f.(state := InferredResolved, freshnessAt := r.scanAt, evidenceRevision := f.evidenceRevision + 1,
       changeKind := Resolved, changeAt := Some(r.importedAt), changeRun := r.run,
       changeRevision := f.changeRevision + 1)
  }

  function SweepAll(findings: map<Key, Finding>, r: Import, observed: set<Observation>): map<Key, Finding>
    requires r.scanAt.Some?
  {
    map k | k in findings ::
      if k.scope == r.scope && Sweepable(findings[k], r.scanAt.value) && Observation(k, r.run) !in observed
      then Swept(r, findings[k]) else findings[k]
  }

  function Reconciled(s: Store, r: Import): Store {
    var coverage := Get(s.coverage, r.scope);
    var findings := UpsertPrefix(s.findings, r, coverage, |r.reports|);
    var observed := ObservePrefix(s.observed, r, |r.reports|);
    if Advances(r, coverage)
    then Store(s.coverage[r.scope := r.scanAt.value], SweepAll(findings, r, observed), observed)
    else Store(s.coverage, findings, observed)
  }

  datatype Reason = SourceFailed | OutOfOrder | PartialScan | UnknownCompletenessReason | DeltaScan | UnknownSourceTime
  datatype Label = NonAuthoritative | Historical | Kind(kind: ChangeKind)

  predicate Earlier(a: Option<int>, b: Option<int>) {
    a.Some? && Below(a.value, b)
  }

  /** `observationChange`: the label of one observation, against the row its upsert returned. */
  function ObservationChange(r: Import, digest: string, row: Finding): (Label, seq<Reason>) {
    var ours := row.changeRun == r.run;
    var late := r.succeeded && !ours && (Earlier(r.scanAt, row.scanAt) || digest != row.digest);
    var reasons :=
      (if !r.succeeded then [SourceFailed] else if late then [OutOfOrder] else []) +
      (match r.completeness
       case Partial => [PartialScan]
       case UnknownCompleteness => [UnknownCompletenessReason]
       case Complete => []) +
      (if r.kind == Delta then [DeltaScan] else []) + (if r.scanAt.None? then [UnknownSourceTime] else []);
    (if !r.succeeded then NonAuthoritative else if late then Historical
     else Kind(if ours then row.changeKind else Unchanged), reasons)
  }

  const Empty := Store(map[], map[], {})

  /** The store after processing the imports in the given order, starting from an empty database. */
  function Run(h: seq<Import>): Store {
    if |h| == 0 then Empty else Reconciled(Run(h[..|h| - 1]), h[|h| - 1])
  }

  /** The import worker's transaction: two bounded batches per slice, then the absence sweep. */
  class FindingStore {
    var coverage: map<Scope, int>
    var findings: map<Key, Finding>
    var observed: set<Observation>

    ghost function Model(): Store
      reads this
    {
      Store(coverage, findings, observed)
    }

    constructor ()
      ensures Model() == Empty
    {
      coverage, findings, observed := map[], map[], {};
    }

    /** `active` is the row check of the claimed import: processing, owned, fenced, and within its lease. */
    method Reconcile(r: Import, active: bool) returns (done: bool)
      modifies this
      ensures done == active
      ensures Model() == if active then Reconciled(old(Model()), r) else old(Model())
    {
      if !active { return false; }
      var cov := Get(coverage, r.scope);
      var start := 0;
      while start < |r.reports|
        invariant 0 <= start <= |r.reports|
        invariant coverage == old(coverage) && cov == Get(coverage, r.scope)
        invariant findings == UpsertPrefix(old(findings), r, cov, start)
        invariant observed == ObservePrefix(old(observed), r, start)
      {
        var end := if start + 100 < |r.reports| then start + 100 else |r.reports|;
        for i := start to end
          invariant coverage == old(coverage) && observed == ObservePrefix(old(observed), r, start)
          invariant findings == UpsertPrefix(old(findings), r, cov, i)
        {
          var k := Key(r.scope, r.reports[i].identity);
          findings := findings[k := Upserted(r, cov, r.reports[i].digest, Get(findings, k))];
        }
        for i := start to end
          invariant coverage == old(coverage) && findings == UpsertPrefix(old(findings), r, cov, end)
          invariant observed == ObservePrefix(old(observed), r, i)
        {
          observed := observed + {Observation(Key(r.scope, r.reports[i].identity), r.run)};
        }
        start := end;
      }
      if Advances(r, cov) {
        findings := SweepAll(findings, r, observed);
        coverage := coverage[r.scope := r.scanAt.value];
      }
      done := true;
    }
  }
}
