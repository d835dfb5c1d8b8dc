/** What every history of imports leaves behind: monotone evidence, and a source state that no
    processing order can change. */
module ReconciliationLaws {
  import opened Options
  import opened Reconciliation

  // ----- one key of the store, seen on its own -----

  datatype View = View(coverage: Option<int>, finding: Option<Finding>)

  function At(s: Store, k: Key): View {
    View(Get(s.coverage, k.scope), Get(s.findings, k))
  }

  function KeyUpserts(f: Option<Finding>, r: Import, coverage: Option<int>, k: Key, n: nat): Option<Finding>
    requires n <= |r.reports|
  {
    if n == 0 then f else
    var g := KeyUpserts(f, r, coverage, k, n - 1);
    if r.reports[n - 1].identity == k.identity then Some(Upserted(r, coverage, r.reports[n - 1].digest, g)) else g
  }

  /** Coverage of the scope once the import has committed. */
  function Top(r: Import, coverage: Option<int>): Option<int> {
    if Advances(r, coverage) then r.scanAt else coverage
  }

  function KeyStep(v: View, r: Import, k: Key): View {
    if r.scope != k.scope then v else
    var f := KeyUpserts(v.finding, r, v.coverage, k, |r.reports|);
    View(Top(r, v.coverage),
         if Advances(r, v.coverage) && f.Some? && Sweepable(f.value, r.scanAt.value) && !r.Mentions(k)
         then Some(Swept(r, f.value)) else f)
  }

  /** Import runs are recorded once, so no observation of this run can predate it. */
  ghost predicate FreshRun(s: Store, r: Import) {
    forall o <- s.observed :: o.run != r.run
  }

  lemma {:induction false} UpsertsAt(findings: map<Key, Finding>, r: Import, coverage: Option<int>, k: Key, n: nat)
    requires n <= |r.reports|
    ensures Get(UpsertPrefix(findings, r, coverage, n), k)
         == if k.scope == r.scope then KeyUpserts(Get(findings, k), r, coverage, k, n) else Get(findings, k)
  {
    if n > 0 { UpsertsAt(findings, r, coverage, k, n - 1); }
  }

  lemma ObservedNow(s: Store, r: Import, k: Key)
    requires FreshRun(s, r) && k.scope == r.scope
    ensures Observation(k, r.run) in ObservePrefix(s.observed, r, |r.reports|) <==> r.Mentions(k)
  {
    if r.Mentions(k) {
      var i :| 0 <= i < |r.reports| && r.reports[i].identity == k.identity;
      assert Observation(Key(r.scope, r.reports[i].identity), r.run) == Observation(k, r.run);
    }
  }

  /** An import acts on each finding independently of all the others. */
  lemma ImportAt(s: Store, r: Import, k: Key)
    requires FreshRun(s, r)
    ensures At(Reconciled(s, r), k) == KeyStep(At(s, k), r, k)
  {
    UpsertsAt(s.findings, r, Get(s.coverage, r.scope), k, |r.reports|);
    if k.scope == r.scope { ObservedNow(s, r, k); }
  }

  // ----- evidence only moves forward -----

  /** Freshness stays under coverage, and resolution by absence always rests on the current coverage. */
  predicate Healthy(f: Finding, coverage: Option<int>, top: Option<int>) {
    NoLater(f.freshnessAt, top) &&
    (f.state == InferredResolved ==>
       f.freshnessAt == coverage && f.scanAt.Some? && Below(f.scanAt.value, coverage)) &&
    (f.changeKind == Reopened ==> f.state == Observed)
  }

  predicate Forward(f: Finding, g: Finding) {
    NoLater(f.scanAt, g.scanAt) && NoLater(f.freshnessAt, g.freshnessAt) &&
    f.changeRevision <= g.changeRevision && f.evidenceRevision <= g.evidenceRevision
  }

  lemma {:induction false} UpsertsKeepHealth(f: Option<Finding>, r: Import, coverage: Option<int>, k: Key, n: nat)
    requires n <= |r.reports|
    requires f.Some? ==> Healthy(f.value, coverage, Top(r, coverage))
    ensures var g := KeyUpserts(f, r, coverage, k, n);
            g.Some? ==> Healthy(g.value, coverage, Top(r, coverage))
    ensures var g := KeyUpserts(f, r, coverage, k, n);
            f.Some? ==> g.Some? && Forward(f.value, g.value)
    ensures (exists i :: 0 <= i < n && r.reports[i].identity == k.identity) && Advances(r, coverage) ==>
            var g := KeyUpserts(f, r, coverage, k, n);
            g.Some? && g.value.state != InferredResolved
  {
    if n > 0 { UpsertsKeepHealth(f, r, coverage, k, n - 1); }
  }

  lemma StepKeepsHealth(v: View, r: Import, k: Key)
    requires v.finding.Some? ==> Healthy(v.finding.value, v.coverage, v.coverage)
    ensures var w := KeyStep(v, r, k);
            w.finding.Some? ==> Healthy(w.finding.value, w.coverage, w.coverage)
    ensures NoLater(v.coverage, KeyStep(v, r, k).coverage)
    ensures v.finding.Some? ==>
            KeyStep(v, r, k).finding.Some? && Forward(v.finding.value, KeyStep(v, r, k).finding.value)
  {
    if r.scope == k.scope { UpsertsKeepHealth(v.finding, r, v.coverage, k, |r.reports|); }
  }

  ghost predicate StoreHealthy(s: Store) {
    forall k <- s.findings :: Healthy(s.findings[k], Get(s.coverage, k.scope), Get(s.coverage, k.scope))
  }

  /** Every import, failed ones included, keeps the store healthy and moves no evidence backwards. */
  lemma ImportKeepsHealth(s: Store, r: Import)
    requires StoreHealthy(s) && FreshRun(s, r)
    ensures StoreHealthy(Reconciled(s, r))
    ensures forall c :: NoLater(Get(s.coverage, c), Get(Reconciled(s, r).coverage, c))
    ensures forall k <- s.findings ::
              k in Reconciled(s, r).findings && Forward(s.findings[k], Reconciled(s, r).findings[k])
  {
    var s' := Reconciled(s, r);
    forall k
      ensures k in s'.findings ==> Healthy(s'.findings[k], Get(s'.coverage, k.scope), Get(s'.coverage, k.scope))
      ensures k in s.findings ==> k in s'.findings && Forward(s.findings[k], s'.findings[k])
    {
      ImportAt(s, r, k);
      StepKeepsHealth(At(s, k), r, k);
      assert At(s', k).finding == Get(s'.findings, k);
    }
  }

  // ----- histories -----

  ghost predicate DistinctRuns(h: seq<Import>) {
    forall i, j :: 0 <= i < j < |h| ==> h[i].run != h[j].run
  }

  function KeyRun(h: seq<Import>, k: Key): View {
    if |h| == 0 then View(None, None) else KeyStep(KeyRun(h[..|h| - 1], k), h[|h| - 1], k)
  }

  lemma {:induction false} RunObservations(h: seq<Import>)
    ensures forall o <- Run(h).observed :: exists i :: 0 <= i < |h| && h[i].run == o.run
  {
    if |h| > 0 {
      var p := h[..|h| - 1];
      RunObservations(p);
      forall o | o in Run(h).observed
        ensures exists i :: 0 <= i < |h| && h[i].run == o.run
      {
        if o in Run(p).observed {
          var i :| 0 <= i < |p| && p[i].run == o.run;
          assert h[i].run == o.run;
        } else {
          assert h[|h| - 1].run == o.run;
        }
      }
    }
  }

  lemma NextRunFresh(h: seq<Import>)
    requires |h| > 0 && DistinctRuns(h)
    ensures FreshRun(Run(h[..|h| - 1]), h[|h| - 1])
  {
    RunObservations(h[..|h| - 1]);
  }

  lemma {:induction false} RunAt(h: seq<Import>, k: Key)
    requires DistinctRuns(h)
    ensures At(Run(h), k) == KeyRun(h, k)
  {
    if |h| > 0 {
      RunAt(h[..|h| - 1], k);
      NextRunFresh(h);
      ImportAt(Run(h[..|h| - 1]), h[|h| - 1], k);
    }
  }

  /** In every reachable store, and at every prefix of its history, the evidence invariant holds. */
  lemma {:induction false} HistoriesStayHealthy(h: seq<Import>)
    requires DistinctRuns(h)
    ensures StoreHealthy(Run(h))
    ensures forall n, k :: 0 <= n <= |h| && k in Run(h[..n]).findings ==>
              k in Run(h).findings && Forward(Run(h[..n]).findings[k], Run(h).findings[k])
  {
    if |h| == 0 { return; }
    var p := h[..|h| - 1];
    HistoriesStayHealthy(p);
    NextRunFresh(h);
    ImportKeepsHealth(Run(p), h[|h| - 1]);
    forall n, k | 0 <= n <= |h| && k in Run(h[..n]).findings
      ensures k in Run(h).findings && Forward(Run(h[..n]).findings[k], Run(h).findings[k])
    {
      if n == |h| {
        assert h[..n] == h;
      } else {
        assert h[..n] == p[..n];
      }
    }
  }

  // ----- what an observation's label says -----

  /** The first report of a finding by a successful import: it is labelled historical exactly when it lost
      against the stored projection and differs from it; any other label means the stored content is its own.
      An import is comparable exactly when its label is authoritative and carries no reason at all. */
  lemma LabelTellsTheProjection(r: Import, coverage: Option<int>, digest: string, f: Option<Finding>)
    requires r.succeeded && (f.Some? ==> f.value.changeRun != r.run)
    ensures var row := Upserted(r, coverage, digest, f);
            var (tag, reasons) := ObservationChange(r, digest, row);
            (tag == Historical <==>
               f.Some? && !Newer(r, f.value) && (Earlier(r.scanAt, f.value.scanAt) || digest != f.value.digest)) &&
            (tag != Historical ==> row.digest == digest) &&
            (f.None? || Newer(r, f.value) ==> tag == Kind(row.changeKind) && row.changeRun == r.run) &&
            (reasons == [] <==> r.Comparable() && tag != Historical)
  {
    var (tag, reasons) := ObservationChange(r, digest, Upserted(r, coverage, digest, f));
    if tag == Historical { assert reasons[0] == OutOfOrder; }
    if r.completeness != Complete || r.kind == Delta || r.scanAt.None? { assert |reasons| > 0; }
  }

  /** A second report of the same finding in one import keeps the first one's label, whatever it says. */
  lemma RepeatedReportKeepsLabel(r: Import, coverage: Option<int>, first: string, second: string, f: Option<Finding>)
    requires r.succeeded && (f.None? || Newer(r, f.value)) && r.scanAt.Some?
    ensures var row := Upserted(r, coverage, first, f);
            var again := Upserted(r, coverage, second, Some(row));
            again.digest == first && ObservationChange(r, second, again).0 == Kind(row.changeKind)
  {}
}
