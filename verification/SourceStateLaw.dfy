/** The source state of a finding as a function of the set of imports, whatever order they were
    processed in, and the exact histories for which that reading fails. */
module SourceStateLaw {
  import opened Options
  import opened Reconciliation
  import opened ReconciliationLaws

  /** The import is a timed, successful observation of the finding. */
  predicate Sights(r: Import, k: Key) {
    r.succeeded && r.scanAt.Some? && r.Mentions(k)
  }

  ghost function Sightings(h: seq<Import>, k: Key): set<int> {
    set i | 0 <= i < |h| && Sights(h[i], k) :: h[i].scanAt.value
  }

  ghost function Scans(h: seq<Import>, scope: Scope): set<int> {
    set i | 0 <= i < |h| && h[i].scope == scope && h[i].Comparable() :: h[i].scanAt.value
  }

  /** Order-free reading of a history: some authoritative scan is later than every sighting. */
  ghost predicate SeenThenAbsent(h: seq<Import>, k: Key) {
    exists c :: c in Scans(h, k.scope) && forall t <- Sightings(h, k) :: t < c
  }

  ghost predicate StateFollowsEvidence(h: seq<Import>, k: Key) {
    k in Run(h).findings &&
    Run(h).findings[k].state == if SeenThenAbsent(h, k) then InferredResolved else Observed
  }

  // ----- the invariant of one finding against the evidence so far -----

  ghost function Seen(r: Import, times: set<int>): set<int> {
    if r.succeeded && r.scanAt.Some? then times + {r.scanAt.value} else times
  }

  /** The projection is decided by the stored scan time alone, which stands for all sightings. */
  ghost predicate Sound(f: Finding, coverage: Option<int>, times: set<int>, top: Option<int>) {
    NoLater(f.freshnessAt, top) &&
    match f.scanAt
    case None => f.freshnessAt.None? && f.state != InferredResolved && times == {}
    case Some(s) =>
      f.state != Unknown && s in times &&
      (f.state == InferredResolved <==> Below(s, coverage)) &&
      (f.state == InferredResolved ==> f.freshnessAt == coverage) &&
      forall t <- times :: t <= s || Below(t, coverage)
  }

  /** A sighting no later than the failed import, or below a coverage that shadows it. */
  ghost predicate Shadowed(t: int, p: int, ceilings: set<int>) {
    t <= p || exists c :: c in ceilings && t < c
  }

  /** A finding inserted by a failed, timed import, none of whose sightings has been accepted.
      `ceilings` are the coverages that shadowed earlier late sightings. */
  ghost predicate Stuck(f: Finding, p: int, coverage: Option<int>, top: Option<int>, times: set<int>,
      ceilings: set<int>) {
    f.state == Unknown && f.scanAt == Some(p) && NoLater(f.freshnessAt, top) &&
    (forall c <- ceilings :: NoLater(Some(c), f.freshnessAt)) &&
    (f.freshnessAt.Some? ==> f.freshnessAt.value <= p || f.freshnessAt.value in ceilings) &&
    forall t <- times :: Shadowed(t, p, ceilings)
  }

  ghost function Raised(r: Import, coverage: Option<int>, ceilings: set<int>): set<int> {
    if Covered(r, coverage) then ceilings + {coverage.value} else ceilings
  }

  lemma UpdateKeepsSound(f: Finding, r: Import, coverage: Option<int>, digest: string, times: set<int>)
    requires Sound(f, coverage, times, Top(r, coverage))
    ensures Sound(Updated(r, coverage, digest, f), coverage, Seen(r, times), Top(r, coverage))
  {}

  lemma {:induction false} UpsertsKeepSound(
    f: Finding, r: Import, coverage: Option<int>, k: Key, n: nat, times: set<int>)
    requires n <= |r.reports| && r.scope == k.scope
    requires Sound(f, coverage, times, Top(r, coverage))
    ensures var g := KeyUpserts(Some(f), r, coverage, k, n);
            g.Some? &&
            Sound(g.value, coverage,
                  if exists i :: 0 <= i < n && r.reports[i].identity == k.identity then Seen(r, times) else times,
                  Top(r, coverage)) &&
            ((exists i :: 0 <= i < n && r.reports[i].identity == k.identity) || g.value == f)
  {
    if n == 0 { return; }
    UpsertsKeepSound(f, r, coverage, k, n - 1, times);
    var g := KeyUpserts(Some(f), r, coverage, k, n - 1).value;
    if r.reports[n - 1].identity == k.identity {
      var before := if exists i :: 0 <= i < n - 1 && r.reports[i].identity == k.identity then Seen(r, times) else times;
      UpdateKeepsSound(g, r, coverage, r.reports[n - 1].digest, before);
      assert Seen(r, before) == Seen(r, times);
    }
  }

  lemma {:induction false} InsertionIsSound(r: Import, coverage: Option<int>, k: Key, n: nat)
    requires n <= |r.reports| && r.scope == k.scope
    requires r.succeeded || r.scanAt.None?
    ensures var g := KeyUpserts(None, r, coverage, k, n);
            if exists i :: 0 <= i < n && r.reports[i].identity == k.identity
            then g.Some? && Sound(g.value, coverage, Seen(r, {}), Top(r, coverage)) else g.None?
  {
    if n == 0 { return; }
    InsertionIsSound(r, coverage, k, n - 1);
    var g := KeyUpserts(None, r, coverage, k, n - 1);
    if r.reports[n - 1].identity == k.identity && g.Some? {
      UpdateKeepsSound(g.value, r, coverage, r.reports[n - 1].digest, Seen(r, {}));
      assert Seen(r, Seen(r, {})) == Seen(r, {});
    }
  }

  lemma {:induction false} FailedInsertionIsStuck(r: Import, coverage: Option<int>, k: Key, n: nat)
    requires n <= |r.reports| && r.scope == k.scope
    requires !r.succeeded && r.scanAt.Some?
    ensures var g := KeyUpserts(None, r, coverage, k, n);
            if exists i :: 0 <= i < n && r.reports[i].identity == k.identity
            then g.Some? && Stuck(g.value, r.scanAt.value, coverage, Top(r, coverage), {}, {}) else g.None?
  {
    if n > 0 { FailedInsertionIsStuck(r, coverage, k, n - 1); }
  }

  /** A stuck finding leaves that state exactly when a sighting escapes every shadow. */
  lemma UpdateOfStuck(f: Finding, p: int, r: Import, coverage: Option<int>, digest: string, times: set<int>,
      ceilings: set<int>)
    requires Stuck(f, p, coverage, Top(r, coverage), times, ceilings)
    ensures var g := Updated(r, coverage, digest, f);
            if r.succeeded && r.scanAt.Some? && !Shadowed(r.scanAt.value, p, ceilings)
            then Sound(g, coverage, Seen(r, times), Top(r, coverage))
            else Stuck(g, p, coverage, Top(r, coverage), Seen(r, times), Raised(r, coverage, ceilings))
  {}

  lemma {:induction false} UpsertsOfStuck(
    f: Finding, p: int, r: Import, coverage: Option<int>, k: Key, n: nat, times: set<int>, ceilings: set<int>)
    requires n <= |r.reports| && r.scope == k.scope
    requires Stuck(f, p, coverage, Top(r, coverage), times, ceilings)
    ensures var g := KeyUpserts(Some(f), r, coverage, k, n);
            g.Some? &&
            if !exists i :: 0 <= i < n && r.reports[i].identity == k.identity
            then Stuck(g.value, p, coverage, Top(r, coverage), times, ceilings)
            else if r.succeeded && r.scanAt.Some? && !Shadowed(r.scanAt.value, p, ceilings)
            then Sound(g.value, coverage, Seen(r, times), Top(r, coverage))
            else Stuck(g.value, p, coverage, Top(r, coverage), Seen(r, times), Raised(r, coverage, ceilings))
  {
    if n == 0 { return; }
    UpsertsOfStuck(f, p, r, coverage, k, n - 1, times, ceilings);
    if r.reports[n - 1].identity != k.identity { return; }
    var g := KeyUpserts(Some(f), r, coverage, k, n - 1).value;
    var digest := r.reports[n - 1].digest;
    assert Seen(r, Seen(r, times)) == Seen(r, times);
    if !exists i :: 0 <= i < n - 1 && r.reports[i].identity == k.identity {
      UpdateOfStuck(g, p, r, coverage, digest, times, ceilings);
    } else if r.succeeded && r.scanAt.Some? && !Shadowed(r.scanAt.value, p, ceilings) {
      UpdateKeepsSound(g, r, coverage, digest, Seen(r, times));
    } else {
      StuckTwice(g, p, r, coverage, digest, times, ceilings);
    }
  }

  /** A repeated report of the same import changes nothing for a stuck finding. */
  lemma StuckTwice(g: Finding, p: int, r: Import, coverage: Option<int>, digest: string, times: set<int>,
      ceilings: set<int>)
    requires Stuck(g, p, coverage, Top(r, coverage), Seen(r, times), Raised(r, coverage, ceilings))
    requires r.succeeded && r.scanAt.Some? ==> Shadowed(r.scanAt.value, p, ceilings)
    ensures Stuck(Updated(r, coverage, digest, g), p, coverage, Top(r, coverage), Seen(r, times),
                  Raised(r, coverage, ceilings))
  {
    assert ceilings <= Raised(r, coverage, ceilings);
    assert Raised(r, coverage, Raised(r, coverage, ceilings)) == Raised(r, coverage, ceilings);
    assert Seen(r, Seen(r, times)) == Seen(r, times);
    UpdateOfStuck(g, p, r, coverage, digest, Seen(r, times), Raised(r, coverage, ceilings));
  }

  // ----- histories -----

  function CoverageOf(h: seq<Import>, scope: Scope): Option<int> {
    if |h| == 0 then None else
    var before := CoverageOf(h[..|h| - 1], scope);
    if h[|h| - 1].scope == scope then Top(h[|h| - 1], before) else before
  }

  /** The import that first mentions the finding. */
  function Opening(h: seq<Import>, k: Key): Option<Import> {
    if |h| == 0 then None else
    var before := Opening(h[..|h| - 1], k);
    if before.None? && h[|h| - 1].Mentions(k) then Some(h[|h| - 1]) else before
  }

  /** The coverages in force when late sightings of the finding were processed. */
  ghost function Ceilings(h: seq<Import>, k: Key): set<int> {
    if |h| == 0 then {} else
    var before := Ceilings(h[..|h| - 1], k);
    if Sights(h[|h| - 1], k) then Raised(h[|h| - 1], CoverageOf(h[..|h| - 1], k.scope), before) else before
  }

  ghost predicate AllShadowed(h: seq<Import>, k: Key, p: int) {
    |h| == 0 ||
    (AllShadowed(h[..|h| - 1], k, p) &&
     (Sights(h[|h| - 1], k) ==> Shadowed(h[|h| - 1].scanAt.value, p, Ceilings(h[..|h| - 1], k))))
  }

  /** The finding was first reported by a failed, timed import, and every later sighting is either no
      newer than that import or older than a coverage already applied to the finding. */
  ghost predicate Blocked(h: seq<Import>, k: Key) {
    var o := Opening(h, k);
    o.Some? && !o.value.succeeded && o.value.scanAt.Some? && AllShadowed(h, k, o.value.scanAt.value)
  }

  lemma {:induction false} Split(h: seq<Import>, k: Key)
    requires |h| > 0
    ensures Sightings(h, k) == if Sights(h[|h| - 1], k) then Seen(h[|h| - 1], Sightings(h[..|h| - 1], k))
            else Sightings(h[..|h| - 1], k)
  {
    var p, r := h[..|h| - 1], h[|h| - 1];
    assert forall i :: 0 <= i < |p| ==> p[i] == h[i];
    forall t | t in Sightings(h, k)
      ensures t in Sightings(p, k) || (Sights(r, k) && t == r.scanAt.value)
    {
      var i :| 0 <= i < |h| && Sights(h[i], k) && h[i].scanAt.value == t;
      if i < |p| { assert Sights(p[i], k); }
    }
    forall t | t in Sightings(p, k)
      ensures t in Sightings(h, k)
    {
      var i :| 0 <= i < |p| && Sights(p[i], k) && p[i].scanAt.value == t;
      assert Sights(h[i], k);
    }
  }

  lemma {:induction false} CoverageOfIsLatest(h: seq<Import>, scope: Scope)
    ensures match CoverageOf(h, scope)
            case None => Scans(h, scope) == {}
            case Some(c) => c in Scans(h, scope) && forall t <- Scans(h, scope) :: t <= c
  {
    if |h| == 0 { return; }
    var p, r := h[..|h| - 1], h[|h| - 1];
    CoverageOfIsLatest(p, scope);
    forall t | t in Scans(h, scope)
      ensures t in Scans(p, scope) || (r.Comparable() && r.scope == scope && t == r.scanAt.value)
    {
      var i :| 0 <= i < |h| && h[i].scope == scope && h[i].Comparable() && h[i].scanAt.value == t;
      if i < |p| { assert p[i].Comparable(); }
    }
    forall t | t in Scans(p, scope)
      ensures t in Scans(h, scope)
    {
      var i :| 0 <= i < |p| && p[i].scope == scope && p[i].Comparable() && p[i].scanAt.value == t;
      assert h[i].Comparable();
    }
    if r.scope == scope && r.Comparable() { assert h[|h| - 1].Comparable(); }
  }

  lemma {:induction false} CoverageOfRun(h: seq<Import>, scope: Scope)
    ensures Get(Run(h).coverage, scope) == CoverageOf(h, scope)
  {
    if |h| > 0 { CoverageOfRun(h[..|h| - 1], scope); }
  }

  /** The stored coverage of a scope is its latest comparable scan, in whatever order the scans arrived. */
  lemma CoverageIsLatestScan(h: seq<Import>, scope: Scope)
    ensures match Get(Run(h).coverage, scope)
            case None => Scans(h, scope) == {}
            case Some(c) => c in Scans(h, scope) && forall t <- Scans(h, scope) :: t <= c
  {
    CoverageOfRun(h, scope);
    CoverageOfIsLatest(h, scope);
  }

  /** The absence sweep and the new coverage restore the invariant the upserts left pending. */
  lemma SweepRestoresSound(f: Finding, r: Import, coverage: Option<int>, times: set<int>, mentioned: bool)
    requires Sound(f, coverage, times, Top(r, coverage))
    requires if mentioned then Advances(r, coverage) ==> r.scanAt.value in times else NoLater(f.freshnessAt, coverage)
    ensures Sound(if Advances(r, coverage) && Sweepable(f, r.scanAt.value) && !mentioned then Swept(r, f) else f,
                  Top(r, coverage), times, Top(r, coverage))
  {}

  ghost predicate Phase(v: View, h: seq<Import>, k: Key) {
    v.coverage == CoverageOf(h, k.scope) &&
    match Opening(h, k)
    case None => v.finding.None? && Sightings(h, k) == {} && Ceilings(h, k) == {} && forall p :: AllShadowed(h, k, p)
    case Some(o) =>
      v.finding.Some? &&
      if Blocked(h, k)
      then Stuck(v.finding.value, o.scanAt.value, v.coverage, v.coverage, Sightings(h, k), Ceilings(h, k))
      else Sound(v.finding.value, v.coverage, Sightings(h, k), v.coverage)
  }

  lemma {:induction false} PhaseStep(h: seq<Import>, k: Key)
    requires |h| > 0 && h[|h| - 1].scope == k.scope
    requires Phase(KeyRun(h[..|h| - 1], k), h[..|h| - 1], k)
    ensures Phase(KeyRun(h, k), h, k)
  {
    var p, r := h[..|h| - 1], h[|h| - 1];
    var v := KeyRun(p, k);
    var n := |r.reports|;
    var g := KeyUpserts(v.finding, r, v.coverage, k, n);
    Split(h, k);
    match Opening(p, k)
    case None =>
      if r.succeeded || r.scanAt.None? {
        InsertionIsSound(r, v.coverage, k, n);
        if r.Mentions(k) { SweepRestoresSound(g.value, r, v.coverage, Sightings(h, k), true); }
      } else {
        FailedInsertionIsStuck(r, v.coverage, k, n);
        assert AllShadowed(p, k, r.scanAt.value);
      }
    case Some(o) =>
      if Blocked(p, k) {
        UpsertsOfStuck(v.finding.value, o.scanAt.value, r, v.coverage, k, n, Sightings(p, k), Ceilings(p, k));
        if !Blocked(h, k) { SweepRestoresSound(g.value, r, v.coverage, Sightings(h, k), true); }
      } else {
        UpsertsKeepSound(v.finding.value, r, v.coverage, k, n, Sightings(p, k));
        SweepRestoresSound(g.value, r, v.coverage, Sightings(h, k), r.Mentions(k));
      }
  }

  lemma {:induction false} EveryHistoryHasAPhase(h: seq<Import>, k: Key)
    ensures Phase(KeyRun(h, k), h, k)
  {
    if |h| == 0 { return; }
    EveryHistoryHasAPhase(h[..|h| - 1], k);
    if h[|h| - 1].scope == k.scope {
      PhaseStep(h, k);
    } else {
      Split(h, k);
    }
  }

  // ----- the law -----

  /** A finding with a timed observation is inferred resolved exactly when some comparable scan of its
      scope is strictly later than all of them, unless the history is blocked: then it stays unknown. */
  lemma SourceStateIsEvidence(h: seq<Import>, k: Key)
    requires DistinctRuns(h) && Sightings(h, k) != {}
    ensures k in Run(h).findings
    ensures Run(h).findings[k].state == Unknown <==> Blocked(h, k)
    ensures StateFollowsEvidence(h, k) <==> !Blocked(h, k)
  {
    RunAt(h, k);
    EveryHistoryHasAPhase(h, k);
    CoverageOfIsLatest(h, k.scope);
    var v := KeyRun(h, k);
    assert Get(Run(h).findings, k) == v.finding;
    if !Blocked(h, k) {
      var s := v.finding.value.scanAt.value;
      assert Below(s, v.coverage) ==> v.coverage.value in Scans(h, k.scope);
      assert !Below(s, v.coverage) ==> forall c <- Scans(h, k.scope) :: c <= s;
    }
  }

  lemma SameSightings(g: seq<Import>, h: seq<Import>, k: Key)
    requires multiset(g) == multiset(h)
    ensures Sightings(g, k) <= Sightings(h, k) && Scans(g, k.scope) <= Scans(h, k.scope)
  {
    forall r | r in g
      ensures r in h
    {
      assert r in multiset(g);
      assert r in multiset(h);
    }
    forall t | t in Sightings(g, k)
      ensures t in Sightings(h, k)
    {
      var i :| 0 <= i < |g| && Sights(g[i], k) && g[i].scanAt.value == t;
      assert g[i] in h;
      var j :| 0 <= j < |h| && h[j] == g[i];
      assert Sights(h[j], k);
    }
    forall t | t in Scans(g, k.scope)
      ensures t in Scans(h, k.scope)
    {
      var i :| 0 <= i < |g| && g[i].scope == k.scope && g[i].Comparable() && g[i].scanAt.value == t;
      assert g[i] in h;
      var j :| 0 <= j < |h| && h[j] == g[i];
      assert h[j].Comparable();
    }
  }

  lemma {:induction false} SucceededNeverBlocks(h: seq<Import>, k: Key)
    requires forall i :: 0 <= i < |h| ==> h[i].succeeded
    ensures Opening(h, k).Some? ==> Opening(h, k).value.succeeded
  {
    if |h| > 0 { SucceededNeverBlocks(h[..|h| - 1], k); }
  }

  /** Any two processing orders of the same successful imports agree on the source state. */
  lemma SourceStateIsOrderIndependent(g: seq<Import>, h: seq<Import>, k: Key)
    requires DistinctRuns(g) && DistinctRuns(h) && multiset(g) == multiset(h)
    requires forall i :: 0 <= i < |g| ==> g[i].succeeded
    requires forall i :: 0 <= i < |h| ==> h[i].succeeded
    requires Sightings(g, k) != {}
    ensures k in Run(g).findings && k in Run(h).findings
    ensures Run(g).findings[k].state == Run(h).findings[k].state
    ensures Run(h).findings[k].state == if SeenThenAbsent(h, k) then InferredResolved else Observed
  {
    SameSightings(g, h, k);
    SameSightings(h, g, k);
    SucceededNeverBlocks(g, k);
    SucceededNeverBlocks(h, k);
    SourceStateIsEvidence(g, k);
    SourceStateIsEvidence(h, k);
  }

  // ----- what does depend on the order -----

  function SampleKey(): Key { Key(Scope("w", "a", "s", "id", "1", "main"), "x") }

  /** A scan of the sample scope that reports the sample finding, or (as a full scan) nothing. */
  function Sample(run: string, succeeded: bool, t: int, reported: bool): Import {
    Import(run, SampleKey().scope, succeeded, if reported then Delta else Full, Complete, Some(t), 0,
           if reported then [Report("x", "d")] else [])
  }

  /** The step of a sample scan on the sample finding. */
  function SampleStep(v: View, run: string, succeeded: bool, t: int, reported: bool): View {
    var r := Sample(run, succeeded, t, reported);
    View(Top(r, v.coverage),
         if reported then Some(Upserted(r, v.coverage, "d", v.finding))
         else if Advances(r, v.coverage) && v.finding.Some? && Sweepable(v.finding.value, t)
         then Some(Swept(r, v.finding.value)) else v.finding)
  }

  lemma SampleStepIsStep(v: View, run: string, succeeded: bool, t: int, reported: bool)
    ensures KeyStep(v, Sample(run, succeeded, t, reported), SampleKey()) == SampleStep(v, run, succeeded, t, reported)
  {
    var r, k := Sample(run, succeeded, t, reported), SampleKey();
    if reported {
      assert r.reports[0].identity == k.identity;
      assert KeyUpserts(v.finding, r, v.coverage, k, 0) == v.finding;
    } else {
      assert !r.Mentions(k);
    }
  }

  lemma KeyRunAppend(h: seq<Import>, r: Import, k: Key)
    ensures KeyRun(h + [r], k) == KeyStep(KeyRun(h, k), r, k)
  {
    assert (h + [r])[..|h|] == h;
  }

  lemma ThreeSteps(a: Import, b: Import, c: Import, k: Key)
    ensures KeyRun([a, b, c], k) == KeyStep(KeyStep(KeyStep(View(None, None), a, k), b, k), c, k)
  {
    var start: seq<Import> := [];
    KeyRunAppend(start, a, k);
    KeyRunAppend(start + [a], b, k);
    KeyRunAppend(start + [a] + [b], c, k);
    assert [a, b, c] == start + [a] + [b] + [c];
  }

  lemma FourSteps(a: Import, b: Import, c: Import, d: Import, k: Key)
    ensures KeyRun([a, b, c, d], k) == KeyStep(KeyStep(KeyStep(KeyStep(View(None, None), a, k), b, k), c, k), d, k)
  {
    ThreeSteps(a, b, c, k);
    KeyRunAppend([a, b, c], d, k);
    assert [a, b, c, d] == [a, b, c] + [d];
  }

  ghost predicate Ends(h: seq<Import>, state: SourceState, scanAt: int) {
    DistinctRuns(h) && SampleKey() in Run(h).findings &&
    Run(h).findings[SampleKey()].state == state && Run(h).findings[SampleKey()].scanAt == Some(scanAt)
  }

  lemma EndsFromView(h: seq<Import>, f: Finding)
    requires DistinctRuns(h) && KeyRun(h, SampleKey()).finding == Some(f) && f.scanAt.Some?
    ensures Ends(h, f.state, f.scanAt.value)
  {
    RunAt(h, SampleKey());
    assert Get(Run(h).findings, SampleKey()) == Some(f);
  }

  /** Two more sample scans after a failed opening at time 5 and a full scan at time 20. */
  lemma AfterFailedOpening(run: string, t: int, run': string, t': int, f: Finding)
    requires run != run' && run !in {"1", "2"} && run' !in {"1", "2"}
    requires var v := SampleStep(SampleStep(View(None, None), "1", false, 5, true), "2", true, 20, false);
             SampleStep(SampleStep(v, run, true, t, true), run', true, t', true).finding == Some(f) && f.scanAt.Some?
    ensures Ends([Sample("1", false, 5, true), Sample("2", true, 20, false), Sample(run, true, t, true),
                  Sample(run', true, t', true)],
                 f.state, f.scanAt.value)
  {
    var v1 := SampleStep(View(None, None), "1", false, 5, true);
    var v2 := SampleStep(v1, "2", true, 20, false);
    var v3 := SampleStep(v2, run, true, t, true);
    SampleStepIsStep(View(None, None), "1", false, 5, true);
    SampleStepIsStep(v1, "2", true, 20, false);
    SampleStepIsStep(v2, run, true, t, true);
    SampleStepIsStep(v3, run', true, t', true);
    var a, b := Sample("1", false, 5, true), Sample("2", true, 20, false);
    var c, d := Sample(run, true, t, true), Sample(run', true, t', true);
    FourSteps(a, b, c, d, SampleKey());
    EndsFromView([a, b, c, d], f);
  }

  /** With a failed import first, two orders of the same imports end in different states. */
  lemma FailedOpeningDependsOnOrder(failed: Import, full: Import, early: Import, late: Import)
    requires failed == Sample("1", false, 5, true) && full == Sample("2", true, 20, false)
    requires early == Sample("3", true, 3, true) && late == Sample("4", true, 10, true)
    ensures Ends([failed, full, early, late], Unknown, 5)
    ensures Ends([failed, full, late, early], InferredResolved, 10)
  {
    var v := SampleStep(SampleStep(View(None, None), "1", false, 5, true), "2", true, 20, false);
    AfterFailedOpening("3", 3, "4", 10,
                       SampleStep(SampleStep(v, "3", true, 3, true), "4", true, 10, true).finding.value);
    AfterFailedOpening("4", 10, "3", 3,
                       SampleStep(SampleStep(v, "4", true, 10, true), "3", true, 3, true).finding.value);
  }

  /** Only the state is order independent: the stored scan time is not, even for successful imports. */
  lemma ScanTimeDependsOnOrder(first: Import, full: Import, between: Import)
    requires first == Sample("1", true, 10, true) && full == Sample("2", true, 20, false)
    requires between == Sample("3", true, 15, true)
    ensures Ends([first, full, between], InferredResolved, 10)
    ensures Ends([first, between, full], InferredResolved, 15)
  {
    var k := SampleKey();
    var v1 := SampleStep(View(None, None), "1", true, 10, true);
    SampleStepIsStep(View(None, None), "1", true, 10, true);
    var v2, w2 := SampleStep(v1, "2", true, 20, false), SampleStep(v1, "3", true, 15, true);
    SampleStepIsStep(v1, "2", true, 20, false);
    SampleStepIsStep(v2, "3", true, 15, true);
    ThreeSteps(first, full, between, k);
    EndsFromView([first, full, between], SampleStep(v2, "3", true, 15, true).finding.value);
    SampleStepIsStep(v1, "3", true, 15, true);
    SampleStepIsStep(w2, "2", true, 20, false);
    ThreeSteps(first, between, full, k);
    EndsFromView([first, between, full], SampleStep(w2, "2", true, 20, false).finding.value);
  }
}
