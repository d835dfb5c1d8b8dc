/** The structure every run of merges, splits and decision edits keeps. */
module CorrelationLaws {
  import opened Options
  import opened Decisions
  import opened Correlations
  import D = DecisionLaws

  // ----- one group -----

  predicate MembersOk(g: Group) {
    2 <= |g.members| <= 64 && g.members[0].finding == g.primary &&
    (forall i :: 0 <= i < |g.members| ==> g.members[i].ordinal == i) &&
    (forall i, j :: 0 <= i < j < |g.members| ==> g.members[i].finding != g.members[j].finding)
  }

  predicate EventsOk(g: Group) {
    |g.events| == g.revision && forall i :: 0 <= i < |g.events| ==> g.events[i].sequence == i + 1
  }

  /** An active group has its primary and another active member; a dissolved one has none. */
  predicate ActivityOk(g: Group) {
    (g.state == Grouped ==> g.members != [] && g.members[0].active && |Actives(g.members)| >= 2) &&
    (g.state == Dissolved ==> forall i :: 0 <= i < |g.members| ==> !g.members[i].active)
  }

  /** Members lie on one asset, and active members come from different sources. */
  predicate PlacesOk(l: Ledger, g: Group) {
    (forall i :: 0 <= i < |g.members| ==> g.members[i].finding in l.findings) &&
    g.primary in l.findings &&
    (forall i :: 0 <= i < |g.members| ==> l.findings[g.members[i].finding].asset == l.findings[g.primary].asset) &&
    (forall i, j :: 0 <= i < j < |g.members| && g.members[i].active && g.members[j].active ==>
                    l.findings[g.members[i].finding].source != l.findings[g.members[j].finding].source)
  }

  predicate GroupOk(l: Ledger, g: Group) {
    MembersOk(g) && EventsOk(g) && ActivityOk(g) && PlacesOk(l, g)
  }

  // ----- all groups -----

  predicate Apart(g: Group, h: Group) {
    forall i, j :: 0 <= i < |g.members| && 0 <= j < |h.members| && g.members[i].active && h.members[j].active ==>
      g.members[i].finding != h.members[j].finding
  }

  predicate KeysApart(g: Group, h: Group) {
    forall i, j :: 0 <= i < |g.events| && 0 <= j < |h.events| ==> g.events[i].request.key != h.events[j].request.key
  }

  predicate KeysDistinct(g: Group) {
    forall i, j :: 0 <= i < j < |g.events| ==> g.events[i].request.key != g.events[j].request.key
  }

  predicate GroupsOk(r: Registry) {
    (forall g <- r.groups :: GroupOk(r.ledger, r.groups[g]) && KeysDistinct(r.groups[g])) &&
    (forall g <- r.groups, h <- r.groups :: g != h ==>
       Apart(r.groups[g], r.groups[h]) && KeysApart(r.groups[g], r.groups[h]))
  }

  predicate Inv(r: Registry) {
    D.LedgerOk(r.ledger) && GroupsOk(r)
  }

  /** Findings never leave, and never move to another asset or source. */
  predicate SamePlaces(l: Ledger, m: Ledger) {
    forall id <- l.findings ::
      id in m.findings && m.findings[id].asset == l.findings[id].asset && m.findings[id].source == l.findings[id].source
  }

  lemma {:induction false} ManyKeepPlaces(l: Ledger, ids: seq<string>, patches: map<string, Patch>, ownerOk: bool)
    requires PatchFindings(l, ids, patches, ownerOk).Some?
    ensures SamePlaces(l, PatchFindings(l, ids, patches, ownerOk).value)
  {
    if ids != [] { ManyKeepPlaces(l, ids[..|ids| - 1], patches, ownerOk); }
  }

  lemma LedgerStepsKeepPlaces(l: Ledger, s: D.Step)
    ensures SamePlaces(l, D.Apply(l, s))
  {
    match s
    case PatchMany(ids, patches, ownerOk) =>
      if PatchFindings(l, ids, patches, ownerOk).Some? { ManyKeepPlaces(l, ids, patches, ownerOk); }
    case _ =>
  }

  lemma GroupsStayPut(l: Ledger, m: Ledger, g: Group)
    requires GroupOk(l, g) && SamePlaces(l, m)
    ensures GroupOk(m, g)
  {}

  /** Replacing one group keeps the registry in order when the new group is, and keeps apart from the rest. */
  lemma ReplaceKeepsGroups(r: Registry, l: Ledger, id: string, g: Group)
    requires GroupsOk(r) && SamePlaces(r.ledger, l) && GroupOk(l, g) && KeysDistinct(g)
    requires forall h <- r.groups :: h != id ==> Apart(r.groups[h], g) && KeysApart(r.groups[h], g)
    ensures GroupsOk(Registry(l, r.groups[id := g]))
  {
    var q := Registry(l, r.groups[id := g]);
    forall h <- q.groups ensures GroupOk(l, q.groups[h]) && KeysDistinct(q.groups[h]) {
      if h != id { GroupsStayPut(r.ledger, l, r.groups[h]); }
    }
  }

  lemma NotHeld(r: Registry, key: string, h: string)
    requires !KeyTaken(r, key) && h in r.groups
    ensures forall i :: 0 <= i < |r.groups[h].events| ==> r.groups[h].events[i].request.key != key
  {
    if i :| 0 <= i < |r.groups[h].events| && r.groups[h].events[i].request.key == key {
      assert Holds(r.groups[h], key);
    }
  }

  lemma NotActive(r: Registry, finding: string, h: string)
    requires GroupsOk(r) && Ungrouped(r, finding) && h in r.groups
    ensures forall i :: 0 <= i < |r.groups[h].members| && r.groups[h].members[i].active ==>
              r.groups[h].members[i].finding != finding
  {
    if i :| 0 <= i < |r.groups[h].members| && r.groups[h].members[i].active &&
            r.groups[h].members[i].finding == finding {
      assert GroupOk(r.ledger, r.groups[h]);
      assert ActiveIn(r.groups[h], finding);
    }
  }

  lemma DecideKeeps(l: Ledger, id: string, d: Decision, ownerOk: bool, fallback: string)
    requires D.LedgerOk(l) && Decide(l, id, d, ownerOk, fallback).Some? && Sensible(d)
    ensures D.LedgerOk(Decide(l, id, d, ownerOk, fallback).value) &&
            SamePlaces(l, Decide(l, id, d, ownerOk, fallback).value)
  {
    D.DecideReadsBack(l, id, d, ownerOk, fallback);
  }

  // ----- merge -----

  lemma PairIsGroup(l: Ledger, q: Request, first: Decision, second: Decision)
    requires q.Merge? && q.primary != q.other && q.primary in l.findings && q.other in l.findings
    requires l.findings[q.primary].asset == l.findings[q.other].asset &&
             l.findings[q.primary].source != l.findings[q.other].source
    ensures GroupOk(l, Group(q.primary, Grouped, 1,
                             [Member(q.primary, 0, true, first), Member(q.other, 1, true, second)], [Event(1, q)]))
  {
    var members := [Member(q.primary, 0, true, first), Member(q.other, 1, true, second)];
    assert Actives(members) == {0, 1};
  }

  lemma PairKeepsGroups(r: Registry, l: Ledger, q: Request, id: string, g: Group)
    requires GroupsOk(r) && SamePlaces(r.ledger, l) && !KeyTaken(r, q.key) && Ungrouped(r, q.primary) &&
             Ungrouped(r, q.other)
    requires GroupOk(l, g) && g.events == [Event(1, q)] && |g.members| == 2 && g.members[0].finding == q.primary &&
             g.members[1].finding == q.other
    ensures GroupsOk(Registry(l, r.groups[id := g]))
  {
    forall h <- r.groups ensures Apart(r.groups[h], g) && KeysApart(r.groups[h], g) {
      NotActive(r, q.primary, h);
      NotActive(r, q.other, h);
      NotHeld(r, q.key, h);
    }
    ReplaceKeepsGroups(r, l, id, g);
  }

  lemma MergeNewKeepsInv(r: Registry, q: Request, id: string, c: Checks)
    requires Inv(r) && MergeNew(r, q, id, c).Some?
    ensures Inv(MergeNew(r, q, id, c).value)
  {
    var l := Decided(r.ledger, q, c).value;
    DecideKeeps(r.ledger, q.primary, q.decision, c.ownerOk, q.rationale);
    PairIsGroup(l, q, Read(r.ledger, q.primary), Read(r.ledger, q.other));
    PairKeepsGroups(r, l, q, id, MergeNew(r, q, id, c).value.groups[id]);
    assert MergeNew(r, q, id, c).value == Registry(l, r.groups[id := MergeNew(r, q, id, c).value.groups[id]]);
  }

  lemma MoreActives(members: seq<Member>, m: Member)
    requires m.active
    ensures Actives(members + [m]) == Actives(members) + {|members|} && |members| !in Actives(members)
  {}

  lemma GrownMembers(g: Group, q: Request, original: Decision)
    requires MembersOk(g) && EventsOk(g) && ActivityOk(g) && g.state == Grouped && |g.members| <= 63
    requires forall i :: 0 <= i < |g.members| ==> g.members[i].finding != q.other
    ensures MembersOk(Grown(g, q, original)) && EventsOk(Grown(g, q, original)) && ActivityOk(Grown(g, q, original))
  {
    MoreActives(g.members, Member(q.other, |g.members|, true, original));
  }

  lemma GrownPlaces(l: Ledger, g: Group, q: Request, original: Decision)
    requires PlacesOk(l, g) && q.other in l.findings && l.findings[q.other].asset == l.findings[g.primary].asset
    requires forall i :: 0 <= i < |g.members| && g.members[i].active ==>
               l.findings[g.members[i].finding].source != l.findings[q.other].source
    ensures PlacesOk(l, Grown(g, q, original))
  {}

  lemma GrownIsGroup(l: Ledger, g: Group, q: Request, original: Decision)
    requires GroupOk(l, g) && g.state == Grouped && q.Merge? && q.other in l.findings && Admits(l, g, q)
    requires l.findings[q.other].asset == l.findings[g.primary].asset
    ensures GroupOk(l, Grown(g, q, original))
  {
    GrownMembers(g, q, original);
    GrownPlaces(l, g, q, original);
  }

  lemma GrownStaysApart(h: Group, g: Group, q: Request, original: Decision)
    requires Apart(h, g) && KeysApart(h, g)
    requires forall i :: 0 <= i < |h.members| && h.members[i].active ==> h.members[i].finding != q.other
    requires forall i :: 0 <= i < |h.events| ==> h.events[i].request.key != q.key
    ensures Apart(h, Grown(g, q, original)) && KeysApart(h, Grown(g, q, original))
  {}

  lemma KeyAddsApart(g: Group, e: Event)
    requires KeysDistinct(g) && forall i :: 0 <= i < |g.events| ==> g.events[i].request.key != e.request.key
    ensures forall s: seq<Event> :: s == g.events + [e] ==> forall i, j :: 0 <= i < j < |s| ==>
              s[i].request.key != s[j].request.key
  {}

  lemma GrownKeepsGroups(r: Registry, l: Ledger, q: Request, id: string, original: Decision)
    requires GroupsOk(r) && SamePlaces(r.ledger, l) && !KeyTaken(r, q.key) && Ungrouped(r, q.other) && id in r.groups
    requires GroupOk(l, Grown(r.groups[id], q, original))
    ensures GroupsOk(Registry(l, r.groups[id := Grown(r.groups[id], q, original)]))
  {
    var was, g := r.groups[id], Grown(r.groups[id], q, original);
    forall h <- r.groups | h != id ensures Apart(r.groups[h], g) && KeysApart(r.groups[h], g) {
      NotActive(r, q.other, h);
      NotHeld(r, q.key, h);
      GrownStaysApart(r.groups[h], was, q, original);
    }
    NotHeld(r, q.key, id);
    KeyAddsApart(was, Event(was.revision + 1, q));
    ReplaceKeepsGroups(r, l, id, g);
  }

  lemma AdmitsAfter(l: Ledger, m: Ledger, g: Group, q: Request)
    requires SamePlaces(l, m) && q.other in l.findings && Admits(l, g, q)
    ensures q.other in m.findings && Admits(m, g, q)
  {}

  lemma MergeIntoKeepsInv(r: Registry, q: Request, id: string, c: Checks)
    requires Inv(r) && MergeInto(r, q, id, c).Some?
    ensures Inv(MergeInto(r, q, id, c).value)
  {
    var l := Decided(r.ledger, q, c).value;
    var was, original := r.groups[id], Read(r.ledger, q.other);
    DecideKeeps(r.ledger, q.primary, q.decision, c.ownerOk, q.rationale);
    GroupsStayPut(r.ledger, l, was);
    AdmitsAfter(r.ledger, l, was, q);
    GrownIsGroup(l, was, q, original);
    GrownKeepsGroups(r, l, q, id, original);
    assert MergeInto(r, q, id, c).value == Registry(l, r.groups[id := Grown(was, q, original)]);
  }

  // ----- split -----

  lemma FewerActives(members: seq<Member>, k: nat)
    requires k < |members| && members[k].active &&
             forall i, j :: 0 <= i < j < |members| ==> members[i].finding != members[j].finding
    ensures Actives(Released(members, false, members[k].finding)) == Actives(members) - {k}
  {
    var after := Released(members, false, members[k].finding);
    forall i: nat | i < |members| ensures after[i].active <==> members[i].active && i != k {
      assert i != k ==> members[i].finding != members[k].finding;
    }
  }

  lemma PartedMembers(g: Group, q: Request)
    requires MembersOk(g) && EventsOk(g)
    ensures MembersOk(Parted(g, q)) && EventsOk(Parted(g, q))
  {}

  lemma PartedActivity(g: Group, q: Request)
    requires MembersOk(g) && ActivityOk(g) && g.state == Grouped && q.other != g.primary && ActiveIn(g, q.other)
    ensures ActivityOk(Parted(g, q))
  {
    var k :| 0 <= k < |g.members| && g.members[k].finding == q.other && g.members[k].active;
    FewerActives(g.members, k);
  }

  lemma PartedPlaces(l: Ledger, g: Group, q: Request)
    requires PlacesOk(l, g)
    ensures PlacesOk(l, Parted(g, q))
  {}

  lemma PartedIsGroup(l: Ledger, g: Group, q: Request)
    requires GroupOk(l, g) && g.state == Grouped && q.other != g.primary && ActiveIn(g, q.other)
    ensures GroupOk(l, Parted(g, q))
  {
    PartedMembers(g, q);
    PartedActivity(g, q);
    PartedPlaces(l, g, q);
  }

  lemma PartedStaysApart(h: Group, g: Group, q: Request)
    requires Apart(h, g) && KeysApart(h, g) && forall i :: 0 <= i < |h.events| ==> h.events[i].request.key != q.key
    ensures Apart(h, Parted(g, q)) && KeysApart(h, Parted(g, q))
  {}

  lemma PartedKeepsGroups(r: Registry, l: Ledger, q: Request, id: string)
    requires GroupsOk(r) && SamePlaces(r.ledger, l) && !KeyTaken(r, q.key) && id in r.groups &&
             GroupOk(l, Parted(r.groups[id], q))
    ensures GroupsOk(Registry(l, r.groups[id := Parted(r.groups[id], q)]))
  {
    var was, g := r.groups[id], Parted(r.groups[id], q);
    forall h <- r.groups | h != id ensures Apart(r.groups[h], g) && KeysApart(r.groups[h], g) {
      NotHeld(r, q.key, h);
      PartedStaysApart(r.groups[h], was, q);
    }
    NotHeld(r, q.key, id);
    KeyAddsApart(was, Event(was.revision + 1, q));
    ReplaceKeepsGroups(r, l, id, g);
  }

  lemma SamePlacesTwice(k: Ledger, l: Ledger, m: Ledger)
    requires SamePlaces(k, l) && SamePlaces(l, m)
    ensures SamePlaces(k, m)
  {}

  lemma SplitKeepsInv(r: Registry, q: Request, id: string, c: Checks)
    requires Inv(r) && SplitFrom(r, q, id, c).Some?
    ensures Inv(SplitFrom(r, q, id, c).value)
  {
    var first := Decided(r.ledger, q, c).value;
    DecideKeeps(r.ledger, q.primary, q.decision, c.ownerOk, q.rationale);
    DecideKeeps(first, q.other, q.otherDecision, c.otherOwnerOk, q.rationale);
    var l := Decide(first, q.other, q.otherDecision, c.otherOwnerOk, q.rationale).value;
    SamePlacesTwice(r.ledger, first, l);
    GroupsStayPut(r.ledger, l, r.groups[id]);
    PartedIsGroup(l, r.groups[id], q);
    PartedKeepsGroups(r, l, q, id);
    assert SplitFrom(r, q, id, c).value == Registry(l, r.groups[id := Parted(r.groups[id], q)]);
  }

  lemma StepKeepsInv(r: Registry, s: Step)
    requires Inv(r)
    ensures Inv(Apply(r, s))
  {
    match s
    case MergeFirst(q, id, c) => if MergeNew(r, q, id, c).Some? { MergeNewKeepsInv(r, q, id, c); }
    case MergeMore(q, id, c) => if MergeInto(r, q, id, c).Some? { MergeIntoKeepsInv(r, q, id, c); }
    case SplitOff(q, id, c) => if SplitFrom(r, q, id, c).Some? { SplitKeepsInv(r, q, id, c); }
    case Decision_(step) =>
      D.StepRefines(r.ledger, step);
      LedgerStepsKeepPlaces(r.ledger, step);
      forall g <- r.groups ensures GroupOk(D.Apply(r.ledger, step), r.groups[g]) {
        GroupsStayPut(r.ledger, D.Apply(r.ledger, step), r.groups[g]);
      }
  }

  /** Every reachable registry: groups well formed, events numbered 1 to the revision, keys used once. */
  lemma {:induction false} RunKeepsInv(r: Registry, steps: seq<Step>)
    requires Inv(r)
    ensures Inv(Run(r, steps))
  {
    if steps != [] {
      RunKeepsInv(r, steps[..|steps| - 1]);
      StepKeepsInv(Run(r, steps[..|steps| - 1]), steps[|steps| - 1]);
    }
  }

  // ----- the theorems -----

  /** A finding is an active member of at most one group, at one place in it, and that group is active. */
  lemma OneGroupPerFinding(start: int, steps: seq<Step>, g: string, i: nat, h: string, j: nat)
    requires var r := Run(Empty(start), steps);
             g in r.groups && h in r.groups && i < |r.groups[g].members| && j < |r.groups[h].members| &&
             r.groups[g].members[i].active && r.groups[h].members[j].active &&
             r.groups[g].members[i].finding == r.groups[h].members[j].finding
    ensures g == h && i == j && Run(Empty(start), steps).groups[g].state == Grouped
  {
    var r := Run(Empty(start), steps);
    RunKeepsInv(Empty(start), steps);
    assert GroupOk(r.ledger, r.groups[g]);
    assert g != h ==> Apart(r.groups[g], r.groups[h]);
  }

  /** The shape of every group in every reachable state. */
  lemma EveryGroupIsOk(start: int, steps: seq<Step>, g: string)
    requires g in Run(Empty(start), steps).groups
    ensures GroupOk(Run(Empty(start), steps).ledger, Run(Empty(start), steps).groups[g])
  {
    RunKeepsInv(Empty(start), steps);
  }

  // ----- replay -----

  /** No group ever loses an event. */
  predicate Remembers(r: Registry, m: Registry) {
    forall g <- r.groups :: g in m.groups && r.groups[g].events <= m.groups[g].events
  }

  lemma StepRemembers(r: Registry, s: Step)
    ensures Remembers(r, Apply(r, s))
  {}

  lemma {:induction false} RunRemembers(r: Registry, steps: seq<Step>)
    ensures Remembers(r, Run(r, steps))
  {
    if steps != [] {
      RunRemembers(r, steps[..|steps| - 1]);
      StepRemembers(Run(r, steps[..|steps| - 1]), steps[|steps| - 1]);
    }
  }

  lemma AnswerIsKept(r: Registry, m: Registry, id: string, q: Request)
    requires Remembers(r, m) && Answered(r, id, q)
    ensures Answered(m, id, q) && KeyTaken(m, q.key)
  {
    var i :| 0 <= i < |r.groups[id].events| && r.groups[id].events[i].request == q;
    assert m.groups[id].events[i].request == q;
    assert Holds(m.groups[id], q.key);
  }

  /** A key belongs to one request of one group. */
  lemma OneAnswerPerKey(r: Registry, g: string, q: Request, h: string, x: Request)
    requires GroupsOk(r) && Answered(r, g, q) && Answered(r, h, x) && q.key == x.key
    ensures g == h && q == x
  {
    var i :| 0 <= i < |r.groups[g].events| && r.groups[g].events[i].request == q;
    var j :| 0 <= j < |r.groups[h].events| && r.groups[h].events[j].request == x;
    assert g != h ==> KeysApart(r.groups[g], r.groups[h]);
    assert KeysDistinct(r.groups[g]);
  }

  lemma StepIsAnswered(r: Registry, s: Step)
    requires !s.Decision_? && Apply(r, s) != r
    ensures Answered(Apply(r, s), s.id, s.request)
  {
    var g := Apply(r, s).groups[s.id];
    assert g.events[|g.events| - 1].request == s.request;
  }

  lemma TakenKeyIsRefused(m: Registry, s: Step)
    requires !s.Decision_? && KeyTaken(m, s.request.key)
    ensures Apply(m, s) == m
  {}

  /** Sending a merge or a split again changes nothing, however much has happened in between: its key is taken
      for good, by this request of this group. */
  lemma ReplayChangesNothing(r: Registry, s: Step, later: seq<Step>)
    requires !s.Decision_? && Apply(r, s) != r
    ensures var m := Run(Apply(r, s), later);
            Apply(m, s) == m && Answered(m, s.id, s.request) && KeyTaken(m, s.request.key)
  {
    var m := Run(Apply(r, s), later);
    StepIsAnswered(r, s);
    RunRemembers(Apply(r, s), later);
    AnswerIsKept(Apply(r, s), m, s.id, s.request);
    TakenKeyIsRefused(m, s);
  }

  /** What readers see of both findings after a split. */
  lemma SplitReadsBack(m: Registry, s: Request, id: string, d: Checks)
    requires Inv(m) && SplitFrom(m, s, id, d).Some?
    ensures var after := SplitFrom(m, s, id, d).value.ledger;
            s.primary in after.findings && s.other in after.findings &&
            Read(after, s.primary) == D.Recorded(s.decision, s.rationale) &&
            Read(after, s.other) == D.Recorded(s.otherDecision, s.rationale)
  {
    D.DecideReadsBack(m.ledger, s.primary, s.decision, d.ownerOk, s.rationale);
    D.DecideReadsBack(Decided(m.ledger, s, d).value, s.other, s.otherDecision, d.otherOwnerOk, s.rationale);
  }

  lemma PairParts(r: Registry, m: Registry, after: Registry, q: Request, s: Request, id: string)
    requires GroupsOk(r) && Ungrouped(r, q.primary) && Ungrouped(r, q.other) && id in m.groups &&
             m.groups == r.groups[id := m.groups[id]]
    requires |m.groups[id].members| == 2 && m.groups[id].members[0].active && m.groups[id].members[1].active
    requires after.groups == m.groups[id := Parted(m.groups[id], s)]
    ensures after.groups[id].state == Dissolved && Ungrouped(after, q.primary) && Ungrouped(after, q.other)
  {
    assert Actives(m.groups[id].members) == {0, 1};
    forall h <- after.groups ensures !ActiveIn(after.groups[h], q.primary) && !ActiveIn(after.groups[h], q.other) {
      if h != id {
        NotActive(r, q.primary, h);
        NotActive(r, q.other, h);
      }
    }
  }

  /** A split that hands back the recorded decisions undoes the merge for every reader: both findings read
      as they did before it, and both can be edited again. */
  lemma SplitUndoesMerge(r: Registry, q: Request, id: string, c: Checks, s: Request, d: Checks)
    requires Inv(r) && MergeNew(r, q, id, c).Some?
    requires var m := MergeNew(r, q, id, c).value;
             SplitFrom(m, s, id, d).Some? && s.other == q.other &&
             s.decision == m.groups[id].members[0].original && s.otherDecision == m.groups[id].members[1].original
    ensures var after := SplitFrom(MergeNew(r, q, id, c).value, s, id, d).value;
            after.groups[id].state == Dissolved && Ungrouped(after, q.primary) && Ungrouped(after, q.other) &&
            Read(after.ledger, q.primary) == Read(r.ledger, q.primary) &&
            Read(after.ledger, q.other) == Read(r.ledger, q.other)
  {
    var m := MergeNew(r, q, id, c).value;
    MergeNewKeepsInv(r, q, id, c);
    MergedPair(r, q, id, c);
    SplitParts(m, s, id, d);
    SplitReadsBack(m, s, id, d);
    OriginalsReadBack(r.ledger, q.primary);
    OriginalsReadBack(r.ledger, q.other);
    PairParts(r, m, SplitFrom(m, s, id, d).value, q, s, id);
  }

  lemma MergedPair(r: Registry, q: Request, id: string, c: Checks)
    requires MergeNew(r, q, id, c).Some?
    ensures q.primary in r.ledger.findings && q.other in r.ledger.findings && Ungrouped(r, q.primary) &&
            Ungrouped(r, q.other)
    ensures var m := MergeNew(r, q, id, c).value;
            id in m.groups && m.groups == r.groups[id := m.groups[id]] && m.groups[id].primary == q.primary &&
            m.groups[id].members ==
            [Member(q.primary, 0, true, Read(r.ledger, q.primary)), Member(q.other, 1, true, Read(r.ledger, q.other))]
  {}

  lemma SplitParts(m: Registry, s: Request, id: string, d: Checks)
    requires SplitFrom(m, s, id, d).Some?
    ensures id in m.groups && m.groups[id].primary == s.primary &&
            SplitFrom(m, s, id, d).value.groups == m.groups[id := Parted(m.groups[id], s)]
  {}

  lemma OriginalsReadBack(l: Ledger, id: string)
    requires D.LedgerOk(l) && id in l.findings
    ensures forall fallback :: D.Recorded(Read(l, id), fallback) == Read(l, id)
    ensures ShapeOk(Read(l, id))
  {
    D.ReadIsOk(l, id);
    assert D.RowOk(l, id);
  }
}
