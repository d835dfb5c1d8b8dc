/** Correlation groups over findings: merge, split and replay, on top of the decision ledger. */
module Correlations {
  import opened Options
  import opened Decisions
  import D = DecisionLaws

  datatype Member = Member(finding: string, ordinal: nat, active: bool, original: Decision)
  datatype GroupState = Grouped | Dissolved

  /** A request as its digest binds it; the SHA-256 of the request is taken to be the request. */
  datatype Request =
    | Merge(primary: string, other: string, revision: nat, primaryRevision: nat, otherRevision: nat,
            primaryEvidence: nat, otherEvidence: nat, decision: Decision, actor: string, rationale: string, key: string)
    | Split(primary: string, other: string, revision: nat, primaryRevision: nat, otherRevision: nat,
            primaryEvidence: nat, otherEvidence: nat, decision: Decision, otherDecision: Decision, actor: string,
            rationale: string, key: string)

  datatype Event = Event(sequence: nat, request: Request)
  datatype Group = Group(primary: string, state: GroupState, revision: nat, members: seq<Member>, events: seq<Event>)

  datatype Registry = Registry(ledger: Ledger, groups: map<string, Group>)

  /** Facts about a request that live outside these tables: role, owner and evidence checks. */
  datatype Checks = Checks(allowed: bool, ownerOk: bool, otherOwnerOk: bool, evidenceOk: bool)

  function Actives(members: seq<Member>): set<nat> {
    set i: nat | i < |members| && members[i].active
  }

  predicate ActiveIn(g: Group, finding: string) {
    g.state == Grouped && exists i :: 0 <= i < |g.members| && g.members[i].finding == finding && g.members[i].active
  }

  predicate Ungrouped(r: Registry, finding: string) {
    forall g <- r.groups :: !ActiveIn(r.groups[g], finding)
  }

  predicate Holds(g: Group, key: string) {
    exists i :: 0 <= i < |g.events| && g.events[i].request.key == key
  }

  predicate KeyTaken(r: Registry, key: string) {
    exists g <- r.groups :: Holds(r.groups[g], key)
  }

  /** The group has answered exactly this request before. */
  predicate Answered(r: Registry, id: string, q: Request) {
    id in r.groups && exists i :: 0 <= i < |r.groups[id].events| && r.groups[id].events[i].request == q
  }

  /** `workVisible`: a finding that is not hidden behind another primary. */
  predicate Visible(r: Registry, finding: string) {
    forall g <- r.groups :: ActiveIn(r.groups[g], finding) ==> r.groups[g].primary == finding
  }

  /** The revisions named in the request are still current. */
  predicate Fresh(l: Ledger, q: Request) {
    q.primary in l.findings && q.other in l.findings && q.primary != q.other &&
    l.findings[q.primary].revision == q.primaryRevision && l.findings[q.other].revision == q.otherRevision
  }

  predicate Mergeable(r: Registry, q: Request, c: Checks) {
    q.Merge? && c.allowed && c.evidenceOk && !KeyTaken(r, q.key) && Fresh(r.ledger, q) &&
    r.ledger.findings[q.primary].asset == r.ledger.findings[q.other].asset &&
    r.ledger.findings[q.primary].source != r.ledger.findings[q.other].source && Ungrouped(r, q.other) &&
    Sensible(q.decision)
  }

  function Decided(l: Ledger, q: Request, c: Checks): Option<Ledger> {
    Decide(l, q.primary, q.decision, c.ownerOk, q.rationale)
  }

  /** The first merge of a primary creates its group with both findings. */
  function MergeNew(r: Registry, q: Request, id: string, c: Checks): Option<Registry> {
    if !Mergeable(r, q, c) || !Ungrouped(r, q.primary) || q.revision != 0 || id in r.groups then None
    else
      var l := Decided(r.ledger, q, c);
      if l.None? then None
      else
        var members := [Member(q.primary, 0, true, Read(r.ledger, q.primary)),
                        Member(q.other, 1, true, Read(r.ledger, q.other))];
        Some(Registry(l.value, r.groups[id := Group(q.primary, Grouped, 1, members, [Event(1, q)])]))
  }

  /** A released member never comes back, and two active members never share a source. */
  predicate Admits(l: Ledger, g: Group, q: Request)
    requires q.other in l.findings
  {
    |g.members| <= 63 &&
    forall i :: 0 <= i < |g.members| ==>
      g.members[i].finding != q.other && g.members[i].finding in l.findings &&
      (g.members[i].active ==> l.findings[g.members[i].finding].source != l.findings[q.other].source)
  }

  function Grown(g: Group, q: Request, original: Decision): Group {
    g.(revision := g.revision + 1, members := g.members + [Member(q.other, |g.members|, true, original)],
       events := g.events + [Event(g.revision + 1, q)])
  }

  /** A later merge appends one finding. */
  function MergeInto(r: Registry, q: Request, id: string, c: Checks): Option<Registry> {
    if !Mergeable(r, q, c) || id !in r.groups then None
    else
      var g := r.groups[id];
      if !ActiveIn(g, q.primary) || g.primary != q.primary || g.revision != q.revision ||
         !Admits(r.ledger, g, q) then None
      else
        var l := Decided(r.ledger, q, c);
        if l.None? then None
        else Some(Registry(l.value, r.groups[id := Grown(g, q, Read(r.ledger, q.other))]))
  }

  predicate Splittable(r: Registry, q: Request, id: string, c: Checks) {
    q.Split? && c.allowed && c.evidenceOk && !KeyTaken(r, q.key) && Fresh(r.ledger, q) && id in r.groups &&
    r.groups[id].state == Grouped && r.groups[id].primary == q.primary && r.groups[id].revision == q.revision &&
    |Actives(r.groups[id].members)| >= 2 && ActiveIn(r.groups[id], q.other) &&
    Sensible(q.decision) && Sensible(q.otherDecision)
  }

  function Released(members: seq<Member>, all: bool, finding: string): (result: seq<Member>)
    ensures |result| == |members|
  {
    seq(|members|, i requires 0 <= i < |members| =>
      if all || members[i].finding == finding then members[i].(active := false) else members[i])
  }

  /** Releasing one of the last two members dissolves the group. */
  function Parted(g: Group, q: Request): Group {
    var terminal := |Actives(g.members)| == 2;
    g.(state := if terminal then Dissolved else Grouped, revision := g.revision + 1,
       members := Released(g.members, terminal, q.other), events := g.events + [Event(g.revision + 1, q)])
  }

  function SplitFrom(r: Registry, q: Request, id: string, c: Checks): Option<Registry> {
    if !Splittable(r, q, id, c) then None
    else
      var first := Decided(r.ledger, q, c);
      if first.None? then None
      else
        var second := Decide(first.value, q.other, q.otherDecision, c.otherOwnerOk, q.rationale);
        if second.None? then None
        else Some(Registry(second.value, r.groups[id := Parted(r.groups[id], q)]))
  }

  datatype Step =
    | MergeFirst(request: Request, id: string, checks: Checks)
    | MergeMore(request: Request, id: string, checks: Checks)
    | SplitOff(request: Request, id: string, checks: Checks)
    | Decision_(step: D.Step)

  function Kept(r: Registry, next: Option<Registry>): Registry {
    if next.Some? then next.value else r
  }

  /** Patches and notes reach visible findings only; merges and splits write decisions themselves. */
  predicate Reaches(r: Registry, s: D.Step) {
    match s
    case PatchOne(id, _, _) => Visible(r, id)
    case PatchMany(ids, _, _) => forall id <- ids :: Visible(r, id)
    case AddNote(id) => Visible(r, id)
    case DecideOne(_, _, _, _) => false
    case _ => true
  }

  function Apply(r: Registry, s: Step): Registry {
    match s
    case MergeFirst(q, id, c) => Kept(r, MergeNew(r, q, id, c))
    case MergeMore(q, id, c) => Kept(r, MergeInto(r, q, id, c))
    case SplitOff(q, id, c) => Kept(r, SplitFrom(r, q, id, c))
    case Decision_(step) => if Reaches(r, step) then r.(ledger := D.Apply(r.ledger, step)) else r
  }

  function Empty(now: int): Registry {
    Registry(Ledger(now, map[], map[]), map[])
  }

  function Run(r: Registry, steps: seq<Step>): Registry {
    if steps == [] then r else Apply(Run(r, steps[..|steps| - 1]), steps[|steps| - 1])
  }
}
