/** A manual delivery that uses a policy's idempotency key, from an empty workspace on. */
module HeldKey {
  import opened Options
  import opened Deliveries
  import opened DeliveryBinding
  import opened Notifications
  import opened NotificationLaws
  import opened EvaluationLaws

  function AnyRules(): Rules {
    Rules(_ => true, _ => true, (_, _, _) => true, _ => true, _ => true, _ => true, _ => true)
  }

  function Here(): Site { Site(AnyRules(), "w") }

  /** A Slack channel. */
  function Channel(): Connection { Connection("n", 1, Slack, true, "x", None, None, None) }

  function Wanting(policy: string): Revision {
    Revision(policy, "p", "c", Slack, 1, true, [New], Info, 1, 1, "u")
  }

  function Seen(): Event { Event(1, "t", High, "a", New, Pending, None, 0, None) }

  /** The policy exists and the change has been recorded. */
  function Prepared(policy: string, finding: string): Board {
    Board(0, 1, map[policy := Wanting(policy)], [Wanting(policy)], map["c" := Channel()], map["r" := 1],
          map[(finding, 1) := Seen()], [], [], map[])
  }

  function Setup(policy: string, finding: string): seq<Step> {
    [PutConnection("c", Channel()), CreatePolicy(policy, Wanting(policy)), ReadEpoch("r"),
     RecordChange("r", (finding, 1), "t", High, "a", New)]
  }

  lemma FourSteps(site: Site, b: Board, s: Step, t: Step, u: Step, v: Step)
    ensures Run(site, b, [s, t, u, v]) == Apply(site, Apply(site, Apply(site, Apply(site, b, s), t), u), v)
  {
    assert [s, t, u, v][..3] == [s, t, u];
    assert [s, t, u][..2] == [s, t];
    assert [s, t][..1] == [s];
    assert [s][..0] == [];
    assert Run(site, b, [s]) == Apply(site, b, s);
    assert Run(site, b, [s, t]) == Apply(site, Run(site, b, [s]), t);
    assert Run(site, b, [s, t, u]) == Apply(site, Run(site, b, [s, t]), u);
  }

  lemma WithChannel(b: Board)
    requires b == Empty(0)
    ensures Apply(Here(), b, PutConnection("c", Channel())) == b.(connections := map["c" := Channel()])
  {
    assert 'n' in "n" && !Space('n');
    assert ConnectionOk(AnyRules(), Channel());
  }

  lemma WithPolicy(b: Board, policy: string)
    requires b == Empty(0).(connections := map["c" := Channel()]) && ValidId(policy)
    ensures Apply(Here(), b, CreatePolicy(policy, Wanting(policy))) ==
            b.(epoch := 1, policies := map[policy := Wanting(policy)], revisions := [Wanting(policy)])
  {}

  lemma SetupRuns(policy: string, finding: string)
    requires ValidId(policy) && ValidId(finding)
    ensures Run(Here(), Empty(0), Setup(policy, finding)) == Prepared(policy, finding)
  {
    var steps := Setup(policy, finding);
    FourSteps(Here(), Empty(0), steps[0], steps[1], steps[2], steps[3]);
    var b := Apply(Here(), Empty(0), steps[0]);
    WithChannel(Empty(0));
    WithPolicy(b, policy);
  }

  /** The manual request: same finding, same channel, and the key that the policy will need. */
  function Request(policy: string, finding: string): Step {
    Enqueue("m", "u", "c", Facts(finding, "t", "high", "a"), PolicyKey(policy, finding, 1), "o", "e")
  }

  lemma RequestTakesKey(policy: string, finding: string)
    requires ValidId(policy) && ValidId(finding)
    ensures var b := Apply(Here(), Prepared(policy, finding), Request(policy, finding));
            |b.deliveries| == 1 && KeyHeld(b.deliveries, PolicyKey(policy, finding, 1)) &&
            b == Prepared(policy, finding).(deliveries := b.deliveries)
  {
    PolicyKeyIsText(policy, finding, 1);
    var b := Apply(Here(), Prepared(policy, finding), Request(policy, finding));
    assert b.deliveries[0].key == PolicyKey(policy, finding, 1);
  }

  lemma OneWord(s: string)
    requires s == "t" || s == "a"
    ensures ValidText(s, 256)
  {
    assert s[0] in s && !Space(s[0]);
  }

  lemma PolicyWants(policy: string, finding: string, b: Board)
    requires ValidId(policy) && b == Prepared(policy, finding).(deliveries := b.deliveries)
    ensures EpochsOk(b) && Wanted(b.revisions, Seen(), policy)
    ensures Latest(b.revisions, policy, 1) == Some(Wanting(policy))
  {
    var r := Wanting(policy);
    assert b.revisions == [r] && [r][..0] == [];
    assert Latest(b.revisions, policy, 1) == Some(r);
    forall p ensures Get(b.policies, p) == Latest(b.revisions, p, b.epoch) {
      assert Latest([r], p, 1) == if policy == p then Some(r) else None;
    }
  }

  lemma PolicySends(policy: string, finding: string, b: Board)
    requires b == Prepared(policy, finding).(deliveries := b.deliveries)
    ensures !Stale(Here(), b, Wanting(policy)) && Sends(Here(), b, (finding, 1), Seen(), Wanting(policy))
  {
    OneWord("t");
    OneWord("a");
    var r := Wanting(policy);
    forall sender: Sender | sender.origin != "" && policy in sender.ids
      ensures Draft(Here(), b, (finding, 1), Seen(), r, sender.ids[policy], sender).Some?
    {
    }
  }

  lemma BlockedFrom(site: Site, b: Board, policy: string, finding: string, later: seq<Step>)
    requires site == Here() && ValidId(policy) && ValidId(finding)
    requires b == Prepared(policy, finding).(deliveries := b.deliveries) &&
             KeyHeld(b.deliveries, PolicyKey(policy, finding, 1))
    requires forall i :: 0 <= i < |later| ==> WellNamed(later[i], (finding, 1))
    ensures (finding, 1) in Run(site, b, later).events
    ensures Run(site, b, later).events[(finding, 1)].state == Evaluated <==>
              exists i: nat :: LetThroughAt(site, b, later, (finding, 1), policy, i)
  {
    PolicyWants(policy, finding, b);
    PolicySends(policy, finding, b);
    InOrderEndsIff(site, b, later, (finding, 1), policy);
  }

  /** The manual delivery is accepted. From then on the change becomes evaluated exactly when a live holder
      evaluates it after an edit of the channel, or without a public origin of its own; until then no policy's
      delivery for this change can be inserted. */
  lemma ManualKeyBlocksPolicies(site: Site, policy: string, finding: string, later: seq<Step>)
    requires site == Here() && ValidId(policy) && ValidId(finding)
    requires forall i :: 0 <= i < |later| ==> WellNamed(later[i], (finding, 1))
    ensures var b := Apply(site, Run(site, Empty(0), Setup(policy, finding)), Request(policy, finding));
            |b.deliveries| == 1 && (finding, 1) in Run(site, b, later).events &&
            (Run(site, b, later).events[(finding, 1)].state == Evaluated <==>
               exists i: nat :: LetThroughAt(site, b, later, (finding, 1), policy, i))
  {
    SetupRuns(policy, finding);
    RequestTakesKey(policy, finding);
    BlockedFrom(site, Apply(site, Prepared(policy, finding), Request(policy, finding)), policy, finding, later);
  }

  /** The next worker claims the change and evaluates it. */
  function Retry(policy: string, finding: string, origin: string): seq<Step> {
    [ClaimEvent((finding, 1), "v", 1),
     Evaluate((finding, 1), "v", 1, [policy], Sender(origin, "e", map[policy := "d"]))]
  }

  lemma TwoSteps(site: Site, b: Board, s: Step, t: Step)
    ensures Run(site, b, [s, t]) == Apply(site, Apply(site, b, s), t)
  {
    assert [s, t][..1] == [s] && [s][..0] == [];
    assert Run(site, b, [s]) == Apply(site, b, s);
  }

  function Claimed(b: Board, finding: string): Board {
    var e := Seen().(state := Processing, worker := Some("v"), fence := 1, leaseUntil := Some(1));
    b.(events := map[(finding, 1) := e])
  }

  lemma ClaimRuns(site: Site, b: Board, policy: string, finding: string)
    requires b == Prepared(policy, finding).(deliveries := b.deliveries)
    ensures Apply(site, b, ClaimEvent((finding, 1), "v", 1)) == Claimed(b, finding)
  {}

  lemma OnlyPolicy(c: Board, policy: string, e: Event)
    requires c.revisions == [Wanting(policy)] && e.epoch == 1
    ensures Selects(c, e, [policy]) && Pick(c, e, [policy]) == [Wanting(policy)]
  {
    var r := Wanting(policy);
    assert [r][..0] == [];
    forall p ensures Latest([r], p, 1) == if policy == p then Some(r) else None {}
  }

  /** Whether the retry gets past depends on the worker's origin alone. */
  lemma RetryGetsPast(site: Site, c: Board, b: Board, policy: string, finding: string, sender: Sender)
    requires site == Here() && b == Prepared(policy, finding).(deliveries := b.deliveries) && c == Claimed(b, finding)
    requires sender.ids == map[policy := "d"] && (finding, 1) in c.events
    ensures GetsPast(site, c, (finding, 1), c.events[(finding, 1)], [Wanting(policy)], 0, sender) <==>
              sender.origin == ""
  {
    PolicySends(policy, finding, b);
    assert Draft(site, c, (finding, 1), c.events[(finding, 1)], Wanting(policy), "d", sender) ==
           Draft(site, b, (finding, 1), Seen(), Wanting(policy), "d", sender);
  }

  lemma RetryFrom(site: Site, b: Board, policy: string, finding: string, origin: string)
    requires site == Here() && ValidId(policy) && ValidId(finding)
    requires b == Prepared(policy, finding).(deliveries := b.deliveries) &&
             KeyHeld(b.deliveries, PolicyKey(policy, finding, 1))
    ensures (finding, 1) in Run(site, b, Retry(policy, finding, origin)).events
    ensures Run(site, b, Retry(policy, finding, origin)).events[(finding, 1)].state == Evaluated <==> origin == ""
  {
    var steps := Retry(policy, finding, origin);
    var c, sender := Claimed(b, finding), steps[1].sender;
    TwoSteps(site, b, steps[0], steps[1]);
    ClaimRuns(site, b, policy, finding);
    PolicyWants(policy, finding, b);
    OnlyPolicy(c, policy, c.events[(finding, 1)]);
    assert EpochsOk(c);
    EvaluateEnds(site, c, steps[1], (finding, 1), policy);
    RetryGetsPast(site, c, b, policy, finding, sender);
  }

  /** After the manual delivery, a worker with a public origin fails to evaluate the change, and a worker without
      one succeeds, with the channel as it is. */
  lemma OriginDecidesRetry(site: Site, policy: string, finding: string, origin: string)
    requires site == Here() && ValidId(policy) && ValidId(finding)
    ensures var b := Apply(site, Run(site, Empty(0), Setup(policy, finding)), Request(policy, finding));
            var c := Run(site, b, Retry(policy, finding, origin));
            c.connections == b.connections && (finding, 1) in c.events &&
            (c.events[(finding, 1)].state == Evaluated <==> origin == "")
  {
    SetupRuns(policy, finding);
    RequestTakesKey(policy, finding);
    var b := Apply(site, Prepared(policy, finding), Request(policy, finding));
    RetryFrom(site, b, policy, finding, origin);
    TwoSteps(site, b, Retry(policy, finding, origin)[0], Retry(policy, finding, origin)[1]);
  }
}
