/** A delivery intent, the digest that binds it, and its trip through the JSON columns and back. */
module DeliveryBinding {
  import opened Options
  import opened Deliveries

  // ----- text -----

  predicate ValidId(id: string) {
    |id| == 32 && forall c <- id :: '0' <= c <= '9' || 'a' <= c <= 'f'
  }

  predicate Space(c: char) { c == ' ' || c == '\t' || c == '\n' || c == '\r' }

  predicate Blank(s: string) { forall c <- s :: Space(c) }

  /** `validText`: not blank, short enough, no NUL. */
  predicate ValidText(s: string, limit: nat) {
    !Blank(s) && |s| <= limit && '\0' !in s
  }

  function Digit(n: nat): char
    requires n < 10
  {
    "0123456789"[n]
  }

  predicate Digits(s: string) {
    forall i :: 0 <= i < |s| ==> '0' <= s[i] <= '9'
  }

  /** `strconv.FormatInt` for a value that is not negative. */
  function Decimal(n: nat): (s: string)
    ensures |s| > 0 && Digits(s)
  {
    if n < 10 then [Digit(n)] else Decimal(n / 10) + [Digit(n % 10)]
  }

  /** `strconv.ParseInt` on digits. */
  function ParseDecimal(s: string): nat
    requires Digits(s)
  {
    if s == [] then 0 else 10 * ParseDecimal(s[..|s| - 1]) + (s[|s| - 1] as int - '0' as int)
  }

  lemma DigitValue(n: nat)
    requires n < 10
    ensures '0' <= Digit(n) <= '9' && Digit(n) as int - '0' as int == n
  {}

  /** A number reads back from its decimal form. */
  lemma {:induction false} DecimalReadsBack(n: nat)
    ensures ParseDecimal(Decimal(n)) == n
  {
    DigitValue(n % 10);
    if n < 10 {
      assert [Digit(n)][..0] == "";
    } else {
      DecimalReadsBack(n / 10);
      var s := Decimal(n);
      assert s[..|s| - 1] == Decimal(n / 10);
    }
  }

  function Power(k: nat): nat { if k == 0 then 1 else 10 * Power(k - 1) }

  lemma {:induction false} DecimalLength(n: nat, k: nat)
    requires 0 < k && n < Power(k)
    ensures |Decimal(n)| <= k
  {
    if n >= 10 {
      assert Power(k) == 10 * Power(k - 1);
      assert k > 1;
      DecimalLength(n / 10, k - 1);
    }
  }

  // ----- values -----

  /** Checks that depend on URL parsing, regular expressions or another package. */
  datatype Rules = Rules(
    jiraIdentity: JiraTarget -> bool, teamsMetadata: TeamsMetadata -> bool, teamsText: (string, string, string) -> bool,
    webhook: WebhookTarget -> bool, webhookOrigin: string -> bool, slackChannel: string -> bool,
    title255: string -> bool)

  datatype Source = FindingId | FindingTitle | FindingSeverity | AssetName | DeepLink | UnknownSource

  /** `mappings` names a source for each custom field, and tells a nil map from an empty one. */
  datatype JiraTarget = JiraTarget(
    credentialType: string, cloudId: string, apiBase: string, siteOrigin: string, project: string, issueType: string,
    mappings: Option<map<string, string>>)
  datatype TeamsMetadata = TeamsMetadata(origin: string, channelType: string, acknowledged: bool)
  datatype TeamsDestination = TeamsDestination(name: string, metadata: TeamsMetadata)
  datatype WebhookTarget = WebhookTarget(origin: string, path: string, signature: string)

  /** `fields` tells a nil map from an empty one. */
  datatype Notification = Notification(title: string, body: string, deepLink: string,
      fields: Option<map<string, string>>)

  datatype TriggerKind = ManualTrigger | PolicyTrigger

  datatype Intent = Intent(
    id: string, workspace: string, finding: string, connection: string, connectionRevision: int, profile: Profile,
    channel: string, actor: string, payload: Notification, jira: Option<JiraTarget>,
    destination: Option<TeamsDestination>,
    webhook: Option<WebhookTarget>, trigger: TriggerKind, policyId: Option<string>, policyRevision: Option<nat>,
    changeRevision: Option<nat>)

  datatype Connection = Connection(
    name: string, revision: int, profile: Profile, enabled: bool, channel: string, jira: Option<JiraTarget>,
    teams: Option<TeamsMetadata>, webhook: Option<WebhookTarget>)

  /** The table's profile/target constraint and the name check of every writer of a connection. */
  predicate ConnectionOk(rules: Rules, c: Connection) {
    ValidText(c.name, 256) &&
    match c.profile
    case Slack => c.jira.None? && c.teams.None? && c.webhook.None? && rules.slackChannel(c.channel)
    case Jira => c.jira.Some? && c.teams.None? && c.webhook.None? && c.channel == ""
    case Teams => c.jira.None? && c.teams.Some? && c.webhook.None? && c.channel == ""
    case Webhook => c.jira.None? && c.teams.None? && c.webhook.Some? && c.channel == ""
  }

  function ParseSource(s: string): Source {
    if s == "finding.id" then FindingId
    else if s == "finding.title" then FindingTitle
    else if s == "finding.severity" then FindingSeverity
    else if s == "asset.name" then AssetName
    else if s == "finding.deepLink" then DeepLink
    else UnknownSource
  }

  predicate ValidJira(rules: Rules, t: Option<JiraTarget>) {
    t.Some? && rules.jiraIdentity(t.value) && t.value.mappings.Some? && |t.value.mappings.value| <= 16 &&
    forall f <- t.value.mappings.value :: ParseSource(t.value.mappings.value[f]) != UnknownSource
  }

  predicate ValidTeams(rules: Rules, m: Option<TeamsMetadata>) {
    m.Some? && rules.teamsMetadata(m.value) && m.value.channelType == "standard" && m.value.acknowledged
  }

  predicate ValidWebhook(rules: Rules, t: Option<WebhookTarget>) {
    t.Some? && t.value.signature == "hmac-sha256" && rules.webhook(t.value)
  }

  predicate TeamsPayloadValid(rules: Rules, n: Notification) {
    rules.teamsText(n.title, n.body, n.deepLink) && n.fields.None?
  }

  // ----- JSON columns -----

  datatype Value = Nil | Flag(flag: bool) | Text(text: string) | Object(members: map<string, Value>)

  function TextMap(m: map<string, string>): Value {
    Object(map k | k in m :: Text(m[k]))
  }

  function ReadTextMap(v: Value): Option<map<string, string>> {
    if v.Object? && forall k <- v.members :: v.members[k].Text?
    then Some(map k | k in v.members :: v.members[k].text) else None
  }

  function TextAt(v: Value, k: string): string {
    if v.Object? && k in v.members && v.members[k].Text? then v.members[k].text else ""
  }

  /** `MarshalJSON` of the payload: the pointer is left out only when the map is nil. */
  function Marshal(n: Notification): Value {
    var base := map["title" := Text(n.title), "body" := Text(n.body), "deepLink" := Text(n.deepLink)];
    Object(if n.fields.Some? then base["fields" := TextMap(n.fields.value)] else base)
  }

  /** The encoding that the struct tag alone would give: `omitempty` drops an empty map as well. */
  function MarshalByTag(n: Notification): Value {
    if n.fields == Some(map[]) then Marshal(n.(fields := None)) else Marshal(n)
  }

  function Unmarshal(v: Value): Notification {
    Notification(TextAt(v, "title"), TextAt(v, "body"), TextAt(v, "deepLink"),
                 if v.Object? && "fields" in v.members then ReadTextMap(v.members["fields"]) else None)
  }

  lemma TextMapRoundTrip(m: map<string, string>)
    ensures ReadTextMap(TextMap(m)) == Some(m)
  {
    assert forall k <- m :: TextMap(m).members[k] == Text(m[k]);
    assert (map k | k in TextMap(m).members :: TextMap(m).members[k].text) == m;
  }

  /** A stored payload is read back exactly, absent and empty fields included. */
  lemma PayloadRoundTrip(n: Notification)
    ensures Unmarshal(Marshal(n)) == n
  {
    if n.fields.Some? { TextMapRoundTrip(n.fields.value); }
  }

  /** The custom encoder is needed for exactly the payloads with an empty, non-nil map. */
  lemma TagAloneLosesEmptyFields(n: Notification)
    ensures Unmarshal(MarshalByTag(n)) == n <==> n.fields != Some(map[])
  {
    PayloadRoundTrip(n);
    PayloadRoundTrip(n.(fields := None));
  }

  // ----- the target columns -----

  /** A decoder that disallows unknown fields accepts the value: an object with these members at most, each
      of its own type or null. */
  predicate Decodes(v: Value, texts: set<string>, flags: set<string>, maps: set<string>) {
    v.Object? && v.members.Keys <= texts + flags + maps &&
    (forall k <- texts :: k in v.members ==> v.members[k].Text? || v.members[k].Nil?) &&
    (forall k <- flags :: k in v.members ==> v.members[k].Flag? || v.members[k].Nil?) &&
    (forall k <- maps :: k in v.members ==> v.members[k].Nil? || ReadTextMap(v.members[k]).Some?)
  }

  function FlagAt(v: Value, k: string): bool {
    v.Object? && k in v.members && v.members[k].Flag? && v.members[k].flag
  }

  function MapAt(v: Value, k: string): Option<map<string, string>> {
    if v.Object? && k in v.members then ReadTextMap(v.members[k]) else None
  }

  const JiraTexts := {"credentialType", "cloudId", "apiBase", "siteOrigin", "project", "issueType"}

  function JiraJson(t: JiraTarget): Value {
    Object(map["credentialType" := Text(t.credentialType), "cloudId" := Text(t.cloudId), "apiBase" := Text(t.apiBase),
               "siteOrigin" := Text(t.siteOrigin), "project" := Text(t.project), "issueType" := Text(t.issueType),
               "fieldMappings" := if t.mappings.Some? then TextMap(t.mappings.value) else Nil])
  }

  function ReadJira(v: Value): Option<JiraTarget> {
    if Decodes(v, JiraTexts, {}, {"fieldMappings"})
    then Some(JiraTarget(TextAt(v, "credentialType"), TextAt(v, "cloudId"), TextAt(v, "apiBase"),
                         TextAt(v, "siteOrigin"),
                         TextAt(v, "project"), TextAt(v, "issueType"), MapAt(v, "fieldMappings")))
    else None
  }

  /** The embedded metadata is written flat, beside the name. */
  function TeamsJson(d: TeamsDestination): Value {
    Object(map["name" := Text(d.name), "workflowOrigin" := Text(d.metadata.origin),
               "channelType" := Text(d.metadata.channelType), "ownershipAcknowledged" := Flag(d.metadata.acknowledged)])
  }

  function ReadTeams(v: Value): Option<TeamsDestination> {
    if Decodes(v, {"name", "workflowOrigin", "channelType"}, {"ownershipAcknowledged"}, {})
    then Some(TeamsDestination(TextAt(v, "name"), TeamsMetadata(TextAt(v, "workflowOrigin"), TextAt(v, "channelType"),
                                                                FlagAt(v, "ownershipAcknowledged"))))
    else None
  }

  function WebhookJson(t: WebhookTarget): Value {
    Object(map["origin" := Text(t.origin), "path" := Text(t.path), "signature" := Text(t.signature)])
  }

  function ReadWebhook(v: Value): Option<WebhookTarget> {
    if Decodes(v, {"origin", "path", "signature"}, {}, {})
    then Some(WebhookTarget(TextAt(v, "origin"), TextAt(v, "path"), TextAt(v, "signature")))
    else None
  }

  lemma JiraRoundTrip(t: JiraTarget)
    ensures ReadJira(JiraJson(t)) == Some(t)
  {
    if t.mappings.Some? { TextMapRoundTrip(t.mappings.value); }
    var v := JiraJson(t);
    assert v.members.Keys == JiraTexts + {} + {"fieldMappings"};
    assert MapAt(v, "fieldMappings") == t.mappings;
  }

  lemma TeamsRoundTrip(d: TeamsDestination)
    ensures ReadTeams(TeamsJson(d)) == Some(d)
  {
    var v := TeamsJson(d);
    assert v.members.Keys == {"name", "workflowOrigin", "channelType"} + {"ownershipAcknowledged"} + {};
  }

  lemma WebhookRoundTrip(t: WebhookTarget)
    ensures ReadWebhook(WebhookJson(t)) == Some(t)
  {
    var v := WebhookJson(t);
    assert v.members.Keys == {"origin", "path", "signature"} + {} + {};
  }

  /** The three target columns of a row; a missing target is SQL NULL. */
  datatype Targets = Targets(jira: Option<Value>, teams: Option<Value>, webhook: Option<Value>)

  function TargetColumns(i: Intent): Targets {
    Targets(if i.jira.Some? then Some(JiraJson(i.jira.value)) else None,
            if i.destination.Some? then Some(TeamsJson(i.destination.value)) else None,
            if i.webhook.Some? then Some(WebhookJson(i.webhook.value)) else None)
  }

  predicate Readable(t: Targets) {
    (t.jira.Some? ==> ReadJira(t.jira.value).Some?) && (t.teams.Some? ==> ReadTeams(t.teams.value).Some?) &&
    (t.webhook.Some? ==> ReadWebhook(t.webhook.value).Some?)
  }

  /** `scanFindingDelivery`, as far as the targets go. */
  function WithTargets(i: Intent, t: Targets): Intent {
    i.(jira := if t.jira.Some? then ReadJira(t.jira.value) else None,
       destination := if t.teams.Some? then ReadTeams(t.teams.value) else None,
       webhook := if t.webhook.Some? then ReadWebhook(t.webhook.value) else None)
  }

  lemma TargetsRoundTrip(i: Intent, scalars: Intent)
    ensures Readable(TargetColumns(i))
    ensures WithTargets(scalars, TargetColumns(i)) ==
            scalars.(jira := i.jira, destination := i.destination, webhook := i.webhook)
  {
    if i.jira.Some? { JiraRoundTrip(i.jira.value); }
    if i.destination.Some? { TeamsRoundTrip(i.destination.value); }
    if i.webhook.Some? { WebhookRoundTrip(i.webhook.value); }
  }

  // ----- the binding -----

  datatype Extra = Plain | WithTarget(target: Option<Value>)

  /** What is hashed; SHA-256 over JSON is taken to be injective, so the digest is the hashed value. */
  datatype Bound = Bound(
    workspace: string, finding: string, connection: string, actor: string, profile: Profile, channel: string,
    revision: int, payload: Value, extra: Extra, policy: Option<(Option<string>, Option<nat>, Option<nat>)>)

  datatype Digest = Digest(bound: Bound, key: Option<string>)

  function Binding(i: Intent): Bound {
    Bound(i.workspace, i.finding, i.connection, i.actor, i.profile, i.channel, i.connectionRevision, Marshal(i.payload),
          match i.profile
          case Slack => Plain
          case Jira => WithTarget(TargetColumns(i).jira)
          case Teams => WithTarget(TargetColumns(i).teams)
          case Webhook => WithTarget(TargetColumns(i).webhook),
          if i.trigger == PolicyTrigger then Some((i.policyId, i.policyRevision, i.changeRevision)) else None)
  }

  function IntentBinding(i: Intent, key: string): Digest {
    Digest(Binding(i), if Guarded(i.profile) then Some(key) else None)
  }

  /** A row of `finding_deliveries` as far as the binding goes: the jsonb columns hold the payload and the
      targets, the other columns the rest of the intent. */
  datatype Row = Row(intent: Intent, payload: Value, targets: Targets, key: string, digest: Digest, approvalRef: string)

  function Stored(i: Intent, key: string, approvalRef: string): Row {
    Row(i, Marshal(i.payload), TargetColumns(i), key, IntentBinding(i, key), approvalRef)
  }

  /** The intent as read back from the columns; only the plain columns of `r.intent` are used. */
  function Reread(r: Row): Intent {
    WithTargets(r.intent, r.targets).(payload := Unmarshal(r.payload))
  }

  lemma StoredReadsBack(i: Intent, key: string, approvalRef: string)
    ensures Readable(Stored(i, key, approvalRef).targets) && Reread(Stored(i, key, approvalRef)) == i
  {
    PayloadRoundTrip(i.payload);
    TargetsRoundTrip(i, i);
  }

  function ManualRef(workspace: string, id: string): string {
    "aspm:remediation:" + workspace + ":" + id
  }

  function PolicyRef(workspace: string, policy: string, revision: nat): string {
    "aspm:notification-policy:" + workspace + ":" + policy + ":" + Decimal(revision)
  }

  function PolicyKey(policy: string, finding: string, change: nat): string {
    "notification-policy:" + policy + ":" + finding + ":" + Decimal(change)
  }

  predicate TriggerOk(i: Intent, key: string, approvalRef: string) {
    match i.trigger
    case ManualTrigger =>
      i.policyId.None? && i.policyRevision.None? && i.changeRevision.None? &&
        approvalRef == ManualRef(i.workspace, i.id)
    case PolicyTrigger =>
      i.policyId.Some? && ValidId(i.policyId.value) && i.policyRevision.Some? && i.policyRevision.value >= 1 &&
      i.changeRevision.Some? && i.changeRevision.value >= 1 &&
      key == PolicyKey(i.policyId.value, i.finding, i.changeRevision.value) &&
      approvalRef == PolicyRef(i.workspace, i.policyId.value, i.policyRevision.value)
  }

  predicate ShapeOk(rules: Rules, i: Intent) {
    match i.profile
    case Slack => i.jira.None? && i.payload.fields.None? && i.destination.None?
    case Jira => ValidJira(rules, i.jira) && i.channel == "" && i.payload.fields.Some? && i.destination.None?
    case Teams =>
      i.jira.None? && i.channel == "" && i.destination.Some? && ValidText(i.destination.value.name, 256) &&
      ValidTeams(rules, Some(i.destination.value.metadata)) && TeamsPayloadValid(rules, i.payload)
    case Webhook =>
      i.jira.None? && i.destination.None? && i.channel == "" && i.payload.fields.None? && ValidWebhook(rules, i.webhook)
  }

  /** `validDeliveryBinding`, which the worker asks of every row it re-reads. */
  predicate ValidBinding(rules: Rules, r: Row) {
    var i := Reread(r);
    Readable(r.targets) && ValidText(r.key, 256) && TriggerOk(i, r.key, r.approvalRef) && ShapeOk(rules, i) &&
    IntentBinding(i, r.key) == r.digest
  }

  /** A row is accepted after the trip through its columns exactly when the intent itself was in order. */
  lemma StoredIsValid(rules: Rules, i: Intent, key: string, approvalRef: string)
    ensures ValidBinding(rules, Stored(i, key, approvalRef)) <==>
            ValidText(key, 256) && TriggerOk(i, key, approvalRef) && ShapeOk(rules, i)
  {
    StoredReadsBack(i, key, approvalRef);
  }

  /** Two accepted rows with one digest deliver the same notification to the same destination. */
  lemma DigestBinds(rules: Rules, r: Row, s: Row)
    requires ValidBinding(rules, r) && ValidBinding(rules, s) && r.digest == s.digest
    ensures var i, j := Reread(r), Reread(s);
            i.workspace == j.workspace && i.finding == j.finding && i.connection == j.connection &&
            i.actor == j.actor &&
            i.profile == j.profile && i.channel == j.channel && i.connectionRevision == j.connectionRevision &&
            i.payload == j.payload && i.trigger == j.trigger &&
            (i.trigger == PolicyTrigger ==> r.key == s.key && r.approvalRef == s.approvalRef) &&
            (Guarded(i.profile) ==> r.key == s.key) &&
            (i.profile == Jira ==> i.jira == j.jira) && (i.profile == Teams ==> i.destination == j.destination) &&
            (i.profile == Webhook ==> i.webhook == j.webhook)
  {
    var i, j := Reread(r), Reread(s);
    PayloadRoundTrip(i.payload);
    PayloadRoundTrip(j.payload);
    assert Marshal(i.payload) == Marshal(j.payload);
    TargetsRoundTrip(i, i);
    TargetsRoundTrip(j, j);
  }

  // ----- the two ways an intent is built -----

  datatype Facts = Facts(id: string, title: string, severity: string, asset: string)

  function Mapped(f: Facts, link: string, s: Source): string
  {
    match s
    case FindingId => f.id
    case FindingTitle => f.title
    case FindingSeverity => f.severity
    case AssetName => f.asset
    case _ => link
  }

  function MappedFields(f: Facts, link: string, mappings: map<string, string>): map<string, string> {
    map k | k in mappings && ParseSource(mappings[k]) != UnknownSource :: Mapped(f, link, ParseSource(mappings[k]))
  }

  function Link(origin: string, escaped: string): string {
    origin + "/#/work?finding=" + escaped
  }

  /** `selectedFindingDelivery`, from a visible finding and an existing connection, then the manual fields. */
  function ManualIntent(
    rules: Rules, id: string, workspace: string, actor: string, connection: string, c: Connection, f: Facts,
    origin: string, escaped: string): Option<Intent>
  {
    var link := Link(origin, escaped);
    var body := "Severity: " + f.severity + "\nAsset: " + f.asset;
    var base := Intent(id, workspace, f.id, connection, c.revision, c.profile, c.channel, actor,
                       Notification(f.title, body, link, None), c.jira, None, c.webhook, ManualTrigger, None, None,
                       None);
    if !c.enabled then None
    else match c.profile
      case Slack => Some(base)
      case Jira =>
        if !ValidJira(rules, c.jira) || !rules.title255(f.title) || Blank(f.title) then None
        else Some(base.(payload := base.payload.(fields := Some(MappedFields(f, link, c.jira.value.mappings.value)))))
      case Teams =>
        if !ValidTeams(rules, c.teams) || c.jira.Some? || c.channel != "" ||
           !TeamsPayloadValid(rules, base.payload) then None
        else Some(base.(destination := Some(TeamsDestination(c.name, c.teams.value))))
      case Webhook =>
        if !ValidWebhook(rules, c.webhook) || !rules.webhookOrigin(c.webhook.value.origin) || c.jira.Some? ||
           c.teams.Some? || c.channel != "" then None
        else Some(base)
  }

  /** `policyFindingDelivery`, from the event's snapshot and the policy revision that matched. */
  function PolicyIntent(
    rules: Rules, id: string, workspace: string, actor: string, connection: string, c: Connection, f: Facts,
    kind: string, origin: string, escaped: string, policy: string, revision: nat, change: nat): Option<Intent>
  {
    var link := Link(origin, escaped);
    var body := "Severity: " + f.severity + "\nAsset: " + f.asset + "\nChange: " + kind;
    var base := Intent(id, workspace, f.id, connection, c.revision, c.profile, c.channel, actor,
                       Notification(f.title, body, link, None), c.jira, None, c.webhook,
                       PolicyTrigger, Some(policy), Some(revision), Some(change));
    if origin == "" || !ValidText(f.title, 1024) || !ValidText(f.asset, 256) then None
    else match c.profile
      case Slack => if !rules.slackChannel(c.channel) || c.jira.Some? || c.teams.Some? then None else Some(base)
      case Jira =>
        if !ValidJira(rules, c.jira) || c.channel != "" || !rules.title255(f.title) then None
        else Some(base.(payload := base.payload.(fields := Some(MappedFields(f, link, c.jira.value.mappings.value)))))
      case Teams =>
        if c.jira.Some? || c.channel != "" || !ValidTeams(rules, c.teams) ||
           !TeamsPayloadValid(rules, base.payload) then None
        else Some(base.(destination := Some(TeamsDestination(c.name, c.teams.value))))
      case Webhook =>
        if c.jira.Some? || c.teams.Some? || c.channel != "" || !ValidWebhook(rules, c.webhook) ||
           !rules.webhookOrigin(c.webhook.value.origin) then None
        else Some(base)
  }

  lemma ManualRowIsValid(
    rules: Rules, id: string, workspace: string, actor: string, connection: string, c: Connection, f: Facts,
    origin: string, escaped: string, key: string)
    requires ConnectionOk(rules, c) && ValidText(key, 256)
    requires ManualIntent(rules, id, workspace, actor, connection, c, f, origin, escaped).Some?
    ensures ValidBinding(rules,
                         Stored(ManualIntent(rules, id, workspace, actor, connection, c, f, origin, escaped).value, key,
                                       ManualRef(workspace, id)))
  {
    StoredIsValid(rules, ManualIntent(rules, id, workspace, actor, connection, c, f, origin, escaped).value, key,
                  ManualRef(workspace, id));
  }

  lemma PowerOf19()
    ensures Power(19) == 10000000000000000000
  {
    assert Power(5) == 100000;
    assert Power(10) == 10000000000;
    assert Power(15) == 1000000000000000;
  }

  /** Text made of printable pieces is text. */
  lemma JoinedIsText(head: string, tail: string)
    requires |head| + |tail| <= 256 && |head| > 0 && !Space(head[0]) && '\0' !in head && '\0' !in tail
    ensures ValidText(head + tail, 256)
  {
    assert (head + tail)[0] == head[0];
    assert head[0] in head + tail;
  }

  lemma CleanTail(policy: string, finding: string, number: string)
    requires '\0' !in policy && '\0' !in finding && '\0' !in number
    ensures '\0' !in policy + ":" + finding + ":" + number
  {
    assert '\0' !in policy + ":";
    assert '\0' !in policy + ":" + finding;
    assert '\0' !in policy + ":" + finding + ":";
  }

  lemma PolicyKeyIsText(policy: string, finding: string, change: nat)
    requires ValidId(policy) && ValidId(finding) && change < 0x8000_0000_0000_0000
    ensures ValidText(PolicyKey(policy, finding, change), 256)
  {
    var number := Decimal(change);
    assert |number| <= 19 by {
      PowerOf19();
      DecimalLength(change, 19);
    }
    var head, tail := "notification-policy:", policy + ":" + finding + ":" + number;
    CleanTail(policy, finding, number);
    JoinedIsText(head, tail);
    assert PolicyKey(policy, finding, change) == head + tail;
  }

  lemma PolicyRowIsValid(
    rules: Rules, id: string, workspace: string, actor: string, connection: string, c: Connection, f: Facts,
    kind: string, origin: string, escaped: string, policy: string, revision: nat, change: nat)
    requires ConnectionOk(rules, c) && ValidId(policy) && ValidId(f.id) && revision >= 1 &&
             1 <= change < 0x8000_0000_0000_0000
    requires PolicyIntent(rules, id, workspace, actor, connection, c, f, kind, origin, escaped, policy, revision,
                          change).Some?
    ensures ValidBinding(rules, Stored(
                           PolicyIntent(rules, id, workspace, actor, connection, c, f, kind, origin, escaped, policy,
                                        revision, change).value,
                           PolicyKey(policy, f.id, change), PolicyRef(workspace, policy, revision)))
  {
    PolicyKeyIsText(policy, f.id, change);
    StoredIsValid(rules,
                  PolicyIntent(rules, id, workspace, actor, connection, c, f, kind, origin, escaped, policy, revision,
                               change).value,
                  PolicyKey(policy, f.id, change), PolicyRef(workspace, policy, revision));
  }

  // ----- keys -----

  lemma DecimalIsInjective(m: nat, n: nat)
    requires Decimal(m) == Decimal(n)
    ensures m == n
  {
    DecimalReadsBack(m);
    DecimalReadsBack(n);
  }

  lemma SameParts(head: string, x: string, rest: string, y: string, tail: string)
    requires |x| == |y| && head + x + rest == head + y + tail
    ensures x == y && rest == tail
  {
    var n, m := |head|, |head| + |x|;
    assert (head + x + rest)[n..m] == x && (head + x + rest)[m..] == rest;
    assert (head + y + tail)[n..m] == y && (head + y + tail)[m..] == tail;
  }

  /** Policies never compete for an idempotency key: the key determines policy, finding and change. */
  lemma PolicyKeyIsInjective(p: string, f: string, c: nat, q: string, g: string, d: nat)
    requires ValidId(p) && ValidId(f) && ValidId(q) && ValidId(g)
    requires PolicyKey(p, f, c) == PolicyKey(q, g, d)
    ensures p == q && f == g && c == d
  {
    var head := "notification-policy:";
    var s, t := f + ":" + Decimal(c), g + ":" + Decimal(d);
    assert PolicyKey(p, f, c) == head + p + (":" + s);
    assert PolicyKey(q, g, d) == head + q + (":" + t);
    SameParts(head, p, ":" + s, q, ":" + t);
    SameParts(":", f, ":" + Decimal(c), g, ":" + Decimal(d)) by {
      assert ":" + f + (":" + Decimal(c)) == ":" + s;
      assert ":" + g + (":" + Decimal(d)) == ":" + t;
    }
    assert (":" + Decimal(c))[1..] == Decimal(c) && (":" + Decimal(d))[1..] == Decimal(d);
    DecimalIsInjective(c, d);
  }
}
