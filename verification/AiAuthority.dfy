/** Hosted-AI authority: provider profiles, the workspace policy, and egress grants pinned to their revisions. */
module AiAuthority {
  import opened Options

  datatype Contents = Contents(
    name: string, family: string, endpoint: string, model: string, deployment: string,
    enabled: bool, structured: bool, credentialConfigured: bool)

  datatype Profile = Profile(contents: Contents, ciphertext: Option<string>, revision: nat)

  datatype Mode = Disabled | LocalOnly | ApprovedHosted
  datatype Policy = Policy(mode: Mode, revision: nat)

  datatype Grant = Grant(
    profile: string, profileRevision: nat, policyRevision: nat, destination: string, expiresAt: int,
    revokedAt: Option<int>)

  /** Times are microseconds. One workspace; `policy` is absent until it is first set. */
  datatype Authority = Authority(
    now: int, profiles: map<string, Profile>, policy: Option<Policy>, grants: map<string, Grant>)

  datatype Input = Input(
    name: Field<string>, family: Field<string>, endpoint: Field<string>, model: Field<string>,
    deployment: Field<string>,
    enabled: Field<bool>, structured: Field<bool>, apiKey: Field<string>)

  predicate Acceptable(i: Input) {
    !i.name.Null? && !i.family.Null? && !i.endpoint.Null? && !i.model.Null? && !i.deployment.Null? &&
    !i.enabled.Null? && !i.structured.Null?
  }

  /** `validAIProfile` and `validIntegrationToken`, which depend on URL parsing. */
  datatype Rules = Rules(profile: Contents -> bool, token: string -> bool)

  function Merged(c: Contents, i: Input): Contents {
    var next := Contents(
      Filled(i.name, c.name), Filled(i.family, c.family), Filled(i.endpoint, c.endpoint), Filled(i.model, c.model),
      Filled(i.deployment, c.deployment), Filled(i.enabled, c.enabled), Filled(i.structured, c.structured),
      c.credentialConfigured);
    if i.apiKey.Absent? then next else next.(credentialConfigured := i.apiKey.Value?)
  }

  /** `applyAIProfileInput`: the new contents, or an error. */
  function ApplyInput(rules: Rules, c: Contents, i: Input): (next: Option<Contents>)
    ensures next.Some? ==> rules.profile(next.value)
    ensures next.Some? && i.apiKey.Null? ==> next.value.family == "local" && !next.value.credentialConfigured
  {
    var next := Merged(c, i);
    if !Acceptable(i) || (i.apiKey.Value? && !rules.token(i.apiKey.value)) ||
       (i.apiKey.Null? && next.family != "local") ||
       !rules.profile(next)
    then None else Some(next)
  }

  /** A supplied key always counts as a change, even when it is the same key. */
  predicate Changes(c: Contents, next: Contents, i: Input) {
    next != c || i.apiKey.Value?
  }

  const Blank := Contents("", "", "", "", "", false, false, false)

  datatype Step =
    | Tick(us: nat)
    | CreateProfile(id: string, input: Input, sealed: string)
    | UpdateProfile(id: string, input: Input, sealed: string)
    | UpdatePolicy(mode: Mode, sawNone: bool)
    | CreateGrant(id: string, profile: string, profileRevision: nat, policyRevision: nat, destination: string,
                  expiresAt: int)
    | Revoke(id: string)

  function Sealed(i: Input, sealed: string, current: Option<string>): Option<string> {
    match i.apiKey
    case Absent => current
    case Null => None
    case Value(_) => Some(sealed)
  }

  function CreateProfileStep(rules: Rules, a: Authority, id: string, i: Input, sealed: string): Authority {
    var c := ApplyInput(rules, Blank, i);
    if id in a.profiles || c.None? || i.name.Absent? || i.family.Absent? || i.endpoint.Absent? || i.model.Absent? ||
       i.enabled.Absent? || i.structured.Absent? then a
    else a.(profiles := a.profiles[id := Profile(c.value, Sealed(i, sealed, None), 1)])
  }

  function UpdateProfileStep(rules: Rules, a: Authority, id: string, i: Input, sealed: string): Authority {
    if id !in a.profiles then a
    else
      var p := a.profiles[id];
      var c := ApplyInput(rules, p.contents, i);
      if c.None? || !Changes(p.contents, c.value, i) then a
      else a.(profiles := a.profiles[id := Profile(c.value, Sealed(i, sealed, p.ciphertext), p.revision + 1)])
  }

  function CurrentMode(policy: Option<Policy>): Mode {
    if policy.Some? then policy.value.mode else Disabled
  }

  /** The upsert runs when the mode read differs. Two first writers can both read no row: `sawNone`. */
  function UpdatePolicyStep(a: Authority, mode: Mode, sawNone: bool): Authority {
    if mode == (if sawNone then Disabled else CurrentMode(a.policy)) then a
    else a.(policy := Some(Policy(mode, if a.policy.Some? then a.policy.value.revision + 1 else 1)))
  }

  predicate CanGrant(
    rules: Rules, a: Authority, id: string, profile: string, profileRevision: nat, policyRevision: nat,
    destination: string, expiresAt: int)
  {
    id !in a.grants && profile in a.profiles && a.policy.Some? && expiresAt > a.now &&
    a.policy.value.mode == ApprovedHosted && a.profiles[profile].contents.enabled &&
    a.profiles[profile].contents.structured &&
    rules.profile(a.profiles[profile].contents) && a.profiles[profile].revision == profileRevision &&
    a.policy.value.revision == policyRevision && a.profiles[profile].contents.endpoint == destination
  }

  function Apply(rules: Rules, a: Authority, s: Step): Authority {
    match s
    case Tick(us) => a.(now := a.now + us)
    case CreateProfile(id, input, sealed) => CreateProfileStep(rules, a, id, input, sealed)
    case UpdateProfile(id, input, sealed) => UpdateProfileStep(rules, a, id, input, sealed)
    case UpdatePolicy(mode, sawNone) => UpdatePolicyStep(a, mode, sawNone)
    case CreateGrant(id, profile, profileRevision, policyRevision, destination, expiresAt) =>
      if CanGrant(rules, a, id, profile, profileRevision, policyRevision, destination, expiresAt)
      then a.(grants := a.grants[id := Grant(profile, profileRevision, policyRevision, destination, expiresAt, None)])
      else a
    case Revoke(id) =>
      if id in a.grants && a.grants[id].revokedAt.None?
      then a.(grants := a.grants[id := a.grants[id].(revokedAt := Some(a.now))]) else a
  }

  function Empty(now: int): Authority {
    Authority(now, map[], None, map[])
  }

  function Run(rules: Rules, a: Authority, steps: seq<Step>): Authority {
    if |steps| == 0 then a else Apply(rules, Run(rules, a, steps[..|steps| - 1]), steps[|steps| - 1])
  }

  // ----- resolution -----

  datatype Request = Request(role: string, profile: string, grant: Option<string>, taskOk: bool)
  datatype Resolution =
    | Denied | Incapable | NoCredential | Resolved(profile: Profile, mode: Mode, expiresAt: Option<int>)

  /** The grant still speaks for the profile and the policy as they are now. */
  predicate Matches(a: Authority, profile: string, grant: string) {
    grant in a.grants && profile in a.profiles && a.policy.Some? &&
    var g := a.grants[grant];
    g.profile == profile && g.profileRevision == a.profiles[profile].revision &&
    g.policyRevision == a.policy.value.revision &&
    g.destination == a.profiles[profile].contents.endpoint && g.revokedAt.None? && g.expiresAt > a.now
  }

  /** `readAIConfiguration`; `opens` is whether the stored credential decrypts. */
  function Resolve(rules: Rules, a: Authority, r: Request, opens: bool): Resolution {
    if !r.taskOk || !(r.role == "admin" || r.role == "analyst") || r.profile !in a.profiles then Denied
    else
      var p := a.profiles[r.profile];
      if !p.contents.enabled || !rules.profile(p.contents) then Denied
      else if !p.contents.structured then Incapable
      else if a.policy.None? then Denied
      else
        var ok := match a.policy.value.mode
          case Disabled => false
          case LocalOnly => p.contents.family == "local" && r.grant.None?
          case ApprovedHosted => r.grant.Some? && Matches(a, r.profile, r.grant.value);
        if !ok then Denied
        else if p.contents.credentialConfigured && !opens then NoCredential
        else Resolved(p, a.policy.value.mode, if r.grant.Some? then Some(a.grants[r.grant.value].expiresAt) else None)
  }
}
