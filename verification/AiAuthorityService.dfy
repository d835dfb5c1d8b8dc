/** The administration transactions as statements on the profile, policy and grant tables. */
module AiAuthorityService {
  import opened Options
  import opened AiAuthority

  datatype Reply = Done | NotFound | Conflict | Invalid

  /** `applyAIProfileInput` as the source runs it: one assignment per supplied field. */
  method ApplyProfileInput(rules: Rules, profile: Contents, i: Input) returns (next: Contents, changed: bool, ok: bool)
    ensures ok <==> ApplyInput(rules, profile, i).Some?
    ensures ok ==> ApplyInput(rules, profile, i) == Some(next) && changed == Changes(profile, next, i)
  {
    next, changed, ok := profile, false, false;
    if i.name.Null? || i.family.Null? || i.endpoint.Null? || i.model.Null? || i.deployment.Null? { return; }
    next := next.(name := Filled(i.name, next.name));
    next := next.(family := Filled(i.family, next.family));
    next := next.(endpoint := Filled(i.endpoint, next.endpoint));
    next := next.(model := Filled(i.model, next.model));
    next := next.(deployment := Filled(i.deployment, next.deployment));
    if i.enabled.Null? || i.structured.Null? { return; }
    next := next.(enabled := Filled(i.enabled, next.enabled));
    next := next.(structured := Filled(i.structured, next.structured));
    var replacement := i.apiKey.Value?;
    if !i.apiKey.Absent? {
      if replacement {
        if !rules.token(i.apiKey.value) { return; }
      } else if next.family != "local" {
        return;
      }
      next := next.(credentialConfigured := replacement);
    }
    if !rules.profile(next) { return; }
    changed, ok := next != profile || replacement, true;
  }

  class AuthorityDatabase {
    const rules: Rules
    var now: int
    var profiles: map<string, Profile>
    var policy: Option<Policy>
    var grants: map<string, Grant>

    ghost function Model(): Authority
      reads this
    {
      Authority(now, profiles, policy, grants)
    }

    constructor (checks: Rules, start: int)
      ensures Model() == Empty(start) && rules == checks
    {
      rules, now, profiles, policy, grants := checks, start, map[], None, map[];
    }

    method UpdateAIProfile(id: string, i: Input, sealed: string) returns (reply: Reply)
      modifies this`profiles
      ensures Model() == Apply(rules, old(Model()), UpdateProfile(id, i, sealed))
      ensures reply == NotFound <==> id !in old(profiles)
      ensures reply == Done ==> id in profiles &&
                                (profiles[id].revision == old(profiles)[id].revision ||
                                 profiles[id].revision == old(profiles)[id].revision + 1)
      ensures reply != Done ==> profiles == old(profiles)
    {
      if id !in profiles { return NotFound; }
      var record := profiles[id];
      var next, changed, ok := ApplyProfileInput(rules, record.contents, i);
      if !ok { return Invalid; }
      if changed {
        var ciphertext := record.ciphertext;
        if !i.apiKey.Absent? { ciphertext := if i.apiKey.Value? then Some(sealed) else None; }
        profiles := profiles[id := Profile(next, ciphertext, record.revision + 1)];
      }
      reply := Done;
    }

    /** `sawNone`: the row was missing when it was read, although another writer may have inserted it since. */
    method UpdateAIPolicy(mode: Mode, sawNone: bool)
      requires policy.None? ==> sawNone
      modifies this`policy
      ensures Model() == Apply(rules, old(Model()), UpdatePolicy(mode, sawNone))
      ensures !sawNone ==> policy.Some? && policy.value.mode == mode
    {
      var read := if sawNone then Disabled else policy.value.mode;
      if read != mode {
        if policy.None? {
          policy := Some(Policy(mode, 1));
        } else {
          policy := Some(Policy(mode, policy.value.revision + 1));
        }
      }
    }

    method CreateAIGrant(
      id: string, profile: string, profileRevision: nat, policyRevision: nat, destination: string, expiry: int)
      returns (reply: Reply)
      requires id !in grants
      modifies this`grants
      ensures Model() == Apply(rules, old(Model()),
                               CreateGrant(id, profile, profileRevision, policyRevision, destination, expiry))
      ensures reply == Done <==> id in grants
      ensures reply == Done ==> Matches(Model(), profile, id)
    {
      if profile !in profiles { return Conflict; }
      if expiry <= now { return Invalid; }
      var p := profiles[profile];
      if policy.None? || policy.value.mode != ApprovedHosted || !p.contents.enabled || !p.contents.structured ||
         !rules.profile(p.contents) ||
         p.revision != profileRevision || policy.value.revision != policyRevision ||
         p.contents.endpoint != destination {
        return Conflict;
      }
      grants := grants[id := Grant(profile, p.revision, policy.value.revision, p.contents.endpoint, expiry, None)];
      reply := Done;
    }

    method RevokeAIGrant(id: string) returns (reply: Reply)
      modifies this`grants
      ensures Model() == Apply(rules, old(Model()), Revoke(id))
      ensures reply == Done <==> id in old(grants)
      ensures reply == Done ==> id in grants && grants[id].revokedAt.Some?
      ensures reply == Done && old(grants)[id].revokedAt.Some? ==> grants == old(grants)
    {
      if id !in grants { return NotFound; }
      if grants[id].revokedAt.None? {
        grants := grants[id := grants[id].(revokedAt := Some(now))];
      }
      reply := Done;
    }
  }
}
