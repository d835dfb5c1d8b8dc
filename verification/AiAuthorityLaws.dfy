/** No approval comes back: a grant speaks for one version of the profile and the policy, and only once. */
module AiAuthorityLaws {
  import opened Options
  import opened AiAuthority

  /** Revisions only grow, and a revision names one version of a row. */
  predicate ProfileEvolves(p: Profile, q: Profile) {
    p.revision <= q.revision && (p.revision == q.revision ==> p == q)
  }

  predicate PolicyEvolves(p: Policy, q: Policy) {
    p.revision <= q.revision && (p.revision == q.revision ==> p == q)
  }

  predicate Evolves(a: Authority, b: Authority) {
    a.now <= b.now &&
    (forall id <- a.profiles :: id in b.profiles && ProfileEvolves(a.profiles[id], b.profiles[id])) &&
    (a.policy.Some? ==> b.policy.Some? && PolicyEvolves(a.policy.value, b.policy.value)) &&
    (forall id <- a.grants :: id in b.grants && b.grants[id] == a.grants[id].(revokedAt := b.grants[id].revokedAt) &&
                              (a.grants[id].revokedAt.Some? ==> b.grants[id].revokedAt == a.grants[id].revokedAt))
  }

  lemma StepEvolves(rules: Rules, a: Authority, s: Step)
    ensures Evolves(a, Apply(rules, a, s))
  {}

  lemma {:induction false} RunEvolves(rules: Rules, a: Authority, steps: seq<Step>)
    ensures Evolves(a, Run(rules, a, steps))
  {
    if |steps| != 0 {
      RunEvolves(rules, a, steps[..|steps| - 1]);
      StepEvolves(rules, Run(rules, a, steps[..|steps| - 1]), steps[|steps| - 1]);
    }
  }

  /** What a grant says about rows that still carry the revisions it was made for. */
  predicate GrantOk(rules: Rules, a: Authority, g: Grant) {
    g.profile in a.profiles && a.policy.Some? &&
    var p := a.profiles[g.profile];
    g.profileRevision <= p.revision && g.policyRevision <= a.policy.value.revision &&
    (g.profileRevision == p.revision ==>
      g.destination == p.contents.endpoint && p.contents.enabled && p.contents.structured &&
      rules.profile(p.contents)) &&
    (g.policyRevision == a.policy.value.revision ==> a.policy.value.mode == ApprovedHosted)
  }

  predicate Inv(rules: Rules, a: Authority) {
    (forall id <- a.grants :: GrantOk(rules, a, a.grants[id])) &&
    (forall id <- a.profiles :: a.profiles[id].contents.credentialConfigured == a.profiles[id].ciphertext.Some?)
  }

  lemma StepKeepsInv(rules: Rules, a: Authority, s: Step)
    requires Inv(rules, a)
    ensures Inv(rules, Apply(rules, a, s))
  {
    var b := Apply(rules, a, s);
    StepEvolves(rules, a, s);
    forall id <- b.grants
      ensures GrantOk(rules, b, b.grants[id])
    {
      if id in a.grants { assert GrantOk(rules, a, a.grants[id]); }
    }
  }

  lemma {:induction false} RunKeepsInv(rules: Rules, a: Authority, steps: seq<Step>)
    requires Inv(rules, a)
    ensures Inv(rules, Run(rules, a, steps))
  {
    if |steps| != 0 {
      RunKeepsInv(rules, a, steps[..|steps| - 1]);
      StepKeepsInv(rules, Run(rules, a, steps[..|steps| - 1]), steps[|steps| - 1]);
    }
  }

  /** If a hosted grant resolves, at any later time, then the profile — every field and the stored
      credential — and the policy are what they were at the moment the grant was created. */
  lemma ResolvedGrantSeesWhatWasApproved(
    rules: Rules, a: Authority, grant: string, profile: string, profileRevision: nat, policyRevision: nat,
    destination: string, expiresAt: int, later: seq<Step>, r: Request, opens: bool)
    requires CanGrant(rules, a, grant, profile, profileRevision, policyRevision, destination, expiresAt)
    requires r.grant == Some(grant)
    requires var granted := Apply(rules, a,
                                  CreateGrant(grant, profile, profileRevision, policyRevision, destination, expiresAt));
             Resolve(rules, Run(rules, granted, later), r, opens).Resolved?
    ensures var granted := Apply(rules, a,
                                 CreateGrant(grant, profile, profileRevision, policyRevision, destination, expiresAt));
            var b := Run(rules, granted, later);
            r.profile == profile && b.profiles[profile] == a.profiles[profile] && b.policy == a.policy &&
            b.now < expiresAt &&
            Resolve(rules, b, r, opens).profile == a.profiles[profile]
  {
    var granted := Apply(rules, a,
                         CreateGrant(grant, profile, profileRevision, policyRevision, destination, expiresAt));
    RunEvolves(rules, granted, later);
  }

  /** Once a grant stops matching, for any reason, it never matches again. */
  lemma NoGrantComesBack(rules: Rules, a: Authority, profile: string, grant: string, later: seq<Step>)
    requires Inv(rules, a) && grant in a.grants && !Matches(a, profile, grant)
    ensures !Matches(Run(rules, a, later), profile, grant)
  {
    assert GrantOk(rules, a, a.grants[grant]);
    RunEvolves(rules, a, later);
  }

  /** In every reachable state a grant resolves exactly when neither revision has moved since it was made
      and it is neither revoked nor expired; nothing else about the rows needs checking. */
  lemma GrantResolvesIff(rules: Rules, start: int, steps: seq<Step>, r: Request, opens: bool)
    requires var a := Run(rules, Empty(start), steps); r.grant.Some? && r.grant.value in a.grants
    requires r.taskOk && (r.role == "admin" || r.role == "analyst")
    ensures var a := Run(rules, Empty(start), steps);
            var g := a.grants[r.grant.value];
            g.profile in a.profiles && a.policy.Some? &&
            (Resolve(rules, a, r, opens).Resolved? <==>
             r.profile == g.profile && a.profiles[g.profile].revision == g.profileRevision &&
             a.policy.value.revision == g.policyRevision &&
             g.revokedAt.None? && a.now < g.expiresAt && (a.profiles[g.profile].ciphertext.Some? ==> opens))
  {
    var a := Run(rules, Empty(start), steps);
    RunKeepsInv(rules, Empty(start), steps);
    assert GrantOk(rules, a, a.grants[r.grant.value]);
  }

  /** Saving a profile without changing it keeps its grants; any change, or any supplied key, retires them. */
  lemma ProfileEditRetiresGrants(rules: Rules, a: Authority, profile: string, i: Input, sealed: string, grant: string)
    requires Inv(rules, a) && profile in a.profiles && Matches(a, profile, grant)
    ensures var b := UpdateProfileStep(rules, a, profile, i, sealed);
            Matches(b, profile, grant) <==>
            ApplyInput(rules, a.profiles[profile].contents, i) in {None, Some(a.profiles[profile].contents)} &&
                                            (i.apiKey.Value? ==>
                                               ApplyInput(rules, a.profiles[profile].contents, i).None?)
  {}
}
