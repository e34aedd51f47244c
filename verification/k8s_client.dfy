/** The Kubernetes client of the APK gateway connector (k8s_client.go), reduced to the
    resources the control-plane events touch: Gateways, BackendTrafficPolicies and
    SecurityPolicies of the data-plane namespace. The cluster is a class whose maps are the
    stored resources, keyed by name; the searches over rule headers and JWT providers are the
    source's nested loops, each proved against a specification function of SharedPolicy or of
    this module. */
module K8sClient {
  import opened Wrappers
  import opened EventHubTypes
  import opened QuotaResolver
  import opened SharedPolicy

  // ---------------------------------------------------------------------------------------
  // The rule searches of the shared subscription container.

  /** Whether one of the rule's headers is `policy-id` with value `name`. */
  method RuleCarriesPolicyId(rule: RateLimitRule, name: string) returns (carries: bool)
    ensures carries <==> RuleMatches(rule, name)
  {
    carries := false;
    var j := 0;
    while j < |rule.clientSelectors| && !carries
      invariant 0 <= j <= |rule.clientSelectors|
      invariant carries ==> RuleMatches(rule, name)
      invariant !carries ==> forall j' :: 0 <= j' < j ==> !SelectorCarries(rule.clientSelectors[j'], name)
    {
      var headers := rule.clientSelectors[j].headers;
      var k := 0;
      while k < |headers| && !carries
        invariant 0 <= k <= |headers|
        invariant carries ==> SelectorCarries(rule.clientSelectors[j], name)
        invariant !carries ==> forall k' :: 0 <= k' < k ==> !HeaderCarries(headers[k'], name)
      {
        var header := headers[k];
        if header.name == PolicyIdHeader && header.value.Some? && header.value.value == name {
          assert HeaderCarries(headers[k], name);
          carries := true;
        }
        k := k + 1;
      }
      j := j + 1;
    }
  }

  /** The deploy loop: the first rule of the policy is overwritten in place and the search
      stops; without one the new rule is appended. */
  method UpsertRule(rules: seq<RateLimitRule>, name: string, newRule: RateLimitRule)
    returns (updated: seq<RateLimitRule>, replaced: bool)
    ensures updated == Upserted(rules, name, newRule)
    ensures replaced <==> exists j :: 0 <= j < |rules| && RuleMatches(rules[j], name)
  {
    updated := rules;
    replaced := false;
    var i := 0;
    while i < |rules| && !replaced
      invariant 0 <= i <= |rules|
      invariant !replaced ==> updated == rules && forall j :: 0 <= j < i ==> !RuleMatches(rules[j], name)
      invariant replaced ==> 0 < i && updated == rules[i - 1 := newRule] && RuleMatches(rules[i - 1], name)
      invariant replaced ==> forall j :: 0 <= j < i - 1 ==> !RuleMatches(rules[j], name)
    {
      var matches := RuleCarriesPolicyId(rules[i], name);
      if matches {
        updated := updated[i := newRule];
        replaced := true;
      }
      i := i + 1;
    }
    if replaced {
      FirstMatchAt(rules, name, i - 1);
    } else {
      updated := updated + [newRule];
    }
  }

  /** The undeploy loop: the rules that do not belong to the policy, in order, and whether
      any rule did. */
  method KeepUnmatched(rules: seq<RateLimitRule>, name: string)
    returns (kept: seq<RateLimitRule>, found: bool)
    ensures kept == Filtered(rules, name)
    ensures found <==> exists j :: 0 <= j < |rules| && RuleMatches(rules[j], name)
  {
    kept := [];
    found := false;
    var i := 0;
    while i < |rules|
      invariant 0 <= i <= |rules|
      invariant kept == Filtered(rules[..i], name)
      invariant found <==> MatchedAmong(rules, i, name)
    {
      var matches := RuleCarriesPolicyId(rules[i], name);
      FilteredPrefixStep(rules, i, name);
      if matches {
        found := true;
      } else {
        kept := kept + [rules[i]];
      }
      i := i + 1;
    }
    assert rules[..|rules|] == rules;
  }

  /** Some rule among the first `n` belongs to the policy `name`. */
  predicate MatchedAmong(rules: seq<RateLimitRule>, n: nat, name: string)
    requires n <= |rules|
  {
    exists j :: 0 <= j < n && RuleMatches(rules[j], name)
  }

  lemma FilteredPrefixStep(rules: seq<RateLimitRule>, i: nat, name: string)
    requires i < |rules|
    ensures Filtered(rules[..i + 1], name) ==
      Filtered(rules[..i], name) + if RuleMatches(rules[i], name) then [] else [rules[i]]
    ensures MatchedAmong(rules, i + 1, name) <==> MatchedAmong(rules, i, name) || RuleMatches(rules[i], name)
  {
    assert rules[..i + 1] == rules[..i] + [rules[i]];
    FilteredAppend(rules[..i], [rules[i]], name);
    FilteredSingleton(rules[i], name);
  }

  /** The retrieval loop: per selector, the first non-empty `policy-id` value. */
  method CollectPolicyNames(rules: seq<RateLimitRule>) returns (names: seq<string>)
    ensures names == PolicyIds(rules)
  {
    names := [];
    var i := 0;
    while i < |rules|
      invariant 0 <= i <= |rules|
      invariant names == PolicyIds(rules[..i])
    {
      var ids := SelectorPolicyIds(rules[i].clientSelectors);
      names := names + ids;
      assert rules[..i + 1] == rules[..i] + [rules[i]];
      PolicyIdsAppend(rules[..i], [rules[i]]);
      i := i + 1;
    }
    assert rules[..|rules|] == rules;
  }

  /** The middle loop of retrieval: one rule's selectors in order. */
  method SelectorPolicyIds(selectors: seq<SelectCondition>) returns (ids: seq<string>)
    ensures ids == SelectorIds(selectors)
  {
    ids := [];
    var j := 0;
    while j < |selectors|
      invariant 0 <= j <= |selectors|
      invariant ids == SelectorIds(selectors[..j])
    {
      var found := HeaderPolicyId(selectors[j].headers);
      ids := ids + found;
      assert selectors[..j + 1] == selectors[..j] + [selectors[j]];
      SelectorIdsAppend(selectors[..j], [selectors[j]]);
      j := j + 1;
    }
    assert selectors[..|selectors|] == selectors;
  }

  /** The inner loop of retrieval: the first non-empty `policy-id` header value of one
      selector, if any; the search stops at it. */
  method HeaderPolicyId(headers: seq<HeaderMatch>) returns (ids: seq<string>)
    ensures ids == HeaderIds(headers)
  {
    ids := [];
    var k := 0;
    var done := false;
    while k < |headers| && !done
      invariant 0 <= k <= |headers|
      invariant !done ==> ids == [] && HeaderIds(headers[k..]) == HeaderIds(headers)
      invariant done ==> ids == HeaderIds(headers)
    {
      var header := headers[k];
      assert headers[k..][0] == header && headers[k..][1..] == headers[k + 1..];
      if header.name == PolicyIdHeader && header.value.Some? && header.value.value != "" {
        ids := [header.value.value];
        done := true;
      }
      k := k + 1;
    }
  }

  // ---------------------------------------------------------------------------------------
  // Security policies and their JWT providers.

  datatype ClaimToHeader = ClaimToHeader(header: string, claim: string)

  datatype JwtProvider = JwtProvider(
    name: string,
    issuer: string,
    remoteJwksUri: string,
    claimToHeaders: seq<ClaimToHeader>)

  datatype SecurityPolicy = SecurityPolicy(
    name: string,
    labels: map<string, string>,
    providers: seq<JwtProvider>)

  /** The provider list without the providers named `name`, in order. */
  function WithoutProvider(providers: seq<JwtProvider>, name: string): (kept: seq<JwtProvider>)
    ensures |kept| <= |providers|
    ensures forall i :: 0 <= i < |kept| ==> kept[i].name != name && kept[i] in providers
    ensures (forall i :: 0 <= i < |providers| ==> providers[i].name != name) <==> |kept| == |providers|
  {
    if |providers| == 0 then []
    else
      var rest := WithoutProvider(providers[1..], name);
      assert forall i :: 0 <= i < |rest| ==> rest[i] in providers;
      if providers[0].name == name then rest else [providers[0]] + rest
  }

  /** Removal distributes over concatenation, so the other providers keep their order. */
  lemma {:induction false} WithoutProviderAppend(a: seq<JwtProvider>, b: seq<JwtProvider>, name: string)
    ensures WithoutProvider(a + b, name) == WithoutProvider(a, name) + WithoutProvider(b, name)
  {
    if |a| == 0 {
      assert a + b == b;
    } else {
      assert (a + b)[1..] == a[1..] + b;
      WithoutProviderAppend(a[1..], b, name);
    }
  }

  /** Some provider among the first `n` is named `name`. */
  predicate NamedAmong(providers: seq<JwtProvider>, n: nat, name: string)
    requires n <= |providers|
  {
    exists j :: 0 <= j < n && providers[j].name == name
  }

  lemma WithoutProviderSuffixStep(providers: seq<JwtProvider>, i: nat, name: string)
    requires i < |providers|
    ensures WithoutProvider(providers[i..], name) ==
      (if providers[i].name == name then [] else [providers[i]]) + WithoutProvider(providers[i + 1..], name)
    ensures NamedAmong(providers, i + 1, name) <==> NamedAmong(providers, i, name) || providers[i].name == name
  {
    assert providers[i..][1..] == providers[i + 1..];
    NamedAmongStep(providers, i, name);
  }

  lemma NamedAmongStep(providers: seq<JwtProvider>, i: nat, name: string)
    requires i < |providers|
    ensures NamedAmong(providers, i + 1, name) <==> NamedAmong(providers, i, name) || providers[i].name == name
  {
    if NamedAmong(providers, i + 1, name) && providers[i].name != name {
      var j :| 0 <= j < i + 1 && providers[j].name == name;
      assert j < i;
    }
  }

  /** Removal changes nothing exactly when no provider carries the name. */
  lemma {:induction false} WithoutProviderUnchanged(providers: seq<JwtProvider>, name: string)
    ensures (forall i :: 0 <= i < |providers| ==> providers[i].name != name) <==>
      WithoutProvider(providers, name) == providers
  {
    if |providers| > 0 {
      WithoutProviderUnchanged(providers[1..], name);
      if providers[0].name != name && WithoutProvider(providers, name) != providers {
        assert WithoutProvider(providers[1..], name) != providers[1..];
      }
    }
  }

  /** A provider with another name survives removal. */
  lemma {:induction false} WithoutProviderKeepsOthers(providers: seq<JwtProvider>, name: string, i: nat)
    requires i < |providers| && providers[i].name != name
    ensures providers[i] in WithoutProvider(providers, name)
  {
    if i > 0 {
      WithoutProviderKeepsOthers(providers[1..], name, i - 1);
    }
  }

  /** The key manager's claim mappings as claim-to-header entries: local claim as header,
      remote claim as claim. */
  function MappedClaims(claims: seq<Claim>): (mapped: seq<ClaimToHeader>)
    ensures |mapped| == |claims|
    ensures forall i :: 0 <= i < |claims| ==>
      mapped[i].header == claims[i].localClaim && mapped[i].claim == claims[i].remoteClaim
  {
    if |claims| == 0 then [] else [ClaimToHeader(claims[0].localClaim, claims[0].remoteClaim)] + MappedClaims(claims[1..])
  }

  /** A provider refreshed from the key manager: issuer and claims are replaced; the JWKS URI
      only for a JWKS certificate (PEM and any other type keep the old URI). */
  function RefreshedProvider(provider: JwtProvider, config: KeyManagerConfig): (p: JwtProvider)
    ensures p.name == provider.name && p.issuer == config.issuer
    ensures p.remoteJwksUri == if config.certificateType == "JWKS" then config.certificateValue else provider.remoteJwksUri
    ensures p.claimToHeaders == MappedClaims(config.claimMappings)
  {
    provider.(issuer := config.issuer,
              remoteJwksUri := if config.certificateType == "JWKS" then config.certificateValue else provider.remoteJwksUri,
              claimToHeaders := MappedClaims(config.claimMappings))
  }

  /** Every provider named `name` refreshed from the cached key manager; without one in the
      cache nothing changes. */
  function RefreshedProviders(providers: seq<JwtProvider>, name: string, cached: Option<KeyManagerConfig>)
    : (r: seq<JwtProvider>)
    ensures |r| == |providers|
    ensures forall i :: 0 <= i < |providers| ==>
      r[i] == if providers[i].name == name && cached.Some? then RefreshedProvider(providers[i], cached.value) else providers[i]
  {
    if |providers| == 0 then []
    else
      var head := if providers[0].name == name && cached.Some? then RefreshedProvider(providers[0], cached.value) else providers[0];
      [head] + RefreshedProviders(providers[1..], name, cached)
  }

  /** Refreshing keeps every provider's name and position and is idempotent. */
  lemma RefreshIsIdempotent(providers: seq<JwtProvider>, name: string, cached: Option<KeyManagerConfig>)
    ensures var once := RefreshedProviders(providers, name, cached);
      && (forall i :: 0 <= i < |providers| ==> once[i].name == providers[i].name)
      && RefreshedProviders(once, name, cached) == once
  {
  }

  /** The removal loop: the kept providers, and whether one was removed. */
  method RemoveProviders(providers: seq<JwtProvider>, name: string)
    returns (kept: seq<JwtProvider>, removed: bool)
    ensures kept == WithoutProvider(providers, name)
    ensures removed <==> NamedAmong(providers, |providers|, name)
  {
    kept := [];
    removed := false;
    var i := 0;
    while i < |providers|
      invariant 0 <= i <= |providers|
      invariant WithoutProvider(providers, name) == kept + WithoutProvider(providers[i..], name)
      invariant removed <==> NamedAmong(providers, i, name)
    {
      WithoutProviderSuffixStep(providers, i, name);
      if providers[i].name != name {
        kept := kept + [providers[i]];
      } else {
        removed := true;
      }
      i := i + 1;
    }
  }

  /** The refresh loop: each provider named `name` is overwritten in place when the key
      manager is in the cache; `updated` says whether any was. */
  method RefreshProviders(providers: seq<JwtProvider>, name: string, cached: Option<KeyManagerConfig>)
    returns (refreshed: seq<JwtProvider>, updated: bool)
    ensures refreshed == RefreshedProviders(providers, name, cached)
    ensures updated <==> cached.Some? && exists i :: 0 <= i < |providers| && providers[i].name == name
  {
    ghost var target := RefreshedProviders(providers, name, cached);
    refreshed := providers;
    updated := false;
    var i := 0;
    while i < |providers|
      invariant 0 <= i <= |providers|
      invariant |refreshed| == |providers|
      invariant refreshed[..i] == target[..i]
      invariant refreshed[i..] == providers[i..]
      invariant updated <==> cached.Some? && exists j :: 0 <= j < i && providers[j].name == name
    {
      ghost var prev := refreshed;
      if providers[i].name == name && cached.Some? {
        refreshed := refreshed[i := RefreshedProvider(providers[i], cached.value)];
        updated := true;
      }
      RefreshStep(prev, refreshed, target, providers, i);
      i := i + 1;
    }
    assert refreshed == refreshed[..i] && target == target[..i];
  }

  /** One step of the refresh loop: position `i` now agrees with the target, the suffix after
      it is untouched. */
  lemma RefreshStep(prev: seq<JwtProvider>, next: seq<JwtProvider>, target: seq<JwtProvider>,
                    providers: seq<JwtProvider>, i: nat)
    requires i < |prev| == |next| == |target| == |providers|
    requires prev[..i] == target[..i] && prev[i..] == providers[i..]
    requires next[i] == target[i]
    requires forall j :: 0 <= j < |prev| && j != i ==> next[j] == prev[j]
    ensures next[..i + 1] == target[..i + 1] && next[i + 1..] == providers[i + 1..]
  {
    assert forall j :: 0 <= j < i ==> prev[..i][j] == target[..i][j];
    assert forall j :: i < j < |prev| ==> prev[j] == prev[i..][j - i];
  }

  /** One security policy's provider pass; `updated` says whether it must be written back,
      which it need not be exactly when nothing changed. */
  method UpdateProviders(sp: SecurityPolicy, providerName: string, removeProvider: bool,
                         cached: Option<KeyManagerConfig>) returns (next: SecurityPolicy, updated: bool)
    ensures next == UpdatedSecurityPolicy(sp, providerName, removeProvider, cached)
    ensures updated <==> exists i :: 0 <= i < |sp.providers| && sp.providers[i].name == providerName
                                     && (removeProvider || cached.Some?)
    ensures !updated ==> next == sp
  {
    var providers;
    if removeProvider {
      providers, updated := RemoveProviders(sp.providers, providerName);
      WithoutProviderUnchanged(sp.providers, providerName);
    } else {
      providers, updated := RefreshProviders(sp.providers, providerName, cached);
    }
    next := sp.(providers := providers);
  }

  predicate OrganizationSelected(labels: map<string, string>, tenantDomain: string) {
    OrganizationLabel in labels && labels[OrganizationLabel] == tenantDomain
  }

  /** The name under which a tenant's key manager appears as a JWT provider. */
  function ProviderName(keymanagerName: string, tenantDomain: string): string {
    tenantDomain + "-" + keymanagerName
  }

  /** A selected security policy after the key-manager event. */
  function UpdatedSecurityPolicy(sp: SecurityPolicy, providerName: string, removeProvider: bool,
                                 cached: Option<KeyManagerConfig>): (r: SecurityPolicy)
    ensures r.name == sp.name && r.labels == sp.labels
    ensures removeProvider ==> forall i :: 0 <= i < |r.providers| ==> r.providers[i].name != providerName
    ensures !removeProvider ==> |r.providers| == |sp.providers|
    ensures cached.None? && !removeProvider ==> r == sp
  {
    if removeProvider then sp.(providers := WithoutProvider(sp.providers, providerName))
    else sp.(providers := RefreshedProviders(sp.providers, providerName, cached))
  }

  // ---------------------------------------------------------------------------------------
  // Rate-limit policy updates.

  predicate RateLimitSelected(c: BackendTrafficPolicy, tenantDomain: string) {
    && "kgw.wso2.com/cpInitiated" in c.labels && c.labels["kgw.wso2.com/cpInitiated"] == "true"
    && OrganizationSelected(c.labels, tenantDomain)
  }

  /** Selection reads the labels only, and a traffic policy belongs to at most one tenant. */
  lemma SelectionByLabels(c: BackendTrafficPolicy, d: BackendTrafficPolicy, tenantDomain: string, other: string)
    requires c.labels == d.labels && RateLimitSelected(c, tenantDomain)
    ensures RateLimitSelected(d, tenantDomain)
    ensures other != tenantDomain ==> !RateLimitSelected(d, other)
  {
  }

  /** The first rule's limit set from the policy's request count (as an unsigned int) and time
      unit; all other rules unchanged. A policy without rules makes the source panic; the
      update method excludes that state, and here such a policy is returned as it is. */
  function RateLimitApplied(c: BackendTrafficPolicy, policy: RateLimitPolicy): (r: BackendTrafficPolicy)
    ensures |r.rules| == |c.rules| && r.(rules := c.rules) == c
    ensures c.rules == [] ==> r == c
    ensures forall i :: 0 < i < |c.rules| ==> r.rules[i] == c.rules[i]
    ensures c.rules != [] ==>
      && r.rules[0] == c.rules[0].(limit := r.rules[0].limit)
      && r.rules[0].limit.requests == UintOf(policy.defaultLimit.requestCount.requestCount)
      && r.rules[0].limit.unit == policy.defaultLimit.requestCount.timeUnit
  {
    if c.rules == [] then c
    else
      var limit := RateLimitValue(UintOf(policy.defaultLimit.requestCount.requestCount),
                                  policy.defaultLimit.requestCount.timeUnit);
      c.(rules := c.rules[0 := c.rules[0].(limit := limit)])
  }

  /** Every BackendTrafficPolicy the update selects for the tenant has a first rule. */
  predicate RateLimitUpdatable(policies: map<string, BackendTrafficPolicy>, tenantDomain: string) {
    forall k :: k in policies && RateLimitSelected(policies[k], tenantDomain) ==> policies[k].rules != []
  }

  /** The namespace's BackendTrafficPolicies after a rate-limit policy update: the selected
      ones carry the policy's limit in their first rule, the rest are untouched. */
  function RateLimitUpdated(policies: map<string, BackendTrafficPolicy>, policy: RateLimitPolicy)
    : (r: map<string, BackendTrafficPolicy>)
    ensures r.Keys == policies.Keys
    ensures forall k :: k in policies ==> r[k].labels == policies[k].labels && |r[k].rules| == |policies[k].rules|
    ensures forall k :: k in policies ==> r[k].(rules := policies[k].rules) == policies[k]
    ensures forall k :: k in policies && !RateLimitSelected(policies[k], policy.tenantDomain) ==> r[k] == policies[k]
    ensures forall k :: k in policies && RateLimitSelected(policies[k], policy.tenantDomain) ==>
      r[k] == RateLimitApplied(policies[k], policy)
    ensures forall k :: k in policies && RateLimitSelected(policies[k], policy.tenantDomain) && policies[k].rules != [] ==>
      r[k].rules[0].limit == RateLimitValue(UintOf(policy.defaultLimit.requestCount.requestCount),
                                            policy.defaultLimit.requestCount.timeUnit)
  {
    map k | k in policies ::
      if RateLimitSelected(policies[k], policy.tenantDomain) then RateLimitApplied(policies[k], policy) else policies[k]
  }

  /** Updatability only depends on labels and rule counts, so it carries over to any
      namespace state with the same keys, labels and rule counts. */
  lemma UpdatableCarriesOver(before: map<string, BackendTrafficPolicy>, after: map<string, BackendTrafficPolicy>,
                             tenantDomain: string)
    requires after.Keys == before.Keys
    requires forall k :: k in before ==> after[k].labels == before[k].labels && |after[k].rules| == |before[k].rules|
    requires RateLimitUpdatable(before, tenantDomain)
    ensures RateLimitUpdatable(after, tenantDomain)
  {
    forall k | k in after && RateLimitSelected(after[k], tenantDomain) ensures after[k].rules != [] {
      assert RateLimitSelected(before[k], tenantDomain);
    }
  }

  // ---------------------------------------------------------------------------------------
  // What the shared-container operations leave in the cluster.

  predicate IsSubscriptionContainer(c: BackendTrafficPolicy) {
    "kgw.wso2.com/type" in c.labels && c.labels["kgw.wso2.com/type"] == "subscription-ratelimit"
  }

  /** Every stored subscription container is well formed and non-empty. */
  predicate ContainersValid(policies: map<string, BackendTrafficPolicy>) {
    forall k :: k in policies && IsSubscriptionContainer(policies[k]) ==> ValidContainer(policies[k])
  }

  function Deployed(policies: map<string, BackendTrafficPolicy>, key: string, namespace: string,
                    gateway: string, policy: SubscriptionPolicy, aiPolicy: bool): (r: map<string, BackendTrafficPolicy>)
    requires Resolvable(policy)
    ensures r.Keys == policies.Keys + {key}
    ensures forall k :: k in policies && k != key ==> r[k] == policies[k]
    ensures RuleMatches(NewRule(policy, aiPolicy), policy.name)
  {
    NewRuleMatchesExactlyItsPolicy(policy, aiPolicy, policy.name);
    policies[key := UpsertContainer(Lookup(policies, key), key, namespace, policy.tenantDomain, gateway,
                                    policy.name, NewRule(policy, aiPolicy))]
  }

  function UnDeployed(policies: map<string, BackendTrafficPolicy>, key: string, policyName: string)
    : (r: map<string, BackendTrafficPolicy>)
    ensures r.Keys <= policies.Keys
    ensures forall k :: k in policies && k != key ==> k in r && r[k] == policies[k]
  {
    match RemoveFromContainer(Lookup(policies, key), policyName)
    case None => policies - {key}
    case Some(c) => policies[key := c]
  }

  /** Deploying keeps every stored subscription container valid. */
  lemma DeployKeepsClusterValid(policies: map<string, BackendTrafficPolicy>, key: string, namespace: string,
                                gateway: string, policy: SubscriptionPolicy, aiPolicy: bool)
    requires Resolvable(policy) && ContainersValid(policies)
    ensures ContainersValid(Deployed(policies, key, namespace, gateway, policy, aiPolicy))
  {
    var existing := Lookup(policies, key);
    if existing.Some? && !IsSubscriptionContainer(existing.value) {
      var c := UpsertContainer(existing, key, namespace, policy.tenantDomain, gateway, policy.name, NewRule(policy, aiPolicy));
      assert c.labels == existing.value.labels;
    } else {
      DeployKeepsContainerValid(existing, key, namespace, policy.tenantDomain, gateway, policy, aiPolicy);
    }
  }

  /** Undeploying keeps every stored subscription container valid. */
  lemma UnDeployKeepsClusterValid(policies: map<string, BackendTrafficPolicy>, key: string, policyName: string)
    requires ContainersValid(policies)
    ensures ContainersValid(UnDeployed(policies, key, policyName))
  {
    var existing := Lookup(policies, key);
    if existing.Some? && !IsSubscriptionContainer(existing.value) {
      var r := RemoveFromContainer(existing, policyName);
      assert r.Some? ==> r.value.labels == existing.value.labels;
    } else {
      RemoveKeepsContainerValid(existing, policyName);
    }
  }

  /** The ids retrieval reports for a tenant's container. */
  function StoredIds(policies: map<string, BackendTrafficPolicy>, key: string): (ids: seq<string>)
    ensures key !in policies ==> ids == []
    ensures forall x :: x in ids ==> x != ""
  {
    match Lookup(policies, key)
    case None => []
    case Some(c) =>
      assert forall x :: x in PolicyIds(c.rules) ==> x != "" by {
        forall x | x in PolicyIds(c.rules) ensures x != "" {
          PolicyIdsNonEmpty(c.rules, x);
        }
      }
      PolicyIds(c.rules)
  }

  lemma {:induction false} PolicyIdsNonEmpty(rules: seq<RateLimitRule>, x: string)
    requires x in PolicyIds(rules)
    ensures x != ""
  {
    if |rules| > 0 {
      PolicyIdsAppend([rules[0]], rules[1..]);
      assert [rules[0]] + rules[1..] == rules;
      if x in SelectorIds(rules[0].clientSelectors) {
        SelectorIdsNonEmpty(rules[0].clientSelectors, x);
      } else {
        assert PolicyIds([rules[0]]) == SelectorIds(rules[0].clientSelectors) + PolicyIds([]);
        PolicyIdsNonEmpty(rules[1..], x);
      }
    }
  }

  lemma {:induction false} SelectorIdsNonEmpty(selectors: seq<SelectCondition>, x: string)
    requires x in SelectorIds(selectors)
    ensures x != ""
  {
    if |selectors| > 0 {
      if x in HeaderIds(selectors[0].headers) {
        HeaderIdsNonEmpty(selectors[0].headers, x);
      } else {
        SelectorIdsNonEmpty(selectors[1..], x);
      }
    }
  }

  lemma {:induction false} HeaderIdsNonEmpty(headers: seq<HeaderMatch>, x: string)
    requires x in HeaderIds(headers)
    ensures x != ""
  {
    if |headers| > 0 && !IsIdHeader(headers[0]) {
      HeaderIdsNonEmpty(headers[1..], x);
    }
  }

  /** After a deploy, retrieval for the tenant lists the policy; and on a valid container
      retrieval lists exactly the policies that own a rule. */
  lemma DeployThenRetrieve(policies: map<string, BackendTrafficPolicy>, key: string, namespace: string,
                           gateway: string, policy: SubscriptionPolicy, aiPolicy: bool)
    requires Resolvable(policy) && policy.name != ""
    ensures policy.name in StoredIds(Deployed(policies, key, namespace, gateway, policy, aiPolicy), key)
  {
    var rule := NewRule(policy, aiPolicy);
    match Lookup(policies, key)
    case None =>
      NewRuleIds(policy, aiPolicy);
      assert PolicyIds([rule]) == SelectorIds(rule.clientSelectors) + PolicyIds([]);
    case Some(c) =>
      UpsertedPolicyIsRetrieved(c.rules, policy, aiPolicy);
  }

  /** On a container that is valid or absent, a deploy adds the policy's id to what retrieval
      lists for its key, drops none, leaves other keys alone, and keeps the container valid. */
  lemma DeployedIds(policies: map<string, BackendTrafficPolicy>, key: string, namespace: string,
                    gateway: string, policy: SubscriptionPolicy, aiPolicy: bool, other: string, x: string)
    requires Resolvable(policy)
    requires other in policies ==> ValidContainer(policies[other])
    ensures var r := Deployed(policies, key, namespace, gateway, policy, aiPolicy);
      && (other in r ==> ValidContainer(r[other]))
      && (x in StoredIds(r, other) <==> x in StoredIds(policies, other) || (other == key && x == policy.name && x != ""))
  {
    var r := Deployed(policies, key, namespace, gateway, policy, aiPolicy);
    if other == key {
      var rule := NewRule(policy, aiPolicy);
      DeployKeepsContainerValid(Lookup(policies, key), key, namespace, policy.tenantDomain, gateway, policy, aiPolicy);
      if key in policies {
        UpsertIds(policies[key].rules, policy, aiPolicy, x);
      } else {
        NewRuleIds(policy, aiPolicy);
        assert r[key].rules == [rule];
        assert PolicyIds([rule]) == SelectorIds(rule.clientSelectors) + PolicyIds([]);
      }
    }
  }

  lemma RetrieveListsOwners(policies: map<string, BackendTrafficPolicy>, key: string, x: string)
    requires key in policies && ValidContainer(policies[key])
    ensures x in StoredIds(policies, key) <==>
      x != "" && exists i :: 0 <= i < |policies[key].rules| && IdOf(policies[key].rules[i]) == x
  {
    PolicyIdsOfCanonical(policies[key].rules, x);
  }

  // ---------------------------------------------------------------------------------------
  // The cluster.

  class Cluster {
    /** Names of the Gateways labelled `managed-by: wso2kgw`, in list order. */
    var gateways: seq<string>
    /** BackendTrafficPolicies of the data-plane namespace, by name. */
    var trafficPolicies: map<string, BackendTrafficPolicy>
    /** SecurityPolicies of the data-plane namespace, by name. */
    var securityPolicies: map<string, SecurityPolicy>
    /** Whether reads fail with an error other than NotFound. */
    const apiDown: bool
    /** CreateSubscriptionPolicyName(SharedRateLimitPolicyName, organization). */
    const sharedPolicyName: string -> string
    const namespace: string

    constructor(namespace: string, sharedPolicyName: string -> string, apiDown: bool,
                gateways: seq<string>, trafficPolicies: map<string, BackendTrafficPolicy>,
                securityPolicies: map<string, SecurityPolicy>)
      ensures this.namespace == namespace && this.sharedPolicyName == sharedPolicyName
      ensures this.apiDown == apiDown && this.gateways == gateways
      ensures this.trafficPolicies == trafficPolicies && this.securityPolicies == securityPolicies
    {
      this.namespace := namespace;
      this.sharedPolicyName := sharedPolicyName;
      this.apiDown := apiDown;
      this.gateways := gateways;
      this.trafficPolicies := trafficPolicies;
      this.securityPolicies := securityPolicies;
    }

    ghost predicate Valid()
      reads this
    {
      ContainersValid(trafficPolicies)
    }

    function ListedGateway(): (found: Option<string>)
      reads this
      ensures found.Some? <==> !apiDown && gateways != []
    {
      if apiDown || gateways == [] then None else Some(gateways[0])
    }

    /** The first managed Gateway's name; an error when listing fails or finds none. */
    method GetGatewayName() returns (r: Result<string>)
      ensures r.Ok? <==> !apiDown && gateways != []
      ensures r.Ok? ==> r.value == gateways[0]
    {
      if apiDown {
        return Err("failed to get the required gateway from k8s");
      }
      if |gateways| == 0 {
        return Err("no gateway found with the label selector");
      }
      return Ok(gateways[0]);
    }

    /** The ids of the policies enforced by the tenant's shared container: none when it does
        not exist, an error when it cannot be read. */
    method RetrieveSharedSubscriptionRateLimitPolicy(organization: string) returns (r: Result<seq<string>>)
      ensures r.Err? <==> apiDown
      ensures r.Ok? ==> r.value == StoredIds(trafficPolicies, sharedPolicyName(organization))
    {
      var key := sharedPolicyName(organization);
      if apiDown {
        return Err("unable to get shared RateLimit BackendTrafficPolicy CR");
      }
      if key !in trafficPolicies {
        return Ok([]);
      }
      var names := CollectPolicyNames(trafficPolicies[key].rules);
      return Ok(names);
    }

    /** Creates the tenant's shared container holding the policy's rule, or upserts the rule
        into the existing container. */
    method DeploySharedSubscriptionRateLimitPolicy(policy: SubscriptionPolicy, aiPolicy: bool)
      requires Resolvable(policy)
      modifies this
      ensures gateways == old(gateways) && securityPolicies == old(securityPolicies)
      ensures trafficPolicies == if apiDown then old(trafficPolicies)
        else Deployed(old(trafficPolicies), sharedPolicyName(policy.tenantDomain), namespace,
                      GatewayNameOrDefault(ListedGateway()), policy, aiPolicy)
      ensures old(Valid()) ==> Valid()
    {
      var found := GetGatewayName();
      var gatewayName := if found.Ok? then found.value else "";
      if gatewayName == "" {
        gatewayName := DefaultGatewayName;
      }
      assert gatewayName == GatewayNameOrDefault(ListedGateway());
      var key := sharedPolicyName(policy.tenantDomain);
      if apiDown {
        return;
      }
      ghost var before := trafficPolicies;
      trafficPolicies := UpsertSharedContainer(trafficPolicies, key, namespace, gatewayName, policy, aiPolicy);
      if ContainersValid(before) {
        DeployKeepsClusterValid(before, key, namespace, gatewayName, policy, aiPolicy);
      }
    }

    /** Removes the policy's rules from the tenant's shared container, deleting the container
        when none remain; nothing is written when the container has no rule of the policy.
        `aiPolicy` is accepted and not used. */
    method UnDeploySharedSubscriptionRateLimitPolicy(policyName: string, tenantDomain: string, aiPolicy: bool)
      modifies this
      ensures gateways == old(gateways) && securityPolicies == old(securityPolicies)
      ensures trafficPolicies == if apiDown then old(trafficPolicies)
        else UnDeployed(old(trafficPolicies), sharedPolicyName(tenantDomain), policyName)
      ensures old(Valid()) ==> Valid()
    {
      var key := sharedPolicyName(tenantDomain);
      if apiDown {
        return;
      }
      if ContainersValid(trafficPolicies) {
        UnDeployKeepsClusterValid(trafficPolicies, key, policyName);
      }
      var next, written := RemoveFromSharedContainer(trafficPolicies, key, policyName);
      if written {
        trafficPolicies := next;
      }
    }

    /** Sets the first rule's limit of every control-plane-initiated BackendTrafficPolicy of
        the tenant. A selected policy without rules makes the source panic; it is excluded. */
    method UpdateRateLimitPolicy(policy: RateLimitPolicy)
      requires RateLimitUpdatable(trafficPolicies, policy.tenantDomain)
      modifies this
      ensures gateways == old(gateways) && securityPolicies == old(securityPolicies)
      ensures apiDown ==> trafficPolicies == old(trafficPolicies)
      ensures !apiDown ==> trafficPolicies == RateLimitUpdated(old(trafficPolicies), policy)
      ensures old(Valid()) ==> Valid()
    {
      if apiDown {
        return;
      }
      ghost var before := trafficPolicies;
      trafficPolicies := ApplyRateLimit(trafficPolicies, policy);
      if ContainersValid(before) {
        RateLimitKeepsValid(before, policy);
      }
    }

    /** Removes the key manager's provider from, or refreshes it in, every SecurityPolicy of
        the tenant; a policy is written back only when a provider was removed or refreshed. */
    method UpdateSecurityPolicies(keymanagerName: string, tenantDomain: string, removeProvider: bool,
                                  cached: Option<ResolvedKeyManager>)
      modifies this
      ensures gateways == old(gateways) && trafficPolicies == old(trafficPolicies)
      ensures apiDown ==> securityPolicies == old(securityPolicies)
      ensures !apiDown ==>
        securityPolicies == SecurityPoliciesUpdated(old(securityPolicies), tenantDomain,
                                                    ProviderName(keymanagerName, tenantDomain),
                                                    removeProvider, ConfigOf(cached))
    {
      var providerName := ProviderName(keymanagerName, tenantDomain);
      if apiDown {
        return;
      }
      securityPolicies := UpdateSelectedPolicies(securityPolicies, tenantDomain, providerName, removeProvider, ConfigOf(cached));
    }
  }

  /** The namespace's SecurityPolicies after the key-manager event: those of the tenant get
      the provider pass, the others are untouched. */
  function SecurityPoliciesUpdated(policies: map<string, SecurityPolicy>, tenantDomain: string, providerName: string,
                                   removeProvider: bool, cached: Option<KeyManagerConfig>)
    : (r: map<string, SecurityPolicy>)
    ensures r.Keys == policies.Keys
    ensures forall k :: k in policies && !OrganizationSelected(policies[k].labels, tenantDomain) ==> r[k] == policies[k]
    ensures forall k :: k in policies ==> r[k].name == policies[k].name && r[k].labels == policies[k].labels
  {
    map k | k in policies ::
      if OrganizationSelected(policies[k].labels, tenantDomain)
      then UpdatedSecurityPolicy(policies[k], providerName, removeProvider, cached)
      else policies[k]
  }

  /** The loop over the namespace's SecurityPolicies: each one of the tenant, in map order,
      goes through the provider pass and is written back when it changed. */
  method UpdateSelectedPolicies(before: map<string, SecurityPolicy>, tenantDomain: string, providerName: string,
                                removeProvider: bool, cached: Option<KeyManagerConfig>)
    returns (policies: map<string, SecurityPolicy>)
    ensures policies == SecurityPoliciesUpdated(before, tenantDomain, providerName, removeProvider, cached)
  {
    ghost var target := SecurityPoliciesUpdated(before, tenantDomain, providerName, removeProvider, cached);
    policies := before;
    var pending := set k | k in policies && OrganizationSelected(policies[k].labels, tenantDomain);
    ghost var selected := pending;
    while pending != {}
      invariant pending <= selected && Pass(before, target, policies, pending)
      decreases pending
    {
      var k :| k in pending;
      var next, updated := UpdateProviders(policies[k], providerName, removeProvider, cached);
      assert next == target[k];
      PassStep(before, target, policies, pending, k, next, updated);
      if updated {
        policies := policies[k := next];
      }
      pending := pending - {k};
    }
    assert policies == target;
  }

  /** The container write of a deploy: a new container holding the policy's rule when the
      tenant has none, otherwise the existing container with the rule upserted. */
  method UpsertSharedContainer(policies: map<string, BackendTrafficPolicy>, key: string, namespace: string,
                               gateway: string, policy: SubscriptionPolicy, aiPolicy: bool)
    returns (r: map<string, BackendTrafficPolicy>)
    requires Resolvable(policy)
    ensures r == Deployed(policies, key, namespace, gateway, policy, aiPolicy)
  {
    var newRule := NewRule(policy, aiPolicy);
    var container;
    if key !in policies {
      container := CreatedContainer(key, namespace, policy.tenantDomain, gateway, newRule);
    } else {
      var existing := policies[key];
      var rules, _ := UpsertRule(existing.rules, policy.name, newRule);
      container := existing.(rules := rules);
    }
    r := policies[key := container];
  }

  /** The container write of an undeploy: the container without the policy's rules, deleted
      when none remain; `written` is false, and nothing is written, when the container is
      absent or has no rule of the policy. */
  method RemoveFromSharedContainer(policies: map<string, BackendTrafficPolicy>, key: string, policyName: string)
    returns (r: map<string, BackendTrafficPolicy>, written: bool)
    ensures r == UnDeployed(policies, key, policyName)
    ensures !written ==> r == policies
  {
    if key !in policies {
      return policies, false;
    }
    var existing := policies[key];
    var kept, found := KeepUnmatched(existing.rules, policyName);
    ghost var removed := RemoveFromContainer(Some(existing), policyName);
    if !found {
      assert removed == Some(existing);
      return policies, false;
    }
    if |kept| == 0 {
      assert removed == None;
      r := policies - {key};
    } else {
      assert removed == Some(existing.(rules := kept));
      r := policies[key := existing.(rules := kept)];
    }
    written := true;
  }

  /** The resolved key manager's configuration, when it is in the cache. */
  function ConfigOf(cached: Option<ResolvedKeyManager>): (config: Option<KeyManagerConfig>)
    ensures config.Some? <==> cached.Some?
    ensures cached.Some? ==> config.value == cached.value.keyManagerConfig
  {
    match cached
    case None => None
    case Some(km) => Some(km.keyManagerConfig)
  }

  /** The update loop over the namespace's traffic policies: each selected one, in map
      order, gets the policy's limit in its first rule. */
  method ApplyRateLimit(before: map<string, BackendTrafficPolicy>, policy: RateLimitPolicy)
    returns (policies: map<string, BackendTrafficPolicy>)
    requires RateLimitUpdatable(before, policy.tenantDomain)
    ensures policies == RateLimitUpdated(before, policy)
  {
    ghost var target := RateLimitUpdated(before, policy);
    policies := before;
    var pending := set k | k in policies && RateLimitSelected(policies[k], policy.tenantDomain);
    ghost var selected := pending;
    while pending != {}
      invariant pending <= selected && Pass(before, target, policies, pending)
      decreases pending
    {
      var k :| k in pending;
      var next := RateLimitApplied(policies[k], policy);
      assert next == target[k];
      PassStep(before, target, policies, pending, k, next, true);
      policies := policies[k := next];
      pending := pending - {k};
    }
    assert policies == target;
  }

  /** The state of a loop that rewrites some entries of a map one key at a time: the entries
      under `pending` are as `before`, every other one is already as in `target`. */
  ghost predicate Pass<V>(before: map<string, V>, target: map<string, V>, current: map<string, V>,
                          pending: set<string>) {
    && pending <= before.Keys && current.Keys == before.Keys && target.Keys == before.Keys
    && forall k :: k in before ==> current[k] == if k in pending then before[k] else target[k]
  }

  /** Writing the target value of one pending key (or leaving an entry alone that already
      has it) advances the pass. */
  lemma PassStep<V>(before: map<string, V>, target: map<string, V>, current: map<string, V>,
                    pending: set<string>, k: string, next: V, written: bool)
    requires Pass(before, target, current, pending) && k in pending && next == target[k]
    requires !written ==> next == current[k]
    ensures Pass(before, target, if written then current[k := next] else current, pending - {k})
  {
    var after := if written then current[k := next] else current;
    forall j | j in before
      ensures after[j] == if j in pending - {k} then before[j] else target[j]
    {
      if j != k {
        assert after[j] == current[j];
      }
    }
  }

  /** Overwriting a first rule's limit keeps every subscription container valid, since
      validity depends on the rules' selectors only. */
  lemma RateLimitKeepsValid(before: map<string, BackendTrafficPolicy>, policy: RateLimitPolicy)
    requires ContainersValid(before)
    ensures ContainersValid(RateLimitUpdated(before, policy))
  {
    var after := RateLimitUpdated(before, policy);
    forall k | k in after && IsSubscriptionContainer(after[k])
      ensures ValidContainer(after[k])
    {
      if RateLimitSelected(before[k], policy.tenantDomain) {
        AppliedKeepsValid(before[k], policy);
      }
    }
  }

  /** Overwriting the first rule's limit keeps a container's labels and validity. */
  lemma AppliedKeepsValid(c: BackendTrafficPolicy, policy: RateLimitPolicy)
    ensures RateLimitApplied(c, policy).labels == c.labels
    ensures ValidContainer(c) ==> ValidContainer(RateLimitApplied(c, policy))
  {
    var r := RateLimitApplied(c, policy);
    if c.rules != [] {
      assert forall i :: 0 <= i < |r.rules| ==> r.rules[i].clientSelectors == c.rules[i].clientSelectors;
      SameSelectorsWellFormed(c.rules, r.rules);
    }
  }

  /** Well-formedness depends on the rules' selectors only. */
  lemma SameSelectorsWellFormed(a: seq<RateLimitRule>, b: seq<RateLimitRule>)
    requires |a| == |b| && forall i :: 0 <= i < |a| ==> a[i].clientSelectors == b[i].clientSelectors
    ensures WellFormed(a) ==> WellFormed(b)
  {
    assert forall i :: 0 <= i < |a| ==> IdOf(a[i]) == IdOf(b[i]) && (Canonical(a[i]) <==> Canonical(b[i]));
  }

  /** The shared subscription container carries both labels the rate-limit update selects
      on, so that update also overwrites the first subscription rule's limit. */
  lemma RateLimitUpdateReachesSharedContainer(name: string, namespace: string, tenantDomain: string,
                                              gateway: string, rule: RateLimitRule, policy: RateLimitPolicy)
    requires policy.tenantDomain == tenantDomain
    ensures var c := CreatedContainer(name, namespace, tenantDomain, gateway, rule);
      RateLimitSelected(c, tenantDomain) && IsSubscriptionContainer(c)
      && RateLimitApplied(c, policy).rules[0].limit.requests == UintOf(policy.defaultLimit.requestCount.requestCount)
  {
  }

  /** A key-manager event acts on the provider named `<tenant>-<key manager>` only: every
      provider of another name survives in every security policy, and after a removal no
      policy of the tenant lists a provider of that name. */
  lemma KeyManagerEventTouchesOnlyItsProvider(policies: map<string, SecurityPolicy>, keymanagerName: string,
                                              tenantDomain: string, removeProvider: bool,
                                              cached: Option<KeyManagerConfig>, k: string, other: JwtProvider)
    requires k in policies && other in policies[k].providers
    requires other.name != tenantDomain + "-" + keymanagerName
    ensures var r := SecurityPoliciesUpdated(policies, tenantDomain, ProviderName(keymanagerName, tenantDomain),
                                             removeProvider, cached);
      && other in r[k].providers
      && (removeProvider && OrganizationSelected(policies[k].labels, tenantDomain) ==>
            forall i :: 0 <= i < |r[k].providers| ==> r[k].providers[i].name != tenantDomain + "-" + keymanagerName)
  {
    var name := ProviderName(keymanagerName, tenantDomain);
    var sp := policies[k];
    var i :| 0 <= i < |sp.providers| && sp.providers[i] == other;
    if OrganizationSelected(sp.labels, tenantDomain) {
      if removeProvider {
        WithoutProviderKeepsOthers(sp.providers, name, i);
      } else {
        assert RefreshedProviders(sp.providers, name, cached)[i] == other;
      }
    }
  }

  /** Removing a key manager's provider leaves every other provider of a selected policy, in
      order, and none of the removed one. */
  lemma RemovedProviderIsGone(sp: SecurityPolicy, providerName: string, other: JwtProvider)
    requires other in sp.providers && other.name != providerName
    ensures var r := UpdatedSecurityPolicy(sp, providerName, true, None);
      other in r.providers && forall i :: 0 <= i < |r.providers| ==> r.providers[i].name != providerName
  {
    var i :| 0 <= i < |sp.providers| && sp.providers[i] == other;
    WithoutProviderKeepsOthers(sp.providers, providerName, i);
  }
}
