/** The shared subscription rate-limit container: one BackendTrafficPolicy per tenant whose
    global rules each carry a `policy-id` header naming the subscription policy they enforce
    (k8s_client.go, DeploySharedSubscriptionRateLimitPolicyCR, UnDeploySharedSubscriptionRateLimitPolicyCR,
    RetrieveSharedSubscriptionRateLimitPolicyFromK8s). These are the specification functions and
    their lemmas; the step-by-step methods that meet them live in module K8sClient. */
module SharedPolicy {
  import opened Wrappers
  import opened EventHubTypes
  import opened QuotaResolver

  /** A header condition; value and invert may be nil in the CRD, hence optional. */
  datatype HeaderMatch = HeaderMatch(name: string, value: Option<string>, invert: Option<bool>)

  datatype SelectCondition = SelectCondition(headers: seq<HeaderMatch>)

  datatype RateLimitValue = RateLimitValue(requests: nat, unit: string)

  datatype RateLimitRule = RateLimitRule(
    clientSelectors: seq<SelectCondition>,
    limit: RateLimitValue,
    shared: Option<bool>)

  /** The BackendTrafficPolicy resource, reduced to what the merger reads and writes. */
  datatype BackendTrafficPolicy = BackendTrafficPolicy(
    name: string,
    namespace: string,
    labels: map<string, string>,
    mergeType: string,
    rateLimitType: string,
    targetGateway: string,
    rules: seq<RateLimitRule>)

  const PolicyIdHeader: string := "policy-id"
  const SharedRateLimitPolicyName: string := "kgw-shared-subscription-rl-policy"
  const DefaultGatewayName: string := "wso2-kgw-default"
  const OrganizationLabel: string := "kgw.wso2.com/organization"

  // ---------------------------------------------------------------------------------------
  // Rule identity: a rule belongs to policy `name` when one of its headers is
  // `policy-id` with value `name`.

  predicate HeaderCarries(h: HeaderMatch, name: string) {
    h.name == PolicyIdHeader && h.value == Some(name)
  }

  predicate SelectorCarries(sel: SelectCondition, name: string) {
    exists k :: 0 <= k < |sel.headers| && HeaderCarries(sel.headers[k], name)
  }

  predicate RuleMatches(rule: RateLimitRule, name: string) {
    exists j :: 0 <= j < |rule.clientSelectors| && SelectorCarries(rule.clientSelectors[j], name)
  }

  /** Index of the first rule of `name`, if any. */
  function FirstMatch(rules: seq<RateLimitRule>, name: string): (r: Option<nat>)
    ensures r.Some? ==> r.value < |rules| && RuleMatches(rules[r.value], name)
    ensures r.Some? ==> forall j :: 0 <= j < r.value ==> !RuleMatches(rules[j], name)
    ensures r.None? <==> forall j :: 0 <= j < |rules| ==> !RuleMatches(rules[j], name)
  {
    if |rules| == 0 then None
    else if RuleMatches(rules[0], name) then Some(0)
    else match FirstMatch(rules[1..], name)
      case Some(i) => Some(i + 1)
      case None => None
  }

  // ---------------------------------------------------------------------------------------
  // Building the rule for a policy.

  function EmptyHeader(name: string): HeaderMatch {
    HeaderMatch(name, Some(""), Some(false))
  }

  /** The header names of the rule built for a policy, in order. */
  function CanonicalHeaderNames(aiPolicy: bool): seq<string> {
    ["x-wso2-api-id", "x-wso2-organization", "x-wso2-subscription-id"]
    + (if aiPolicy then ["cost"] else [])
    + [PolicyIdHeader]
  }

  function NewRule(policy: SubscriptionPolicy, aiPolicy: bool): (rule: RateLimitRule)
    requires Resolvable(policy)
  {
    var contents := GetRateLimitPolicyContents(policy);
    var headers :=
      [EmptyHeader("x-wso2-api-id"), EmptyHeader("x-wso2-organization"), EmptyHeader("x-wso2-subscription-id")]
      + (if aiPolicy then [EmptyHeader("cost")] else [])
      + [HeaderMatch(PolicyIdHeader, Some(policy.name), Some(false))];
    RateLimitRule([SelectCondition(headers)], RateLimitValue(contents.requests, contents.unit), Some(false))
  }

  /** The rule has a single selector whose headers are, in order, the api-id, organization and
      subscription-id headers, `cost` for AI policies, then `policy-id` carrying the policy
      name; nothing is inverted, the limit is not shared and comes from the quota resolver. */
  lemma NewRuleShape(policy: SubscriptionPolicy, aiPolicy: bool)
    requires Resolvable(policy)
    ensures var rule := NewRule(policy, aiPolicy);
      var headers := rule.clientSelectors[0].headers;
      && |rule.clientSelectors| == 1
      && |headers| == |CanonicalHeaderNames(aiPolicy)|
      && (forall k :: 0 <= k < |headers| ==> headers[k].name == CanonicalHeaderNames(aiPolicy)[k])
      && (forall k :: 0 <= k < |headers| ==> headers[k].invert == Some(false))
      && headers[|headers| - 1].value == Some(policy.name)
      && rule.shared == Some(false)
      && rule.limit == RateLimitValue(GetRateLimitPolicyContents(policy).requests, GetRateLimitPolicyContents(policy).unit)
  {
    var rule := NewRule(policy, aiPolicy);
    var headers := rule.clientSelectors[0].headers;
    if aiPolicy {
      assert |headers| == 5;
    } else {
      assert |headers| == 4;
    }
  }

  /** A `cost` header appears exactly for AI policies. */
  lemma NewRuleHasCostIffAi(policy: SubscriptionPolicy, aiPolicy: bool)
    requires Resolvable(policy)
    ensures var headers := NewRule(policy, aiPolicy).clientSelectors[0].headers;
      (exists k :: 0 <= k < |headers| && headers[k].name == "cost") <==> aiPolicy
  {
    var headers := NewRule(policy, aiPolicy).clientSelectors[0].headers;
    if aiPolicy {
      assert headers[3].name == "cost";
    } else {
      assert |headers| == 4;
      assert forall k :: 0 <= k < |headers| ==> headers[k].name != "cost";
    }
  }

  /** The built rule belongs to its policy and to no other. */
  lemma NewRuleMatchesExactlyItsPolicy(policy: SubscriptionPolicy, aiPolicy: bool, name: string)
    requires Resolvable(policy)
    ensures RuleMatches(NewRule(policy, aiPolicy), name) <==> name == policy.name
  {
    var rule := NewRule(policy, aiPolicy);
    var headers := rule.clientSelectors[0].headers;
    assert SelectorCarries(rule.clientSelectors[0], policy.name) by {
      assert HeaderCarries(headers[|headers| - 1], policy.name);
    }
    if RuleMatches(rule, name) {
      var j :| 0 <= j < |rule.clientSelectors| && SelectorCarries(rule.clientSelectors[j], name);
      var k :| 0 <= k < |headers| && HeaderCarries(headers[k], name);
      assert k == |headers| - 1;
    }
  }

  // ---------------------------------------------------------------------------------------
  // Upsert: replace the first rule of the policy in place, or append.

  function Upserted(rules: seq<RateLimitRule>, name: string, newRule: RateLimitRule): seq<RateLimitRule> {
    match FirstMatch(rules, name)
    case Some(i) => rules[i := newRule]
    case None => rules + [newRule]
  }

  /** When the policy already has a rule, only its first rule is replaced, at the same index;
      every other rule is unchanged and in place. */
  lemma UpsertReplacesFirstMatchOnly(rules: seq<RateLimitRule>, name: string, newRule: RateLimitRule, i: nat)
    requires i < |rules| && RuleMatches(rules[i], name)
    requires forall j :: 0 <= j < i ==> !RuleMatches(rules[j], name)
    ensures var r := Upserted(rules, name, newRule);
      && |r| == |rules|
      && r[i] == newRule
      && forall j :: 0 <= j < |rules| && j != i ==> r[j] == rules[j]
  {
    FirstMatchAt(rules, name, i);
  }

  /** The first rule of the policy is the one at index i exactly when no earlier rule is. */
  lemma FirstMatchAt(rules: seq<RateLimitRule>, name: string, i: nat)
    requires i < |rules| && RuleMatches(rules[i], name)
    requires forall j :: 0 <= j < i ==> !RuleMatches(rules[j], name)
    ensures FirstMatch(rules, name) == Some(i)
  {
    var m := FirstMatch(rules, name);
    assert m.Some?;
    assert m.value == i;
  }

  /** When the policy has no rule yet, the new rule is appended after all others. */
  lemma UpsertAppendsWhenAbsent(rules: seq<RateLimitRule>, name: string, newRule: RateLimitRule)
    requires forall j :: 0 <= j < |rules| ==> !RuleMatches(rules[j], name)
    ensures Upserted(rules, name, newRule) == rules + [newRule]
  {
  }

  /** The rule list grows by at most one and afterwards holds the new rule. */
  lemma UpsertGrowsByAtMostOne(rules: seq<RateLimitRule>, name: string, newRule: RateLimitRule)
    ensures var r := Upserted(rules, name, newRule);
      |rules| <= |r| <= |rules| + 1 && newRule in r
  {
    var r := Upserted(rules, name, newRule);
    match FirstMatch(rules, name)
    case Some(i) => assert r[i] == newRule;
    case None => assert r[|rules|] == newRule;
  }

  /** Upserting the same rule twice is the same as upserting it once. */
  lemma UpsertIdempotent(rules: seq<RateLimitRule>, name: string, newRule: RateLimitRule)
    requires RuleMatches(newRule, name)
    ensures Upserted(Upserted(rules, name, newRule), name, newRule) == Upserted(rules, name, newRule)
  {
    var once := Upserted(rules, name, newRule);
    match FirstMatch(rules, name)
    case Some(i) =>
      UpsertReplacesFirstMatchOnly(once, name, newRule, i);
    case None =>
      UpsertReplacesFirstMatchOnly(once, name, newRule, |rules|);
  }

  // ---------------------------------------------------------------------------------------
  // Remove: drop every rule of the policy, keeping the order of the survivors.

  function Filtered(rules: seq<RateLimitRule>, name: string): (kept: seq<RateLimitRule>)
    ensures |kept| <= |rules|
    ensures forall i :: 0 <= i < |kept| ==> !RuleMatches(kept[i], name) && kept[i] in rules
    ensures |kept| == |rules| <==> forall j :: 0 <= j < |rules| ==> !RuleMatches(rules[j], name)
  {
    if |rules| == 0 then []
    else
      var rest := Filtered(rules[1..], name);
      assert forall i :: 0 <= i < |rest| ==> rest[i] in rules;
      if RuleMatches(rules[0], name) then rest else [rules[0]] + rest
  }

  /** Filtering distributes over concatenation, so survivors keep their relative order. */
  lemma {:induction false} FilteredAppend(a: seq<RateLimitRule>, b: seq<RateLimitRule>, name: string)
    ensures Filtered(a + b, name) == Filtered(a, name) + Filtered(b, name)
  {
    if |a| == 0 {
      assert a + b == b;
    } else {
      assert (a + b)[1..] == a[1..] + b;
      FilteredAppend(a[1..], b, name);
    }
  }

  /** A rule not of the policy survives; a rule of the policy does not. */
  lemma FilteredSingleton(rule: RateLimitRule, name: string)
    ensures Filtered([rule], name) == if RuleMatches(rule, name) then [] else [rule]
  {
  }

  // ---------------------------------------------------------------------------------------
  // Retrieval: the non-empty policy-id values, one per selector, in rule order.

  predicate IsIdHeader(h: HeaderMatch) {
    h.name == PolicyIdHeader && h.value.Some? && h.value.value != ""
  }

  /** The first non-empty policy-id value among a selector's headers. */
  function HeaderIds(headers: seq<HeaderMatch>): seq<string> {
    if |headers| == 0 then []
    else if IsIdHeader(headers[0]) then [headers[0].value.value]
    else HeaderIds(headers[1..])
  }

  function SelectorIds(selectors: seq<SelectCondition>): seq<string> {
    if |selectors| == 0 then [] else HeaderIds(selectors[0].headers) + SelectorIds(selectors[1..])
  }

  function PolicyIds(rules: seq<RateLimitRule>): seq<string> {
    if |rules| == 0 then [] else SelectorIds(rules[0].clientSelectors) + PolicyIds(rules[1..])
  }

  lemma {:induction false} PolicyIdsAppend(a: seq<RateLimitRule>, b: seq<RateLimitRule>)
    ensures PolicyIds(a + b) == PolicyIds(a) + PolicyIds(b)
  {
    if |a| == 0 {
      assert a + b == b;
    } else {
      assert (a + b)[1..] == a[1..] + b;
      PolicyIdsAppend(a[1..], b);
    }
  }

  lemma {:induction false} SelectorIdsAppend(a: seq<SelectCondition>, b: seq<SelectCondition>)
    ensures SelectorIds(a + b) == SelectorIds(a) + SelectorIds(b)
  {
    if |a| == 0 {
      assert a + b == b;
    } else {
      assert (a + b)[1..] == a[1..] + b;
      SelectorIdsAppend(a[1..], b);
    }
  }

  /** Every id a rule contributes is listed. */
  lemma PolicyIdsListsRule(rules: seq<RateLimitRule>, i: nat)
    requires i < |rules|
    ensures forall x :: x in SelectorIds(rules[i].clientSelectors) ==> x in PolicyIds(rules)
  {
    assert rules == rules[..i] + ([rules[i]] + rules[i + 1..]);
    PolicyIdsAppend(rules[..i], [rules[i]] + rules[i + 1..]);
    PolicyIdsAppend([rules[i]], rules[i + 1..]);
  }

  /** The ids contributed by the built rule: its name, unless the name is empty. */
  lemma NewRuleIds(policy: SubscriptionPolicy, aiPolicy: bool)
    requires Resolvable(policy)
    ensures SelectorIds(NewRule(policy, aiPolicy).clientSelectors) == if policy.name == "" then [] else [policy.name]
  {
    var headers := NewRule(policy, aiPolicy).clientSelectors[0].headers;
    var last := |headers| - 1;
    assert forall k :: 0 <= k < last ==> !IsIdHeader(headers[k]);
    assert HeaderIds(headers[last..]) == if policy.name == "" then [] else [policy.name];
    HeaderIdsSkip(headers, last);
  }

  lemma {:induction false} HeaderIdsSkip(headers: seq<HeaderMatch>, n: nat)
    requires n <= |headers|
    requires forall k :: 0 <= k < n ==> !IsIdHeader(headers[k])
    ensures HeaderIds(headers) == HeaderIds(headers[n..])
  {
    if n > 0 {
      assert headers[1..][n - 1..] == headers[n..];
      HeaderIdsSkip(headers[1..], n - 1);
    }
  }

  /** After upserting a policy with a non-empty name, retrieval lists that name. */
  lemma UpsertedPolicyIsRetrieved(rules: seq<RateLimitRule>, policy: SubscriptionPolicy, aiPolicy: bool)
    requires Resolvable(policy) && policy.name != ""
    ensures policy.name in PolicyIds(Upserted(rules, policy.name, NewRule(policy, aiPolicy)))
  {
    var rule := NewRule(policy, aiPolicy);
    var r := Upserted(rules, policy.name, rule);
    NewRuleIds(policy, aiPolicy);
    UpsertGrowsByAtMostOne(rules, policy.name, rule);
    var i :| 0 <= i < |r| && r[i] == rule;
    PolicyIdsListsRule(r, i);
  }

  // ---------------------------------------------------------------------------------------
  // The container.

  function GatewayNameOrDefault(found: Option<string>): (name: string)
    ensures name != ""
    ensures found.Some? && found.value != "" ==> name == found.value
  {
    if found.Some? && found.value != "" then found.value else DefaultGatewayName
  }

  function CreatedContainer(name: string, namespace: string, tenantDomain: string, gateway: string,
                            rule: RateLimitRule): BackendTrafficPolicy {
    BackendTrafficPolicy(
      name, namespace,
      map["kgw.wso2.com/cpInitiated" := "true",
          "kgw.wso2.com/type" := "subscription-ratelimit",
          OrganizationLabel := tenantDomain],
      "StrategicMerge", "Global", gateway, [rule])
  }

  /** The tenant's container after deploying `rule` for policy `policyName`. */
  function UpsertContainer(existing: Option<BackendTrafficPolicy>, name: string, namespace: string,
                           tenantDomain: string, gateway: string, policyName: string,
                           rule: RateLimitRule): BackendTrafficPolicy {
    match existing
    case None => CreatedContainer(name, namespace, tenantDomain, gateway, rule)
    case Some(c) => c.(rules := Upserted(c.rules, policyName, rule))
  }

  /** The tenant's container after undeploying policy `policyName`; None when it is deleted. */
  function RemoveFromContainer(existing: Option<BackendTrafficPolicy>, policyName: string): Option<BackendTrafficPolicy> {
    match existing
    case None => None
    case Some(c) =>
      var kept := Filtered(c.rules, policyName);
      if |kept| == |c.rules| then existing
      else if kept == [] then None
      else Some(c.(rules := kept))
  }

  /** A tenant without a container gets one whose only rule is the new rule, labelled with
      the tenant's organization. */
  lemma FirstDeployCreatesContainer(name: string, namespace: string, tenantDomain: string, gateway: string,
                                     policyName: string, rule: RateLimitRule)
    ensures var c := UpsertContainer(None, name, namespace, tenantDomain, gateway, policyName, rule);
      c.rules == [rule] && c.labels[OrganizationLabel] == tenantDomain && c.targetGateway == gateway
  {
  }

  /** Deploying the same policy twice leaves the container as deploying it once. */
  lemma DeployTwiceIsDeployOnce(existing: Option<BackendTrafficPolicy>, name: string, namespace: string,
                                tenantDomain: string, gateway: string, policy: SubscriptionPolicy, aiPolicy: bool)
    requires Resolvable(policy)
    ensures var rule := NewRule(policy, aiPolicy);
      var once := UpsertContainer(existing, name, namespace, tenantDomain, gateway, policy.name, rule);
      UpsertContainer(Some(once), name, namespace, tenantDomain, gateway, policy.name, rule) == once
  {
    var rule := NewRule(policy, aiPolicy);
    NewRuleMatchesExactlyItsPolicy(policy, aiPolicy, policy.name);
    match existing
    case None =>
      var c := CreatedContainer(name, namespace, tenantDomain, gateway, rule);
      assert FirstMatch(c.rules, policy.name) == Some(0);
    case Some(c) =>
      UpsertIdempotent(c.rules, policy.name, rule);
  }

  /** Removing a policy the container does not hold changes nothing. */
  lemma RemoveUnknownIsNoOp(c: BackendTrafficPolicy, policyName: string)
    requires forall j :: 0 <= j < |c.rules| ==> !RuleMatches(c.rules[j], policyName)
    ensures RemoveFromContainer(Some(c), policyName) == Some(c)
  {
  }

  /** Removing a policy leaves a container only if some other rule survives, and the
      survivors are exactly the rules of other policies. */
  lemma RemoveDeletesOnlyWhenEmpty(c: BackendTrafficPolicy, policyName: string)
    requires exists j :: 0 <= j < |c.rules| && RuleMatches(c.rules[j], policyName)
    ensures var r := RemoveFromContainer(Some(c), policyName);
      && (r.None? <==> forall j :: 0 <= j < |c.rules| ==> RuleMatches(c.rules[j], policyName))
      && (r.Some? ==> r.value == c.(rules := Filtered(c.rules, policyName)))
  {
    var kept := Filtered(c.rules, policyName);
    if kept == [] {
      FilteredEmptyMeansAllMatch(c.rules, policyName);
    } else {
      assert !RuleMatches(kept[0], policyName);
      assert kept[0] in c.rules;
    }
  }

  /** Nothing survives only when every rule is of the policy. */
  lemma {:induction false} FilteredEmptyMeansAllMatch(rules: seq<RateLimitRule>, name: string)
    requires Filtered(rules, name) == []
    ensures forall j :: 0 <= j < |rules| ==> RuleMatches(rules[j], name)
  {
    if |rules| > 0 {
      assert RuleMatches(rules[0], name);
      FilteredEmptyMeansAllMatch(rules[1..], name);
      assert forall j :: 1 <= j < |rules| ==> rules[j] == rules[1..][j - 1];
    }
  }

  /** A rule that is not of the policy survives filtering. */
  lemma {:induction false} FilteredKeepsUnmatched(rules: seq<RateLimitRule>, name: string, j: nat)
    requires j < |rules| && !RuleMatches(rules[j], name)
    ensures rules[j] in Filtered(rules, name)
  {
    if j > 0 {
      FilteredKeepsUnmatched(rules[1..], name, j - 1);
    }
  }

  // ---------------------------------------------------------------------------------------
  // Well-formed containers: every rule is a single selector with one policy id, and no two
  // rules share an id. Every rule the merger writes has this shape.

  /** The value of the first `policy-id` header, or "" when there is none. */
  function FirstIdValue(headers: seq<HeaderMatch>): string {
    if |headers| == 0 then ""
    else if headers[0].name == PolicyIdHeader then headers[0].value.GetOr("")
    else FirstIdValue(headers[1..])
  }

  function IdOf(rule: RateLimitRule): string {
    if |rule.clientSelectors| == 0 then "" else FirstIdValue(rule.clientSelectors[0].headers)
  }

  /** Every `policy-id` header among these headers carries value `v`. */
  predicate UniformIds(headers: seq<HeaderMatch>, v: string) {
    forall k :: 0 <= k < |headers| && headers[k].name == PolicyIdHeader ==> headers[k].value == Some(v)
  }

  predicate HasIdHeader(headers: seq<HeaderMatch>) {
    exists k :: 0 <= k < |headers| && headers[k].name == PolicyIdHeader
  }

  predicate Canonical(rule: RateLimitRule) {
    && |rule.clientSelectors| == 1
    && HasIdHeader(rule.clientSelectors[0].headers)
    && UniformIds(rule.clientSelectors[0].headers, IdOf(rule))
  }

  predicate WellFormed(rules: seq<RateLimitRule>) {
    && (forall i :: 0 <= i < |rules| ==> Canonical(rules[i]))
    && (forall i, j :: 0 <= i < j < |rules| ==> IdOf(rules[i]) != IdOf(rules[j]))
  }

  /** A canonical rule belongs to exactly the policy its id names. */
  lemma CanonicalMatches(rule: RateLimitRule, name: string)
    requires Canonical(rule)
    ensures RuleMatches(rule, name) <==> name == IdOf(rule)
  {
    var headers := rule.clientSelectors[0].headers;
    var k :| 0 <= k < |headers| && headers[k].name == PolicyIdHeader;
    assert HeaderCarries(headers[k], IdOf(rule));
    assert SelectorCarries(rule.clientSelectors[0], IdOf(rule));
    if RuleMatches(rule, name) {
      var j :| 0 <= j < |rule.clientSelectors| && SelectorCarries(rule.clientSelectors[j], name);
      var k' :| 0 <= k' < |headers| && HeaderCarries(headers[k'], name);
    }
  }

  lemma {:induction false} UniformHeaderIds(headers: seq<HeaderMatch>, v: string)
    requires UniformIds(headers, v)
    ensures HeaderIds(headers) == if v != "" && HasIdHeader(headers) then [v] else []
  {
    if |headers| > 0 {
      assert UniformIds(headers[1..], v);
      UniformHeaderIds(headers[1..], v);
      if !(headers[0].name == PolicyIdHeader) {
        if HasIdHeader(headers) {
          var k :| 0 <= k < |headers| && headers[k].name == PolicyIdHeader;
          assert headers[1..][k - 1].name == PolicyIdHeader;
        }
      }
    }
  }

  /** A canonical rule contributes its id to retrieval, unless the id is empty. */
  lemma CanonicalIds(rule: RateLimitRule)
    requires Canonical(rule)
    ensures SelectorIds(rule.clientSelectors) == if IdOf(rule) == "" then [] else [IdOf(rule)]
  {
    UniformHeaderIds(rule.clientSelectors[0].headers, IdOf(rule));
  }

  /** For canonical rules, retrieval lists exactly the non-empty ids. */
  lemma {:induction false} PolicyIdsOfCanonical(rules: seq<RateLimitRule>, x: string)
    requires forall i :: 0 <= i < |rules| ==> Canonical(rules[i])
    ensures x in PolicyIds(rules) <==> x != "" && exists i :: 0 <= i < |rules| && IdOf(rules[i]) == x
  {
    if |rules| > 0 {
      CanonicalIds(rules[0]);
      PolicyIdsOfCanonical(rules[1..], x);
      if x != "" && exists i :: 0 <= i < |rules| && IdOf(rules[i]) == x {
        var i :| 0 <= i < |rules| && IdOf(rules[i]) == x;
        if i > 0 {
          assert IdOf(rules[1..][i - 1]) == x;
        }
      }
    }
  }

  lemma {:induction false} FirstIdValueOfUniform(headers: seq<HeaderMatch>, v: string)
    requires UniformIds(headers, v) && HasIdHeader(headers)
    ensures FirstIdValue(headers) == v
  {
    if headers[0].name != PolicyIdHeader {
      var k :| 0 <= k < |headers| && headers[k].name == PolicyIdHeader;
      assert headers[1..][k - 1].name == PolicyIdHeader;
      FirstIdValueOfUniform(headers[1..], v);
    }
  }

  /** The built rule is canonical and its id is the policy name. */
  lemma NewRuleCanonical(policy: SubscriptionPolicy, aiPolicy: bool)
    requires Resolvable(policy)
    ensures Canonical(NewRule(policy, aiPolicy)) && IdOf(NewRule(policy, aiPolicy)) == policy.name
  {
    var rule := NewRule(policy, aiPolicy);
    var headers := rule.clientSelectors[0].headers;
    NewRuleShape(policy, aiPolicy);
    assert headers[|headers| - 1].name == PolicyIdHeader;
    assert UniformIds(headers, policy.name) by {
      forall k | 0 <= k < |headers| && headers[k].name == PolicyIdHeader
        ensures headers[k].value == Some(policy.name)
      {
        assert k == |headers| - 1;
      }
    }
    FirstIdValueOfUniform(headers, policy.name);
  }

  /** Deploying a policy keeps a container well formed: at most one rule per policy id. */
  lemma UpsertPreservesWellFormed(rules: seq<RateLimitRule>, policy: SubscriptionPolicy, aiPolicy: bool)
    requires WellFormed(rules) && Resolvable(policy)
    ensures WellFormed(Upserted(rules, policy.name, NewRule(policy, aiPolicy)))
  {
    var rule := NewRule(policy, aiPolicy);
    NewRuleCanonical(policy, aiPolicy);
    var r := Upserted(rules, policy.name, rule);
    match FirstMatch(rules, policy.name)
    case Some(i) =>
      CanonicalMatches(rules[i], policy.name);
      assert IdOf(rules[i]) == policy.name;
      assert forall j :: 0 <= j < |r| ==> IdOf(r[j]) == IdOf(rules[j]);
    case None =>
      forall j | 0 <= j < |rules| ensures IdOf(rules[j]) != policy.name {
        CanonicalMatches(rules[j], policy.name);
      }
  }

  /** Rules whose id is in `ids` dropped, the others kept in order. */
  function DropIds(rules: seq<RateLimitRule>, ids: set<string>): (kept: seq<RateLimitRule>)
    ensures |kept| <= |rules|
    ensures forall x :: x in kept <==> x in rules && IdOf(x) !in ids
  {
    if |rules| == 0 then []
    else
      var rest := DropIds(rules[1..], ids);
      assert forall x :: x in rules <==> x == rules[0] || x in rules[1..];
      if IdOf(rules[0]) in ids then rest else [rules[0]] + rest
  }

  /** For canonical rules, removing a policy drops exactly the rules with that id. */
  lemma {:induction false} FilteredIsDropIds(rules: seq<RateLimitRule>, name: string)
    requires forall i :: 0 <= i < |rules| ==> Canonical(rules[i])
    ensures Filtered(rules, name) == DropIds(rules, {name})
  {
    if |rules| > 0 {
      CanonicalMatches(rules[0], name);
      FilteredIsDropIds(rules[1..], name);
    }
  }

  lemma {:induction false} DropIdsCompose(rules: seq<RateLimitRule>, a: set<string>, b: set<string>)
    ensures DropIds(DropIds(rules, a), b) == DropIds(rules, a + b)
  {
    if |rules| > 0 {
      DropIdsCompose(rules[1..], a, b);
    }
  }

  lemma {:induction false} DropIdsNone(rules: seq<RateLimitRule>)
    ensures DropIds(rules, {}) == rules
  {
    if |rules| > 0 {
      DropIdsNone(rules[1..]);
    }
  }

  lemma {:induction false} DropIdsNothing(rules: seq<RateLimitRule>, ids: set<string>)
    requires |DropIds(rules, ids)| == |rules|
    ensures DropIds(rules, ids) == rules
  {
    if |rules| > 0 {
      assert IdOf(rules[0]) !in ids;
      DropIdsNothing(rules[1..], ids);
    }
  }

  /** Removing a policy keeps a container well formed. */
  lemma FilteredPreservesWellFormed(rules: seq<RateLimitRule>, name: string)
    requires WellFormed(rules)
    ensures WellFormed(Filtered(rules, name))
  {
    FilteredIsDropIds(rules, name);
    DropIdsPreservesWellFormed(rules, {name});
  }

  lemma {:induction false} DropIdsPreservesWellFormed(rules: seq<RateLimitRule>, ids: set<string>)
    requires WellFormed(rules)
    ensures WellFormed(DropIds(rules, ids))
  {
    if |rules| > 0 {
      WellFormedTail(rules);
      DropIdsPreservesWellFormed(rules[1..], ids);
      if IdOf(rules[0]) !in ids {
        WellFormedCons(rules[0], DropIds(rules[1..], ids));
      }
    }
  }

  /** The tail of well-formed rules is well formed, and no rule of it shares the head's id. */
  lemma WellFormedTail(rules: seq<RateLimitRule>)
    requires WellFormed(rules) && |rules| > 0
    ensures Canonical(rules[0]) && WellFormed(rules[1..])
    ensures forall x :: x in rules[1..] ==> IdOf(x) != IdOf(rules[0])
  {
    assert forall i :: 0 <= i < |rules| - 1 ==> rules[1..][i] == rules[i + 1];
  }

  /** A canonical rule put before well-formed rules whose ids all differ from its own. */
  lemma WellFormedCons(rule: RateLimitRule, rest: seq<RateLimitRule>)
    requires Canonical(rule) && WellFormed(rest)
    requires forall x :: x in rest ==> IdOf(x) != IdOf(rule)
    ensures WellFormed([rule] + rest)
  {
    var s := [rule] + rest;
    assert forall i :: 0 < i < |s| ==> s[i] == rest[i - 1];
  }

  /** A well-formed container as stored in the cluster: never empty, since the last rule's
      removal deletes it. */
  predicate ValidContainer(c: BackendTrafficPolicy) {
    WellFormed(c.rules) && c.rules != []
  }

  /** Both merger operations keep a stored container valid. */
  lemma DeployKeepsContainerValid(existing: Option<BackendTrafficPolicy>, name: string, namespace: string,
                                  tenantDomain: string, gateway: string, policy: SubscriptionPolicy, aiPolicy: bool)
    requires existing.Some? ==> ValidContainer(existing.value)
    requires Resolvable(policy)
    ensures ValidContainer(UpsertContainer(existing, name, namespace, tenantDomain, gateway, policy.name,
                                           NewRule(policy, aiPolicy)))
  {
    NewRuleCanonical(policy, aiPolicy);
    var rule := NewRule(policy, aiPolicy);
    if existing.Some? {
      UpsertPreservesWellFormed(existing.value.rules, policy, aiPolicy);
      UpsertGrowsByAtMostOne(existing.value.rules, policy.name, rule);
    }
  }

  lemma RemoveKeepsContainerValid(existing: Option<BackendTrafficPolicy>, policyName: string)
    requires existing.Some? ==> ValidContainer(existing.value)
    ensures var r := RemoveFromContainer(existing, policyName);
      r.Some? ==> ValidContainer(r.value)
  {
    if existing.Some? {
      FilteredPreservesWellFormed(existing.value.rules, policyName);
    }
  }

  /** The scenario of a container holding the rules of policies A and B: removing A leaves
      only B's rule, and then removing B deletes the container. */
  lemma RemoveScenario(c: BackendTrafficPolicy, a: string, b: string)
    requires |c.rules| == 2 && Canonical(c.rules[0]) && Canonical(c.rules[1])
    requires IdOf(c.rules[0]) == a && IdOf(c.rules[1]) == b && a != b
    ensures RemoveFromContainer(Some(c), a) == Some(c.(rules := [c.rules[1]]))
    ensures RemoveFromContainer(RemoveFromContainer(Some(c), a), b) == None
  {
    FilteredIsDropIds(c.rules, a);
    assert c.rules[1..] == [c.rules[1]];
    assert c.rules[1..][1..] == [];
    assert DropIds(c.rules, {a}) == [c.rules[1]];
    FilteredIsDropIds([c.rules[1]], b);
    assert DropIds([c.rules[1]], {b}) == [];
  }

  /** On a well-formed container, deploying adds the policy's id to what retrieval lists and
      removes none. */
  lemma UpsertIds(rules: seq<RateLimitRule>, policy: SubscriptionPolicy, aiPolicy: bool, x: string)
    requires WellFormed(rules) && Resolvable(policy)
    ensures x in PolicyIds(Upserted(rules, policy.name, NewRule(policy, aiPolicy))) <==>
      x in PolicyIds(rules) || (x == policy.name && x != "")
  {
    var rule := NewRule(policy, aiPolicy);
    var r := Upserted(rules, policy.name, rule);
    NewRuleCanonical(policy, aiPolicy);
    UpsertPreservesWellFormed(rules, policy, aiPolicy);
    PolicyIdsOfCanonical(rules, x);
    PolicyIdsOfCanonical(r, x);
    match FirstMatch(rules, policy.name)
    case Some(i) =>
      CanonicalMatches(rules[i], policy.name);
      assert forall j :: 0 <= j < |r| ==> IdOf(r[j]) == IdOf(rules[j]);
    case None =>
      assert r[|rules|] == rule;
      assert forall j :: 0 <= j < |rules| ==> r[j] == rules[j];
  }
}
