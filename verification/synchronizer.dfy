/** The rate-limit synchronizer (ratelimit_policy_fetcher.go): what the gateway connector does
    with the rate-limit and subscription policies fetched from the control plane. The fetch
    itself, the retry goroutines and the internal policy map of the common agent are outside
    the model; the fetched list (nil or not), the fetch error message and the cluster are
    inputs. */
module Synchronizer {
  import opened Wrappers
  import opened EventHubTypes
  import opened QuotaResolver
  import opened SharedPolicy
  import opened K8sClient

  const Int64Min: int := -0x8000_0000_0000_0000

  /** Go's `+` on 64-bit `int`: two's-complement wrap-around. */
  function GoIntAdd(a: int, b: int): (s: int)
    ensures Int64Min <= s < -Int64Min
    ensures Int64Min <= a + b < -Int64Min ==> s == a + b
  {
    (a + b - Int64Min) % Uint64Modulus + Int64Min
  }

  // ---------------------------------------------------------------------------------------
  // Normal (API-level) rate-limit policies.

  function NormaliseRateLimitUnit(timeUnit: string): (r: string)
    ensures timeUnit == "min" ==> r == "Minute"
    ensures timeUnit == "hour" ==> r == "Hour"
    ensures timeUnit == "day" ==> r == "Day"
    ensures timeUnit !in {"min", "hour", "day"} ==> r == timeUnit
  {
    if timeUnit == "min" then "Minute"
    else if timeUnit == "hour" then "Hour"
    else if timeUnit == "day" then "Day"
    else timeUnit
  }

  /** The policy with its request-count unit normalised; nothing else changes. */
  function NormalisedRateLimitPolicy(policy: RateLimitPolicy): (r: RateLimitPolicy)
    ensures r.tenantDomain == policy.tenantDomain && r.name == policy.name
    ensures r.defaultLimit.requestCount.requestCount == policy.defaultLimit.requestCount.requestCount
    ensures r.defaultLimit.requestCount.timeUnit == NormaliseRateLimitUnit(policy.defaultLimit.requestCount.timeUnit)
  {
    var limit := policy.defaultLimit;
    policy.(defaultLimit := limit.(requestCount := limit.requestCount.(
      timeUnit := NormaliseRateLimitUnit(limit.requestCount.timeUnit))))
  }

  lemma NormaliseRateLimitUnitIdempotent(timeUnit: string)
    ensures NormaliseRateLimitUnit(NormaliseRateLimitUnit(timeUnit)) == NormaliseRateLimitUnit(timeUnit)
  {
  }

  /** Every policy's tenant can be updated: each selected traffic policy has a first rule. */
  predicate AllUpdatable(cluster: map<string, BackendTrafficPolicy>, policies: seq<RateLimitPolicy>) {
    forall i :: 0 <= i < |policies| ==> RateLimitUpdatable(cluster, policies[i].tenantDomain)
  }

  /** The traffic policies after applying the fetched policies one after the other. */
  function RateLimitSync(cluster: map<string, BackendTrafficPolicy>, policies: seq<RateLimitPolicy>)
    : (r: map<string, BackendTrafficPolicy>)
    ensures r.Keys == cluster.Keys
    ensures forall k :: k in cluster ==> r[k].labels == cluster[k].labels && |r[k].rules| == |cluster[k].rules|
    decreases |policies|
  {
    if |policies| == 0 then cluster
    else RateLimitUpdated(RateLimitSync(cluster, policies[..|policies| - 1]),
                          NormalisedRateLimitPolicy(policies[|policies| - 1]))
  }

  /** The sync seen from one traffic policy: each fetched policy whose tenant selects it
      overwrites its first rule's limit. */
  function SyncedPolicy(c: BackendTrafficPolicy, policies: seq<RateLimitPolicy>): (r: BackendTrafficPolicy)
    ensures r.labels == c.labels && |r.rules| == |c.rules|
    decreases |policies|
  {
    if |policies| == 0 then c
    else
      var before := SyncedPolicy(c, policies[..|policies| - 1]);
      var last := NormalisedRateLimitPolicy(policies[|policies| - 1]);
      if RateLimitSelected(before, last.tenantDomain) then RateLimitApplied(before, last) else before
  }

  /** The sync acts on every traffic policy independently. */
  lemma {:induction false} SyncIsPointwise(cluster: map<string, BackendTrafficPolicy>,
                                           policies: seq<RateLimitPolicy>, k: string)
    requires k in cluster
    ensures RateLimitSync(cluster, policies)[k] == SyncedPolicy(cluster[k], policies)
    decreases |policies|
  {
    if |policies| > 0 {
      SyncIsPointwise(cluster, policies[..|policies| - 1], k);
    }
  }

  /** For a traffic policy selected by tenant t, the last fetched policy of t decides its first
      rule's limit. */
  lemma LastPolicyOfTenantWins(cluster: map<string, BackendTrafficPolicy>,
                               policies: seq<RateLimitPolicy>, k: string, j: nat)
    requires k in cluster && cluster[k].rules != []
    requires j < |policies| && RateLimitSelected(cluster[k], policies[j].tenantDomain)
    requires forall i :: j < i < |policies| ==> policies[i].tenantDomain != policies[j].tenantDomain
    ensures RateLimitSync(cluster, policies)[k].rules[0].limit ==
      RateLimitValue(UintOf(policies[j].defaultLimit.requestCount.requestCount),
                     NormaliseRateLimitUnit(policies[j].defaultLimit.requestCount.timeUnit))
  {
    SyncIsPointwise(cluster, policies, k);
    LastPolicyDecides(cluster[k], policies, j);
  }

  lemma {:induction false} LastPolicyDecides(c: BackendTrafficPolicy, policies: seq<RateLimitPolicy>, j: nat)
    requires c.rules != []
    requires j < |policies| && RateLimitSelected(c, policies[j].tenantDomain)
    requires forall i :: j < i < |policies| ==> policies[i].tenantDomain != policies[j].tenantDomain
    ensures SyncedPolicy(c, policies).rules[0].limit ==
      RateLimitValue(UintOf(policies[j].defaultLimit.requestCount.requestCount),
                     NormaliseRateLimitUnit(policies[j].defaultLimit.requestCount.timeUnit))
    decreases |policies|
  {
    var n := |policies|;
    var prefix := policies[..n - 1];
    var before := SyncedPolicy(c, prefix);
    var last := NormalisedRateLimitPolicy(policies[n - 1]);
    SelectionByLabels(c, before, policies[j].tenantDomain, last.tenantDomain);
    if j < n - 1 {
      LastPolicyDecides(c, prefix, j);
      assert prefix[j] == policies[j];
    }
  }

  /** A traffic policy that no fetched policy's tenant selects comes out of the sync as it was. */
  lemma {:induction false} UnselectedIsUntouched(cluster: map<string, BackendTrafficPolicy>,
                                                 policies: seq<RateLimitPolicy>, k: string)
    requires k in cluster
    requires forall i :: 0 <= i < |policies| ==> !RateLimitSelected(cluster[k], policies[i].tenantDomain)
    ensures RateLimitSync(cluster, policies)[k] == cluster[k]
    decreases |policies|
  {
    if |policies| > 0 {
      var prefix := policies[..|policies| - 1];
      assert forall i :: 0 <= i < |prefix| ==> prefix[i] == policies[i];
      UnselectedIsUntouched(cluster, prefix, k);
    }
  }

  // ---------------------------------------------------------------------------------------
  // Subscription policies: normalisation and dispatch.

  function NormaliseSubscriptionUnit(timeUnit: string): (r: string)
    ensures timeUnit == "min" ==> r == "Minute"
    ensures timeUnit == "hours" ==> r == "Hour"
    ensures timeUnit == "days" ==> r == "Day"
    ensures timeUnit == "months" ==> r == "Month"
    ensures timeUnit !in {"min", "hours", "days", "months"} ==> r == timeUnit
  {
    if timeUnit == "min" then "Minute"
    else if timeUnit == "hours" then "Hour"
    else if timeUnit == "days" then "Day"
    else if timeUnit == "months" then "Month"
    else timeUnit
  }

  /** A normalised unit is left alone by the resolver's own formatting; in particular a
      monthly quota reaches the gateway as "Month", not as the resolver's "Day". */
  lemma NormalisedUnitSurvivesFormatting(timeUnit: string)
    ensures GetFormattedTimeUnit(NormaliseSubscriptionUnit(timeUnit)) == NormaliseSubscriptionUnit(timeUnit)
    ensures NormaliseSubscriptionUnit("months") == "Month" && GetFormattedTimeUnit("months") == "Day"
  {
  }

  /** Missing prompt and completion counts are taken from the total; a missing total is the
      (wrapping) sum of prompt and completion when both are present. */
  function NormalisedAiQuota(quota: AiApiQuota): (r: AiApiQuota)
    ensures r.requestCount == quota.requestCount && r.timeUnit == quota.timeUnit && r.unitTime == quota.unitTime
    ensures quota.promptTokenCount.Some? ==> r.promptTokenCount == quota.promptTokenCount
    ensures quota.completionTokenCount.Some? ==> r.completionTokenCount == quota.completionTokenCount
    ensures quota.totalTokenCount.Some? ==>
      r.totalTokenCount == quota.totalTokenCount && r.promptTokenCount.Some? && r.completionTokenCount.Some?
    ensures quota.totalTokenCount.None? ==>
      && r.promptTokenCount == quota.promptTokenCount && r.completionTokenCount == quota.completionTokenCount
      && (r.totalTokenCount.Some? <==> quota.promptTokenCount.Some? && quota.completionTokenCount.Some?)
    ensures r.totalTokenCount.Some? && quota.totalTokenCount.None? ==>
      r.totalTokenCount.value == GoIntAdd(quota.promptTokenCount.value, quota.completionTokenCount.value)
  {
    var prompt := if quota.promptTokenCount.None? && quota.totalTokenCount.Some? then quota.totalTokenCount else quota.promptTokenCount;
    var completion := if quota.completionTokenCount.None? && quota.totalTokenCount.Some? then quota.totalTokenCount else quota.completionTokenCount;
    var total :=
      if quota.totalTokenCount.None? && prompt.Some? && completion.Some? then Some(GoIntAdd(prompt.value, completion.value))
      else quota.totalTokenCount;
    quota.(promptTokenCount := prompt, completionTokenCount := completion, totalTokenCount := total)
  }

  lemma NormalisedAiQuotaIdempotent(quota: AiApiQuota)
    ensures NormalisedAiQuota(NormalisedAiQuota(quota)) == NormalisedAiQuota(quota)
  {
  }

  predicate AllTokenCounts(quota: AiApiQuota) {
    quota.promptTokenCount.Some? && quota.completionTokenCount.Some? && quota.totalTokenCount.Some?
  }

  /** What the loop does with one fetched subscription policy. */
  datatype Dispatch = Deploy(policy: SubscriptionPolicy, aiPolicy: bool) | Skip | Panic

  function WithAiQuota(policy: SubscriptionPolicy, quota: AiApiQuota): SubscriptionPolicy {
    policy.(defaultLimit := policy.defaultLimit.(aiApiQuota := Some(quota)))
  }

  function WithRequestUnit(policy: SubscriptionPolicy, timeUnit: string): SubscriptionPolicy {
    policy.(defaultLimit := policy.defaultLimit.(requestCount := policy.defaultLimit.requestCount.(timeUnit := timeUnit)))
  }

  /** The dispatch as written: after normalising an AI quota the three token counts are
      dereferenced for logging, which panics when one of them is still nil. */
  function DispatchAsWritten(policy: SubscriptionPolicy): (d: Dispatch)
    ensures d.Panic? <==> policy.quotaType == "aiApiQuota" && policy.defaultLimit.aiApiQuota.Some?
                          && !AllTokenCounts(NormalisedAiQuota(policy.defaultLimit.aiApiQuota.value))
  {
    if policy.quotaType == "aiApiQuota" then
      match policy.defaultLimit.aiApiQuota
      case None => Skip
      case Some(quota) =>
        var normalised := NormalisedAiQuota(quota);
        if !AllTokenCounts(normalised) then Panic else Deploy(WithAiQuota(policy, normalised), true)
    else
      Deploy(WithRequestUnit(policy, NormaliseSubscriptionUnit(policy.defaultLimit.requestCount.timeUnit)), false)
  }

  /** The dispatch with the logging dereferences guarded: an AI policy with a quota is deployed
      with its normalised quota, one without is skipped, any other is deployed with its
      request-count unit normalised. */
  function DispatchPolicy(policy: SubscriptionPolicy): (d: Dispatch)
    ensures !d.Panic?
    ensures d.Skip? <==> policy.quotaType == "aiApiQuota" && policy.defaultLimit.aiApiQuota.None?
    ensures d.Deploy? ==> && d.policy.name == policy.name && d.policy.tenantDomain == policy.tenantDomain
                          && d.policy.quotaType == policy.quotaType
                          && d.aiPolicy == (policy.quotaType == "aiApiQuota")
  {
    if policy.quotaType == "aiApiQuota" then
      match policy.defaultLimit.aiApiQuota
      case None => Skip
      case Some(quota) => Deploy(WithAiQuota(policy, NormalisedAiQuota(quota)), true)
    else
      Deploy(WithRequestUnit(policy, NormaliseSubscriptionUnit(policy.defaultLimit.requestCount.timeUnit)), false)
  }

  /** Where the code as written does not panic, it does what the guarded dispatch does. */
  lemma DispatchAgreesUnlessPanic(policy: SubscriptionPolicy)
    ensures !DispatchAsWritten(policy).Panic? ==> DispatchAsWritten(policy) == DispatchPolicy(policy)
  {
  }

  /** An AI policy limited by requests only (no token counts) panics the as-written loop. */
  lemma RequestOnlyAiQuotaPanics(policy: SubscriptionPolicy)
    requires policy.quotaType == "aiApiQuota"
    requires policy.defaultLimit.aiApiQuota == Some(AiApiQuota(None, None, Some(100), "min", None, 1))
    ensures DispatchAsWritten(policy) == Panic
  {
  }

  /** The guarded dispatch deploys every AI policy that has a quota, as an AI rule carrying
      the quota's request rate. */
  lemma EveryAiQuotaIsDeployed(policy: SubscriptionPolicy)
    requires policy.quotaType == "aiApiQuota" && policy.defaultLimit.aiApiQuota.Some?
    requires Resolvable(policy)
    ensures var d := DispatchPolicy(policy);
      && d.Deploy? && d.aiPolicy && Resolvable(d.policy)
      && GetRateLimitPolicyContents(d.policy) == GetRateLimitPolicyContents(policy)
  {
  }

  /** A request-count policy's deployed unit is its normalised unit. */
  lemma RequestUnitIsNormalised(policy: SubscriptionPolicy)
    requires policy.quotaType == "requestCount" && Resolvable(policy)
    ensures var d := DispatchPolicy(policy);
      && d.Deploy? && !d.aiPolicy && Resolvable(d.policy)
      && GetRateLimitPolicyContents(d.policy).unit == NormaliseSubscriptionUnit(policy.defaultLimit.requestCount.timeUnit)
  {
    NormalisedUnitSurvivesFormatting(policy.defaultLimit.requestCount.timeUnit);
  }

  /** The source divides by the quota's unit time and dereferences an AI quota's request
      count for every policy it deploys. */
  predicate Deployable(policy: SubscriptionPolicy) {
    var d := DispatchPolicy(policy);
    d.Deploy? ==> Resolvable(d.policy)
  }

  predicate AllDeployable(policies: seq<SubscriptionPolicy>) {
    forall i :: 0 <= i < |policies| ==> Deployable(policies[i])
  }

  // ---------------------------------------------------------------------------------------
  // The subscription sync, as specification functions over the namespace's traffic policies.

  predicate Fetched(policies: seq<SubscriptionPolicy>, name: string) {
    exists i :: 0 <= i < |policies| && policies[i].name == name
  }

  /** The deployed ids that no fetched policy names, in order. */
  function Stale(deployed: seq<string>, policies: seq<SubscriptionPolicy>): (stale: seq<string>)
    ensures forall n :: n in stale <==> n in deployed && !Fetched(policies, n)
  {
    if |deployed| == 0 then []
    else
      var last := deployed[|deployed| - 1];
      var prefix := deployed[..|deployed| - 1];
      assert deployed == prefix + [last];
      Stale(prefix, policies) + (if Fetched(policies, last) then [] else [last])
  }

  /** Undeploying the given policies one after the other. */
  function RemoveAll(cluster: map<string, BackendTrafficPolicy>, key: string, names: seq<string>)
    : (r: map<string, BackendTrafficPolicy>)
    ensures r.Keys <= cluster.Keys
    ensures forall k :: k in cluster && k != key ==> k in r && r[k] == cluster[k]
  {
    if |names| == 0 then cluster
    else UnDeployed(RemoveAll(cluster, key, names[..|names| - 1]), key, names[|names| - 1])
  }

  lemma StaleStep(deployed: seq<string>, i: nat, policies: seq<SubscriptionPolicy>)
    requires i < |deployed|
    ensures Stale(deployed[..i + 1], policies) ==
      Stale(deployed[..i], policies) + (if Fetched(policies, deployed[i]) then [] else [deployed[i]])
  {
    assert deployed[..i + 1][..i] == deployed[..i];
  }

  lemma RemoveAllStep(cluster: map<string, BackendTrafficPolicy>, key: string, names: seq<string>, name: string)
    ensures RemoveAll(cluster, key, names + [name]) == UnDeployed(RemoveAll(cluster, key, names), key, name)
  {
    assert (names + [name])[..|names|] == names;
  }

  function DeployOne(cluster: map<string, BackendTrafficPolicy>, sharedPolicyName: string -> string,
                     namespace: string, gateway: string, policy: SubscriptionPolicy): map<string, BackendTrafficPolicy>
    requires Deployable(policy)
  {
    match DispatchPolicy(policy)
    case Deploy(q, ai) => Deployed(cluster, sharedPolicyName(q.tenantDomain), namespace, gateway, q, ai)
    case _ => cluster
  }

  /** Deploying the fetched policies one after the other. */
  function DeployAll(cluster: map<string, BackendTrafficPolicy>, sharedPolicyName: string -> string,
                     namespace: string, gateway: string, policies: seq<SubscriptionPolicy>)
    : (r: map<string, BackendTrafficPolicy>)
    requires AllDeployable(policies)
    ensures cluster.Keys <= r.Keys
  {
    if |policies| == 0 then cluster
    else
      var prefix := policies[..|policies| - 1];
      assert forall i :: 0 <= i < |prefix| ==> prefix[i] == policies[i];
      DeployOne(DeployAll(cluster, sharedPolicyName, namespace, gateway, prefix), sharedPolicyName,
                namespace, gateway, policies[|policies| - 1])
  }

  /** The stale-policy cleanup: every deployed id of the organization's container that the
      fetched list does not name is undeployed. */
  function Cleaned(cluster: map<string, BackendTrafficPolicy>, key: string, policies: seq<SubscriptionPolicy>)
    : (r: map<string, BackendTrafficPolicy>)
    ensures r.Keys <= cluster.Keys
  {
    RemoveAll(cluster, key, Stale(StoredIds(cluster, key), policies))
  }

  function SubscriptionSync(cluster: map<string, BackendTrafficPolicy>, apiDown: bool,
                            sharedPolicyName: string -> string, namespace: string, gateway: string,
                            organization: string, policies: seq<SubscriptionPolicy>, cleanup: bool)
    : map<string, BackendTrafficPolicy>
    requires AllDeployable(policies)
  {
    if apiDown then cluster
    else
      var cleaned := if cleanup then Cleaned(cluster, sharedPolicyName(organization), policies) else cluster;
      DeployAll(cleaned, sharedPolicyName, namespace, gateway, policies)
  }

  // ---------------------------------------------------------------------------------------
  // Properties of the sync.

  /** On a valid container, undeploying a list of names drops exactly the rules whose id is
      in the list, deleting the container when none remain. */
  lemma {:induction false} RemoveAllDropsIds(cluster: map<string, BackendTrafficPolicy>, key: string, names: seq<string>)
    requires key in cluster && ValidContainer(cluster[key])
    ensures var kept := DropIds(cluster[key].rules, set n | n in names);
      RemoveAll(cluster, key, names) == if kept == [] then cluster - {key} else cluster[key := cluster[key].(rules := kept)]
  {
    var c := cluster[key];
    if |names| == 0 {
      assert (set n | n in names) == {};
      DropIdsNone(c.rules);
      assert cluster[key := c] == cluster;
    } else {
      var prefix := names[..|names| - 1];
      var last := names[|names| - 1];
      var p := set n | n in prefix;
      assert names == prefix + [last];
      NamesStep(names, prefix, last);
      RemoveAllDropsIds(cluster, key, prefix);
      DropIdsCompose(c.rules, p, {last});
      DropIdsPreservesWellFormed(c.rules, p);
      RemoveOneMore(cluster, key, c, DropIds(c.rules, p), last);
    }
  }

  /** The names of a non-empty list are those of all but its last element, plus the last. */
  lemma NamesStep(names: seq<string>, prefix: seq<string>, last: string)
    requires names == prefix + [last]
    ensures (set n | n in names) == (set n | n in prefix) + {last}
  {
  }

  /** One more undeploy, after the earlier ones left the container at `key` with the rules `d`
      (or deleted it when `d` is empty). */
  lemma RemoveOneMore(cluster: map<string, BackendTrafficPolicy>, key: string, c: BackendTrafficPolicy,
                      d: seq<RateLimitRule>, last: string)
    requires WellFormed(d)
    ensures var before := if d == [] then cluster - {key} else cluster[key := c.(rules := d)];
      var f := DropIds(d, {last});
      UnDeployed(before, key, last) == if f == [] then cluster - {key} else cluster[key := c.(rules := f)]
  {
    if d == [] {
      assert Lookup(cluster - {key}, key) == None;
    } else {
      UnDeployDropped(cluster, key, c, d, last);
    }
  }

  /** One undeploy on a container whose rules are already reduced to the well-formed `rules`. */
  lemma UpdateTwice<K, V>(m: map<K, V>, k: K, a: V, b: V)
    ensures m[k := a][k := b] == m[k := b]
  {
  }

  lemma RemoveAfterUpdate<K, V>(m: map<K, V>, k: K, a: V)
    ensures m[k := a] - {k} == m - {k}
  {
  }

  /** Undeploying from a container `existing` stored under `key` only depends on what
      RemoveFromContainer makes of it. */
  lemma UnDeployedAt(cluster: map<string, BackendTrafficPolicy>, key: string, existing: BackendTrafficPolicy,
                     name: string)
    ensures UnDeployed(cluster[key := existing], key, name) ==
      match RemoveFromContainer(Some(existing), name)
      case None => cluster - {key}
      case Some(x) => cluster[key := x]
  {
    assert Lookup(cluster[key := existing], key) == Some(existing);
    match RemoveFromContainer(Some(existing), name)
    case None => RemoveAfterUpdate(cluster, key, existing);
    case Some(x) => UpdateTwice(cluster, key, existing, x);
  }

  /** On canonical rules, removing a policy from a container drops exactly the rules with its id,
      and the container goes when no rule is left. */
  lemma RemoveFromContainerDrops(c: BackendTrafficPolicy, name: string)
    requires forall i :: 0 <= i < |c.rules| ==> Canonical(c.rules[i])
    requires c.rules != []
    ensures var f := DropIds(c.rules, {name});
      RemoveFromContainer(Some(c), name) == if f == [] then None else Some(c.(rules := f))
  {
    FilteredIsDropIds(c.rules, name);
    var f := DropIds(c.rules, {name});
    if |f| == |c.rules| {
      DropIdsNothing(c.rules, {name});
    }
  }

  /** One undeploy on a container whose rules are already reduced to the well-formed `rules`. */
  lemma UnDeployDropped(cluster: map<string, BackendTrafficPolicy>, key: string, c: BackendTrafficPolicy,
                        rules: seq<RateLimitRule>, name: string)
    requires forall i :: 0 <= i < |rules| ==> Canonical(rules[i])
    requires rules != []
    ensures var f := DropIds(rules, {name});
      UnDeployed(cluster[key := c.(rules := rules)], key, name) ==
        if f == [] then cluster - {key} else cluster[key := c.(rules := f)]
  {
    UnDeployedAt(cluster, key, c.(rules := rules), name);
    RemoveFromContainerDrops(c.(rules := rules), name);
  }

  /** After the cleanup, a rule of a valid organization container survives exactly when its
      id is empty or names a fetched policy, and no other rule appears. */
  lemma CleanupKeepsFetched(cluster: map<string, BackendTrafficPolicy>, key: string,
                            policies: seq<SubscriptionPolicy>, rule: RateLimitRule)
    requires key in cluster && ValidContainer(cluster[key])
    ensures var r := Cleaned(cluster, key, policies);
      && (key in r ==> ValidContainer(r[key]) && forall x :: x in r[key].rules ==> x in cluster[key].rules)
      && (rule in cluster[key].rules ==>
            ((key in r && rule in r[key].rules) <==> IdOf(rule) == "" || Fetched(policies, IdOf(rule))))
  {
    var c := cluster[key];
    var stale := Stale(StoredIds(cluster, key), policies);
    var s := set n | n in stale;
    RemoveAllDropsIds(cluster, key, stale);
    DropIdsPreservesWellFormed(c.rules, s);
    if rule in c.rules {
      RetrieveListsOwners(cluster, key, IdOf(rule));
    }
  }

  /** One step of the deploy loop, seen from the container at key k. */
  lemma DeployOneIds(cluster: map<string, BackendTrafficPolicy>, sharedPolicyName: string -> string,
                     namespace: string, gateway: string, policy: SubscriptionPolicy, k: string, x: string)
    requires Deployable(policy)
    requires k in cluster ==> ValidContainer(cluster[k])
    requires sharedPolicyName(policy.tenantDomain) in cluster ==> ValidContainer(cluster[sharedPolicyName(policy.tenantDomain)])
    ensures var r := DeployOne(cluster, sharedPolicyName, namespace, gateway, policy);
      && (k in r ==> ValidContainer(r[k]))
      && (x in StoredIds(r, k) <==>
            x in StoredIds(cluster, k)
            || (DispatchPolicy(policy).Deploy? && k == sharedPolicyName(policy.tenantDomain) && x == policy.name && x != ""))
  {
    match DispatchPolicy(policy)
    case Deploy(q, ai) =>
      DeployedIds(cluster, sharedPolicyName(q.tenantDomain), namespace, gateway, q, ai, k, x);
    case _ =>
  }

  /** Some fetched policy that dispatch deploys is named x and belongs to the container at k. */
  predicate DeploysName(policies: seq<SubscriptionPolicy>, sharedPolicyName: string -> string, k: string, x: string) {
    exists i :: 0 <= i < |policies| && DispatchPolicy(policies[i]).Deploy?
      && sharedPolicyName(policies[i].tenantDomain) == k && policies[i].name == x
  }

  lemma DeployAllStep(cluster: map<string, BackendTrafficPolicy>, sharedPolicyName: string -> string,
                      namespace: string, gateway: string, policies: seq<SubscriptionPolicy>)
    requires AllDeployable(policies)
    requires policies != []
    ensures var prefix := policies[..|policies| - 1];
      AllDeployable(prefix) &&
      DeployAll(cluster, sharedPolicyName, namespace, gateway, policies) ==
        DeployOne(DeployAll(cluster, sharedPolicyName, namespace, gateway, prefix), sharedPolicyName,
                  namespace, gateway, policies[|policies| - 1])
  {
    var prefix := policies[..|policies| - 1];
    assert forall i :: 0 <= i < |prefix| ==> prefix[i] == policies[i];
  }

  /** Deploying a list of policies keeps every container of the given keys valid. */
  lemma {:induction false} DeployAllValid(cluster: map<string, BackendTrafficPolicy>, sharedPolicyName: string -> string,
                                          namespace: string, gateway: string, policies: seq<SubscriptionPolicy>,
                                          keys: set<string>)
    requires AllDeployable(policies)
    requires forall i :: 0 <= i < |policies| ==> sharedPolicyName(policies[i].tenantDomain) in keys
    requires forall k :: k in keys && k in cluster ==> ValidContainer(cluster[k])
    ensures var r := DeployAll(cluster, sharedPolicyName, namespace, gateway, policies);
      forall k :: k in keys && k in r ==> ValidContainer(r[k])
    decreases |policies|
  {
    if |policies| > 0 {
      var n := |policies|;
      var prefix := policies[..n - 1];
      assert forall i :: 0 <= i < |prefix| ==> prefix[i] == policies[i];
      DeployAllValid(cluster, sharedPolicyName, namespace, gateway, prefix, keys);
      var before := DeployAll(cluster, sharedPolicyName, namespace, gateway, prefix);
      var p := policies[n - 1];
      var r := DeployAll(cluster, sharedPolicyName, namespace, gateway, policies);
      DeployAllStep(cluster, sharedPolicyName, namespace, gateway, policies);
      forall k | k in keys && k in r
        ensures ValidContainer(r[k])
      {
        DeployOneIds(before, sharedPolicyName, namespace, gateway, p, k, "");
      }
    }
  }

  /** After deploying a list of policies, retrieval at k lists x exactly when it listed x
      before or a deployed policy of that container is named x. */
  lemma {:induction false} DeployAllIdsAt(cluster: map<string, BackendTrafficPolicy>, sharedPolicyName: string -> string,
                                          namespace: string, gateway: string, policies: seq<SubscriptionPolicy>,
                                          keys: set<string>, k: string, x: string)
    requires AllDeployable(policies)
    requires forall i :: 0 <= i < |policies| ==> sharedPolicyName(policies[i].tenantDomain) in keys
    requires forall k :: k in keys && k in cluster ==> ValidContainer(cluster[k])
    requires k in keys
    ensures x in StoredIds(DeployAll(cluster, sharedPolicyName, namespace, gateway, policies), k) <==>
      x in StoredIds(cluster, k) || (x != "" && DeploysName(policies, sharedPolicyName, k, x))
    decreases |policies|
  {
    if |policies| > 0 {
      var n := |policies|;
      var prefix := policies[..n - 1];
      DeployAllStep(cluster, sharedPolicyName, namespace, gateway, policies);
      DeployAllIdsAt(cluster, sharedPolicyName, namespace, gateway, prefix, keys, k, x);
      DeployAllValid(cluster, sharedPolicyName, namespace, gateway, prefix, keys);
      var before := DeployAll(cluster, sharedPolicyName, namespace, gateway, prefix);
      var p := policies[n - 1];
      DeployOneIds(before, sharedPolicyName, namespace, gateway, p, k, x);
      DeploysNameStep(policies, sharedPolicyName, k, x);
    }
  }

  /** A deployed name of a non-empty list comes from its prefix or from its last policy. */
  lemma DeploysNameStep(policies: seq<SubscriptionPolicy>, sharedPolicyName: string -> string, k: string, x: string)
    requires policies != []
    ensures var p := policies[|policies| - 1];
      DeploysName(policies, sharedPolicyName, k, x) <==>
        DeploysName(policies[..|policies| - 1], sharedPolicyName, k, x)
        || (DispatchPolicy(p).Deploy? && sharedPolicyName(p.tenantDomain) == k && p.name == x)
  {
    var n := |policies|;
    var prefix := policies[..n - 1];
    if DeploysName(prefix, sharedPolicyName, k, x) {
      var i :| 0 <= i < |prefix| && DispatchPolicy(prefix[i]).Deploy?
        && sharedPolicyName(prefix[i].tenantDomain) == k && prefix[i].name == x;
      assert policies[i] == prefix[i];
    }
    if DeploysName(policies, sharedPolicyName, k, x) {
      var i :| 0 <= i < n && DispatchPolicy(policies[i]).Deploy?
        && sharedPolicyName(policies[i].tenantDomain) == k && policies[i].name == x;
      if i < n - 1 {
        assert prefix[i] == policies[i];
      }
    }
  }

  /** The ids retrieval lists for each relevant container after deploying a list of
      policies: every deployed policy is listed under its tenant's key, nothing listed before
      is lost, and every new id is the name of a fetched policy. */
  lemma DeployAllIds(cluster: map<string, BackendTrafficPolicy>, sharedPolicyName: string -> string,
                     namespace: string, gateway: string, policies: seq<SubscriptionPolicy>,
                     keys: set<string>)
    requires AllDeployable(policies)
    requires forall i :: 0 <= i < |policies| ==> sharedPolicyName(policies[i].tenantDomain) in keys
    requires forall k :: k in keys && k in cluster ==> ValidContainer(cluster[k])
    ensures var r := DeployAll(cluster, sharedPolicyName, namespace, gateway, policies);
      && (forall k :: k in keys && k in r ==> ValidContainer(r[k]))
      && (forall k, x :: k in keys && x in StoredIds(cluster, k) ==> x in StoredIds(r, k))
      && (forall k, x :: k in keys && x in StoredIds(r, k) ==> x in StoredIds(cluster, k) || Fetched(policies, x))
      && (forall i :: 0 <= i < |policies| && DispatchPolicy(policies[i]).Deploy? && policies[i].name != "" ==>
            policies[i].name in StoredIds(r, sharedPolicyName(policies[i].tenantDomain)))
  {
    var r := DeployAll(cluster, sharedPolicyName, namespace, gateway, policies);
    DeployAllValid(cluster, sharedPolicyName, namespace, gateway, policies, keys);
    forall k, x | k in keys && x in StoredIds(cluster, k)
      ensures x in StoredIds(r, k)
    {
      DeployAllIdsAt(cluster, sharedPolicyName, namespace, gateway, policies, keys, k, x);
    }
    forall k, x | k in keys && x in StoredIds(r, k)
      ensures x in StoredIds(cluster, k) || Fetched(policies, x)
    {
      DeployAllIdsAt(cluster, sharedPolicyName, namespace, gateway, policies, keys, k, x);
    }
    forall i | 0 <= i < |policies| && DispatchPolicy(policies[i]).Deploy? && policies[i].name != ""
      ensures policies[i].name in StoredIds(r, sharedPolicyName(policies[i].tenantDomain))
    {
      DeployAllIdsAt(cluster, sharedPolicyName, namespace, gateway, policies, keys,
                     sharedPolicyName(policies[i].tenantDomain), policies[i].name);
    }
  }

  /** After the cleanup, the organization's container only holds ids of fetched policies. */
  lemma CleanedOnlyFetched(cluster: map<string, BackendTrafficPolicy>, orgKey: string,
                           policies: seq<SubscriptionPolicy>)
    requires orgKey in cluster ==> ValidContainer(cluster[orgKey])
    ensures var cleaned := Cleaned(cluster, orgKey, policies);
      && (orgKey in cleaned ==> ValidContainer(cleaned[orgKey]))
      && forall x :: x in StoredIds(cleaned, orgKey) ==> Fetched(policies, x)
  {
    var cleaned := Cleaned(cluster, orgKey, policies);
    if orgKey in cluster {
      CleanupKeepsFetched(cluster, orgKey, policies, cluster[orgKey].rules[0]);
      forall x | x in StoredIds(cleaned, orgKey) ensures Fetched(policies, x) {
        var rules := cleaned[orgKey].rules;
        RetrieveListsOwners(cleaned, orgKey, x);
        var i :| 0 <= i < |rules| && IdOf(rules[i]) == x;
        CleanupKeepsFetched(cluster, orgKey, policies, rules[i]);
      }
    }
  }

  /** After a sync with cleanup, retrieval for the organization lists only fetched policies,
      and every fetched policy that was deployed is listed under its tenant's container. */
  lemma SyncMirrorsControlPlane(cluster: map<string, BackendTrafficPolicy>, sharedPolicyName: string -> string,
                                namespace: string, gateway: string, organization: string,
                                policies: seq<SubscriptionPolicy>)
    requires AllDeployable(policies)
    requires var key := sharedPolicyName(organization); key in cluster ==> ValidContainer(cluster[key])
    requires forall i :: 0 <= i < |policies| && sharedPolicyName(policies[i].tenantDomain) in cluster ==>
      ValidContainer(cluster[sharedPolicyName(policies[i].tenantDomain)])
    ensures var r := SubscriptionSync(cluster, false, sharedPolicyName, namespace, gateway, organization, policies, true);
      && (forall x :: x in StoredIds(r, sharedPolicyName(organization)) ==> Fetched(policies, x))
      && (forall i :: 0 <= i < |policies| && DispatchPolicy(policies[i]).Deploy? && policies[i].name != "" ==>
            policies[i].name in StoredIds(r, sharedPolicyName(policies[i].tenantDomain)))
  {
    var orgKey := sharedPolicyName(organization);
    var keys := {orgKey} + set i | 0 <= i < |policies| :: sharedPolicyName(policies[i].tenantDomain);
    var cleaned := Cleaned(cluster, orgKey, policies);
    CleanedOnlyFetched(cluster, orgKey, policies);
    assert forall k :: k in keys && k in cleaned ==> ValidContainer(cleaned[k]);
    DeployAllIds(cleaned, sharedPolicyName, namespace, gateway, policies, keys);
  }

  /** Without cleanup a sync never loses a deployed policy of a valid container. */
  lemma SyncWithoutCleanupKeepsIds(cluster: map<string, BackendTrafficPolicy>, sharedPolicyName: string -> string,
                                   namespace: string, gateway: string, organization: string,
                                   policies: seq<SubscriptionPolicy>, key: string, x: string)
    requires AllDeployable(policies)
    requires key in cluster && ValidContainer(cluster[key])
    requires forall i :: 0 <= i < |policies| && sharedPolicyName(policies[i].tenantDomain) in cluster ==>
      ValidContainer(cluster[sharedPolicyName(policies[i].tenantDomain)])
    requires x in StoredIds(cluster, key)
    ensures x in StoredIds(SubscriptionSync(cluster, false, sharedPolicyName, namespace, gateway, organization, policies, false), key)
  {
    var keys := {key} + set i | 0 <= i < |policies| :: sharedPolicyName(policies[i].tenantDomain);
    DeployAllIds(cluster, sharedPolicyName, namespace, gateway, policies, keys);
  }

  // ---------------------------------------------------------------------------------------
  // The event handlers.

  /** Whether a fetched policy carries the name; the source's inner search loop. */
  method IsFetched(policies: seq<SubscriptionPolicy>, name: string) returns (found: bool)
    ensures found <==> Fetched(policies, name)
  {
    found := false;
    var i := 0;
    while i < |policies| && !found
      invariant 0 <= i <= |policies|
      invariant found <==> exists j :: 0 <= j < i && policies[j].name == name
    {
      if policies[i].name == name {
        found := true;
      }
      i := i + 1;
    }
  }

  /** Applies every fetched rate-limit policy, unit normalised, to the tenant's
      control-plane-initiated traffic policies. A non-nil empty list with an error message
      schedules a retry instead. */
  method FetchRateLimitPoliciesOnEvent(cluster: Cluster, fetched: Option<seq<RateLimitPolicy>>, errorMsg: string)
    returns (retryScheduled: bool)
    requires fetched.Some? ==> AllUpdatable(cluster.trafficPolicies, fetched.value)
    modifies cluster
    ensures retryScheduled <==> fetched.Some? && fetched.value == [] && errorMsg != ""
    ensures cluster.gateways == old(cluster.gateways) && cluster.securityPolicies == old(cluster.securityPolicies)
    ensures cluster.trafficPolicies ==
      if fetched.None? || retryScheduled || cluster.apiDown then old(cluster.trafficPolicies)
      else RateLimitSync(old(cluster.trafficPolicies), fetched.value)
    ensures old(cluster.Valid()) ==> cluster.Valid()
  {
    retryScheduled := false;
    if fetched.None? {
      return;
    }
    var policies := fetched.value;
    if |policies| == 0 && errorMsg != "" {
      retryScheduled := true;
      return;
    }
    ghost var start := cluster.trafficPolicies;
    var i := 0;
    while i < |policies|
      invariant 0 <= i <= |policies|
      invariant cluster.trafficPolicies == SyncedPrefix(start, cluster.apiDown, policies, i)
      invariant cluster.gateways == old(cluster.gateways) && cluster.securityPolicies == old(cluster.securityPolicies)
      invariant old(cluster.Valid()) ==> cluster.Valid()
    {
      var policy := NormalisedRateLimitPolicy(policies[i]);
      SyncedPrefixStep(start, cluster.apiDown, policies, i);
      ghost var next := SyncedPrefix(start, cluster.apiDown, policies, i + 1);
      cluster.UpdateRateLimitPolicy(policy);
      assert cluster.trafficPolicies == next;
      i := i + 1;
    }
    assert policies[..|policies|] == policies;
  }

  /** What the update loop has made of the traffic policies after its first `i` steps. */
  ghost function SyncedPrefix(cluster: map<string, BackendTrafficPolicy>, apiDown: bool,
                              policies: seq<RateLimitPolicy>, i: nat): map<string, BackendTrafficPolicy>
    requires i <= |policies|
  {
    if apiDown then cluster else RateLimitSync(cluster, policies[..i])
  }

  /** One step of the update loop: the tenant of the next policy can still be updated, and the
      step is one more RateLimitUpdated. */
  lemma SyncedPrefixStep(cluster: map<string, BackendTrafficPolicy>, apiDown: bool,
                         policies: seq<RateLimitPolicy>, i: nat)
    requires AllUpdatable(cluster, policies) && i < |policies|
    ensures var before := SyncedPrefix(cluster, apiDown, policies, i);
      var policy := NormalisedRateLimitPolicy(policies[i]);
      && RateLimitUpdatable(before, policy.tenantDomain)
      && SyncedPrefix(cluster, apiDown, policies, i + 1) ==
           if apiDown then before else RateLimitUpdated(before, policy)
  {
    assert policies[..i + 1][..i] == policies[..i];
    var before := SyncedPrefix(cluster, apiDown, policies, i);
    assert RateLimitUpdatable(cluster, policies[i].tenantDomain);
    UpdatableCarriesOver(cluster, before, policies[i].tenantDomain);
  }

  /** The cleanup loop: every policy retrieved from the organization's container that no
      fetched policy names is undeployed; nothing happens when retrieval fails. */
  method CleanupStalePolicies(cluster: Cluster, organization: string, policies: seq<SubscriptionPolicy>)
    modifies cluster
    ensures cluster.gateways == old(cluster.gateways) && cluster.securityPolicies == old(cluster.securityPolicies)
    ensures cluster.trafficPolicies ==
      if cluster.apiDown then old(cluster.trafficPolicies)
      else Cleaned(old(cluster.trafficPolicies), cluster.sharedPolicyName(organization), policies)
    ensures old(cluster.Valid()) ==> cluster.Valid()
  {
    var key := cluster.sharedPolicyName(organization);
    var deployed := cluster.RetrieveSharedSubscriptionRateLimitPolicy(organization);
    if deployed.Err? {
      return;
    }
    var names := deployed.value;
    assert !cluster.apiDown;
    var i := 0;
    while i < |names|
      invariant 0 <= i <= |names|
      invariant cluster.trafficPolicies == RemoveAll(old(cluster.trafficPolicies), key, Stale(names[..i], policies))
      invariant cluster.gateways == old(cluster.gateways) && cluster.securityPolicies == old(cluster.securityPolicies)
    {
      var found := IsFetched(policies, names[i]);
      ghost var done := Stale(names[..i], policies);
      StaleStep(names, i, policies);
      if !found {
        assert Stale(names[..i + 1], policies) == done + [names[i]];
        RemoveAllStep(old(cluster.trafficPolicies), key, done, names[i]);
        cluster.UnDeploySharedSubscriptionRateLimitPolicy(names[i], organization, false);
      } else {
        assert done + [] == done;
        assert Stale(names[..i + 1], policies) == done;
      }
      i := i + 1;
    }
    assert names[..|names|] == names;
    if old(cluster.Valid()) {
      RemoveAllKeepsValid(old(cluster.trafficPolicies), key, Stale(names, policies));
    }
  }

  /** Undeploying a list of names keeps every stored subscription container valid. */
  lemma {:induction false} RemoveAllKeepsValid(cluster: map<string, BackendTrafficPolicy>, key: string,
                                               names: seq<string>)
    requires ContainersValid(cluster)
    ensures ContainersValid(RemoveAll(cluster, key, names))
  {
    if |names| > 0 {
      var prefix := names[..|names| - 1];
      RemoveAllKeepsValid(cluster, key, prefix);
      UnDeployKeepsClusterValid(RemoveAll(cluster, key, prefix), key, names[|names| - 1]);
    }
  }

  /** The deploy loop: each fetched policy is dispatched and, unless skipped, deployed. */
  method DeployFetchedPolicies(cluster: Cluster, policies: seq<SubscriptionPolicy>)
    requires AllDeployable(policies)
    modifies cluster
    ensures cluster.gateways == old(cluster.gateways) && cluster.securityPolicies == old(cluster.securityPolicies)
    ensures cluster.trafficPolicies ==
      if cluster.apiDown then old(cluster.trafficPolicies)
      else DeployAll(old(cluster.trafficPolicies), cluster.sharedPolicyName, cluster.namespace,
                     GatewayNameOrDefault(cluster.ListedGateway()), policies)
    ensures old(cluster.Valid()) ==> cluster.Valid()
  {
    ghost var start := cluster.trafficPolicies;
    ghost var gateway := GatewayNameOrDefault(cluster.ListedGateway());
    var j := 0;
    while j < |policies|
      invariant 0 <= j <= |policies|
      invariant cluster.trafficPolicies ==
        DeployedPrefix(start, cluster.apiDown, cluster.sharedPolicyName, cluster.namespace, gateway, policies, j)
      invariant cluster.gateways == old(cluster.gateways) && cluster.securityPolicies == old(cluster.securityPolicies)
    {
      var d := DispatchPolicy(policies[j]);
      ghost var before := cluster.trafficPolicies;
      if d.Deploy? {
        cluster.DeploySharedSubscriptionRateLimitPolicy(d.policy, d.aiPolicy);
      }
      DeployedPrefixStep(start, cluster.apiDown, cluster.sharedPolicyName, cluster.namespace, gateway, policies, j,
                         before, cluster.trafficPolicies);
      j := j + 1;
    }
    assert policies[..|policies|] == policies;
    if old(cluster.Valid()) && !cluster.apiDown {
      DeployAllKeepsValid(start, cluster.sharedPolicyName, cluster.namespace, gateway, policies);
    }
  }

  /** Deploying the fetched policies one after the other keeps every stored subscription
      container valid. */
  lemma {:induction false} DeployAllKeepsValid(cluster: map<string, BackendTrafficPolicy>,
                                               sharedPolicyName: string -> string, namespace: string,
                                               gateway: string, policies: seq<SubscriptionPolicy>)
    requires AllDeployable(policies) && ContainersValid(cluster)
    ensures ContainersValid(DeployAll(cluster, sharedPolicyName, namespace, gateway, policies))
  {
    if |policies| > 0 {
      var prefix := policies[..|policies| - 1];
      assert forall i :: 0 <= i < |prefix| ==> prefix[i] == policies[i];
      DeployAllKeepsValid(cluster, sharedPolicyName, namespace, gateway, prefix);
      var before := DeployAll(cluster, sharedPolicyName, namespace, gateway, prefix);
      match DispatchPolicy(policies[|policies| - 1])
      case Deploy(q, ai) =>
        DeployKeepsClusterValid(before, sharedPolicyName(q.tenantDomain), namespace, gateway, q, ai);
      case _ =>
    }
  }

  ghost function DeployedPrefix(cluster: map<string, BackendTrafficPolicy>, apiDown: bool,
                                sharedPolicyName: string -> string, namespace: string, gateway: string,
                                policies: seq<SubscriptionPolicy>, j: nat): map<string, BackendTrafficPolicy>
    requires AllDeployable(policies) && j <= |policies|
  {
    assert forall i :: 0 <= i < j ==> policies[..j][i] == policies[i];
    if apiDown then cluster else DeployAll(cluster, sharedPolicyName, namespace, gateway, policies[..j])
  }

  lemma DeployedPrefixStep(cluster: map<string, BackendTrafficPolicy>, apiDown: bool,
                           sharedPolicyName: string -> string, namespace: string, gateway: string,
                           policies: seq<SubscriptionPolicy>, j: nat,
                           before: map<string, BackendTrafficPolicy>, after: map<string, BackendTrafficPolicy>)
    requires AllDeployable(policies) && j < |policies|
    requires before == DeployedPrefix(cluster, apiDown, sharedPolicyName, namespace, gateway, policies, j)
    requires var d := DispatchPolicy(policies[j]);
      after == if apiDown || !d.Deploy? then before
        else Deployed(before, sharedPolicyName(d.policy.tenantDomain), namespace, gateway, d.policy, d.aiPolicy)
    ensures after == DeployedPrefix(cluster, apiDown, sharedPolicyName, namespace, gateway, policies, j + 1)
  {
    assert policies[..j + 1][..j] == policies[..j];
  }

  /** Syncs the shared subscription containers with the fetched subscription policies: with
      `cleanupDeletedPolicies`, first undeploys every policy of the organization's container
      that the control plane no longer has, then deploys every fetched policy in order. A
      non-nil empty list with an error message schedules a retry instead. */
  method FetchSubscriptionRateLimitPoliciesOnEvent(cluster: Cluster, organization: string,
                                                   fetched: Option<seq<SubscriptionPolicy>>, errorMsg: string,
                                                   cleanupDeletedPolicies: bool)
    returns (retryScheduled: bool)
    requires fetched.Some? ==> AllDeployable(fetched.value)
    modifies cluster
    ensures retryScheduled <==> fetched.Some? && fetched.value == [] && errorMsg != ""
    ensures cluster.gateways == old(cluster.gateways) && cluster.securityPolicies == old(cluster.securityPolicies)
    ensures cluster.trafficPolicies ==
      if fetched.None? || retryScheduled then old(cluster.trafficPolicies)
      else SubscriptionSync(old(cluster.trafficPolicies), cluster.apiDown, cluster.sharedPolicyName, cluster.namespace,
                            GatewayNameOrDefault(cluster.ListedGateway()), organization, fetched.value,
                            cleanupDeletedPolicies)
    ensures old(cluster.Valid()) ==> cluster.Valid()
  {
    retryScheduled := false;
    if fetched.None? {
      return;
    }
    var policies := fetched.value;
    if |policies| == 0 && errorMsg != "" {
      retryScheduled := true;
      return;
    }
    if cleanupDeletedPolicies {
      CleanupStalePolicies(cluster, organization, policies);
    }
    DeployFetchedPolicies(cluster, policies);
  }
}
