# WSO2 API Manager gateway connectors — verified model of the sequential core

This project models, in Dafny, the deterministic logic inside the WSO2 API Manager gateway
connectors: the Go agents that take events from the API Manager control plane and turn them
into Kubernetes resources for an Envoy gateway (the "apk" connector) or a Kong gateway.
Kubernetes is modelled as an abstract store. Each resource kind is a map from name to resource.
A read either finds the resource or does not; a failing API server is a flag.

The modelled pieces are:

- **Shared subscription rate-limit container** (`k8s_client.dfy`, `shared_policy.dfy`,
  `quota.dfy`). Each tenant has one BackendTrafficPolicy. It holds an ordered list of rate-limit
  rules, and a rule belongs to the policy named in its `policy-id` header.
  - Deploying a policy creates the container, or replaces the first rule of that policy in
    place, or appends a new rule.
  - Undeploying filters that policy's rules out, and deletes the container once it is empty.
  - Retrieval lists the policy ids present.
  - A control-plane quota resolves to a (unit, requests-per-unit) pair through Go's truncating
    integer division and a `uint` conversion.
  - The security-policy update removes a key manager's JWT provider, or refreshes it from the
    key-manager cache.
  - The plain rate-limit update overwrites the first rule of every container selected for a
    tenant.
- **Startup synchronisation** (`synchronizer.dfy`). Normal and subscription rate-limit policies
  fetched from the control plane are normalised (time units, AI token counts) and deployed.
  Deployed subscription policies the control plane no longer returns are undeployed first.
- **In-memory application store** (`event_holder.dfy`). Three maps hold applications,
  application mappings and application key mappings. The store supports add, get, update,
  delete, bulk replace and first-match lookups. It also joins an application's key mappings into
  its security schemes.
- **Kong transformer helpers** (`transformer.dfy`):
  - partitioning an API's operations into a row matrix
  - the OPTIONS route derived from an HTTP route, and annotation rewriting
  - the JWT and API-key plugin configurations and their registration
  - consumers
  - stamping labels and hostnames onto a generated API's routes, services and plugins

Objects that the Go code updates in place are Dafny classes: the cluster (`K8sClient.Cluster`),
the application store (`ManagementServer.EventHolder`), routes, services, plugins and the
artifact bundle (`KongTransformer.HttpRoute`, `KongTransformer.K8sArtifacts`, and so on). Their
methods loop as the Go code does, and each is proved against a specification function on the
old state. Pure switches and list transformations are functions with lemmas.

Go-specific behaviour is written out:

- truncating division (`QuotaResolver.GoDiv`)
- `uint` wrap-around (`QuotaResolver.UintOf`)
- 64-bit `int` overflow of the token total (`Synchronizer.GoIntAdd`)
- nil references as `Option`
- the zero value returned for a missing map key

Hash-based naming is a parameter standing for an unknown function:
- SHA-1 of the organization
- the shared-policy name of a tenant
- the plugin and consumer CR names
- the unique id of a key mapping

## Model

| member | source | states |
|---|---|---|
| QuotaResolver.GoDiv | apk/gateway-connector/internal/k8sClient/k8s_client.go:1314-1324 | Go's `/` on `int` truncates toward zero: the remainder is zero or has the dividend's sign and is smaller than the divisor in absolute value; on non-negative operands it is floor division |
| QuotaResolver.UintOf | apk/gateway-connector/internal/k8sClient/k8s_client.go:1329 | `uint(count)` is below 2^64, is the identity on values already in range, and maps a negative 64-bit value x to x + 2^64 |
| QuotaResolver.GetFormattedTimeUnit | apk/gateway-connector/internal/k8sClient/k8s_client.go:1332-1346 | the result is one of Minute/Hour/Day or the input unchanged |
| QuotaResolver.FormattedTimeUnitTable | apk/gateway-connector/internal/k8sClient/k8s_client.go:1332-1346 | min→Minute, hours→Hour, days→Day, months→Day, every other string passes through |
| QuotaResolver.FormattedTimeUnitIdempotent | apk/gateway-connector/internal/k8sClient/k8s_client.go:1332-1346 | formatting a formatted unit changes nothing |
| QuotaResolver.GetRateLimitPolicyContents | apk/gateway-connector/internal/k8sClient/k8s_client.go:1305-1330 | the request count placed in a rule always fits a 64-bit `uint` |
| QuotaResolver.RequestQuotaIsRoundedDownRate | apk/gateway-connector/internal/k8sClient/k8s_client.go:1320-1324 | a request-count quota yields the formatted unit and requestCount / unitTime rounded down (requests × unitTime ≤ requestCount < (requests+1) × unitTime) |
| QuotaResolver.EventQuotaIsRoundedDownRate | apk/gateway-connector/internal/k8sClient/k8s_client.go:1315-1319 | an event-count quota yields the formatted unit and eventCount / unitTime rounded down |
| QuotaResolver.AiQuotaUnitPassesThrough | apk/gateway-connector/internal/k8sClient/k8s_client.go:1309-1314 | an AI quota's unit is taken unformatted; for a positive unit time and an in-range request count, the count n satisfies n * unitTime <= requestCount < (n + 1) * unitTime |
| QuotaResolver.AiQuotaIgnoresTokenCounts | apk/gateway-connector/internal/k8sClient/k8s_client.go:1309-1314 | two AI policies that differ only in their prompt, completion and total token counts resolve to the same unit and count |
| QuotaResolver.UnknownQuotaTypeYieldsSentinel | apk/gateway-connector/internal/k8sClient/k8s_client.go:1325-1327 | any other quota type yields ("", 0) |
| QuotaResolver.SixThousandPerHourOfMinutes | apk/gateway-connector/internal/k8sClient/k8s_client.go:1320-1324 | 6000 requests per 60 "min" becomes 100 per Minute |
| QuotaResolver.NegativeCountWraps | apk/gateway-connector/internal/k8sClient/k8s_client.go:1324-1329 | a negative count truncates toward zero and then wraps to a huge unsigned value |
| SharedPolicy.FirstMatch | apk/gateway-connector/internal/k8sClient/k8s_client.go:1661-1679 | the index found is the first rule carrying the policy's id, and None means no rule carries it |
| SharedPolicy.NewRuleShape | apk/gateway-connector/internal/k8sClient/k8s_client.go:1529-1604 | the built rule has one selector with headers x-wso2-api-id, x-wso2-organization, x-wso2-subscription-id, [cost], policy-id in that order, every header not inverted, the last carrying the policy name, shared=false, limit = the resolved quota |
| SharedPolicy.NewRuleHasCostIffAi | apk/gateway-connector/internal/k8sClient/k8s_client.go:1529-1604 | the rule has a `cost` header if and only if it is an AI policy |
| SharedPolicy.NewRuleMatchesExactlyItsPolicy | apk/gateway-connector/internal/k8sClient/k8s_client.go:1529-1604 | the new rule carries a given policy id exactly when that id is the policy's name |
| SharedPolicy.UpsertReplacesFirstMatchOnly | apk/gateway-connector/internal/k8sClient/k8s_client.go:1657-1684 | when rule i is the first match, upsert replaces rule i only and leaves every other rule and the length unchanged |
| SharedPolicy.FirstMatchAt | apk/gateway-connector/internal/k8sClient/k8s_client.go:1661-1679 | the first rule carrying the id is the one the search stops at |
| SharedPolicy.UpsertAppendsWhenAbsent | apk/gateway-connector/internal/k8sClient/k8s_client.go:1681-1684 | with no matching rule the new rule is appended at the end |
| SharedPolicy.UpsertGrowsByAtMostOne | apk/gateway-connector/internal/k8sClient/k8s_client.go:1657-1684 | the rule list grows by at most one and contains the new rule |
| SharedPolicy.UpsertIdempotent | apk/gateway-connector/internal/k8sClient/k8s_client.go:1657-1684 | upserting the same rule twice equals upserting it once |
| SharedPolicy.Filtered | apk/gateway-connector/internal/k8sClient/k8s_client.go:1714-1735 | the kept rules come from the input and carry no matching id; nothing is dropped exactly when no rule matched |
| SharedPolicy.FilteredSingleton | apk/gateway-connector/internal/k8sClient/k8s_client.go:1714-1735 | a single rule is dropped exactly when it matches |
| SharedPolicy.PolicyIdsListsRule | apk/gateway-connector/internal/k8sClient/k8s_client.go:1497-1512 | every id found in a rule's selectors is in the retrieved list |
| SharedPolicy.NewRuleIds | apk/gateway-connector/internal/k8sClient/k8s_client.go:1499-1508 | the ids retrieved from a new rule are [name], or none when the name is empty |
| SharedPolicy.UpsertedPolicyIsRetrieved | apk/gateway-connector/internal/k8sClient/k8s_client.go:1477-1513 | after upserting policy p with a non-empty name, retrieval lists p's name |
| SharedPolicy.GatewayNameOrDefault | apk/gateway-connector/internal/k8sClient/k8s_client.go:1522-1526 | the gateway is the listed one, or "wso2-kgw-default" when none is found; never empty |
| SharedPolicy.CreatedContainer | apk/gateway-connector/internal/k8sClient/k8s_client.go:1613-1652 | a fresh container (labels, target gateway, one rule) |
| SharedPolicy.UpsertContainer | apk/gateway-connector/internal/k8sClient/k8s_client.go:1606-1692 | create-or-upsert of the tenant container |
| SharedPolicy.FirstDeployCreatesContainer | apk/gateway-connector/internal/k8sClient/k8s_client.go:1613-1652 | with no container, the result holds exactly [newRule], is labelled with the tenant domain and targets the gateway |
| SharedPolicy.DeployTwiceIsDeployOnce | apk/gateway-connector/internal/k8sClient/k8s_client.go:1606-1692 | deploying a policy into the container it already produced changes nothing |
| SharedPolicy.RemoveUnknownIsNoOp | apk/gateway-connector/internal/k8sClient/k8s_client.go:1736-1740 | removing a policy no rule carries leaves the container as it was |
| SharedPolicy.RemoveDeletesOnlyWhenEmpty | apk/gateway-connector/internal/k8sClient/k8s_client.go:1736-1758 | when a rule matched, the container is deleted if and only if every rule matched, otherwise it keeps the filtered rules |
| SharedPolicy.FilteredEmptyMeansAllMatch | apk/gateway-connector/internal/k8sClient/k8s_client.go:1714-1744 | an empty survivor list means every rule matched |
| SharedPolicy.FilteredKeepsUnmatched | apk/gateway-connector/internal/k8sClient/k8s_client.go:1714-1735 | every rule that does not match survives the filter |
| SharedPolicy.CanonicalMatches | apk/gateway-connector/internal/k8sClient/k8s_client.go:1499-1508 | a rule built by deploy matches a name exactly when the name is its id |
| SharedPolicy.CanonicalIds | apk/gateway-connector/internal/k8sClient/k8s_client.go:1499-1508 | retrieval lists exactly the id of such a rule, or nothing when the id is empty |
| SharedPolicy.PolicyIdsOfCanonical | apk/gateway-connector/internal/k8sClient/k8s_client.go:1497-1512 | over deploy-built rules, retrieval lists exactly the non-empty ids of the rules |
| SharedPolicy.NewRuleCanonical | apk/gateway-connector/internal/k8sClient/k8s_client.go:1529-1604 | the built rule is of the canonical form and its id is the policy name |
| SharedPolicy.UpsertPreservesWellFormed | apk/gateway-connector/internal/k8sClient/k8s_client.go:1657-1684 | upsert keeps every rule canonical |
| SharedPolicy.DropIds | apk/gateway-connector/internal/k8sClient/k8s_client.go:1714-1735 | a rule survives removal of a set of ids exactly when it is in the input and its id is not in the set |
| SharedPolicy.FilteredIsDropIds | apk/gateway-connector/internal/k8sClient/k8s_client.go:1714-1735 | over canonical rules, the header filter equals dropping the single id |
| SharedPolicy.DropIdsCompose | apk/gateway-connector/internal/k8sClient/k8s_client.go:1714-1735 | dropping ids a and then ids b equals dropping a ∪ b |
| SharedPolicy.FilteredPreservesWellFormed | apk/gateway-connector/internal/k8sClient/k8s_client.go:1714-1735 | removal keeps every rule canonical |
| SharedPolicy.DropIdsPreservesWellFormed | apk/gateway-connector/internal/k8sClient/k8s_client.go:1714-1735 | dropping any set of ids keeps the rules canonical with distinct ids |
| SharedPolicy.DeployKeepsContainerValid | apk/gateway-connector/internal/k8sClient/k8s_client.go:1606-1692 | deploy keeps the container non-empty and canonical |
| SharedPolicy.RemoveKeepsContainerValid | apk/gateway-connector/internal/k8sClient/k8s_client.go:1695-1759 | a container that survives removal is non-empty and canonical |
| SharedPolicy.RemoveScenario | apk/gateway-connector/internal/k8sClient/k8s_client.go:1695-1759 | removing one of two policies keeps the other rule; removing both deletes the container |
| SharedPolicy.UpsertIds | apk/gateway-connector/internal/k8sClient/k8s_client.go:1477-1513 | after upsert, the retrieved ids are the old ones plus the policy name (if non-empty) |
| K8sClient.RuleCarriesPolicyId | apk/gateway-connector/internal/k8sClient/k8s_client.go:1663-1671 | the nested selector/header loop finds the id exactly when the rule matches |
| K8sClient.UpsertRule | apk/gateway-connector/internal/k8sClient/k8s_client.go:1657-1684 | the loop with the `ruleUpdated` flag computes the upserted list, and the flag is set exactly when some rule matched |
| K8sClient.KeepUnmatched | apk/gateway-connector/internal/k8sClient/k8s_client.go:1714-1735 | the loop computes the filtered list, and its flag says whether some rule matched |
| K8sClient.CollectPolicyNames | apk/gateway-connector/internal/k8sClient/k8s_client.go:1497-1512 | the loop collects exactly the retrieval list |
| K8sClient.SelectorPolicyIds | apk/gateway-connector/internal/k8sClient/k8s_client.go:1500-1507 | the selector loop of one rule collects exactly that rule's ids |
| K8sClient.HeaderPolicyId | apk/gateway-connector/internal/k8sClient/k8s_client.go:1501-1506 | the header loop yields the first non-empty `policy-id` value of a selector, or nothing |
| K8sClient.WithoutProvider | apk/gateway-connector/internal/k8sClient/k8s_client.go:939-947 | the survivors come from the input and none carries the removed name; the length is kept exactly when no provider had that name |
| K8sClient.WithoutProviderKeepsOthers | apk/gateway-connector/internal/k8sClient/k8s_client.go:939-947 | every provider with another name survives |
| K8sClient.WithoutProviderUnchanged | apk/gateway-connector/internal/k8sClient/k8s_client.go:939-947 | removal returns the list unchanged exactly when no provider carries the name |
| K8sClient.WithoutProviderAppend | apk/gateway-connector/internal/k8sClient/k8s_client.go:939-947 | removal distributes over concatenation, so the remaining providers keep their order |
| K8sClient.MappedClaims | apk/gateway-connector/internal/k8sClient/k8s_client.go:968-975 | one claim-to-header per claim mapping, header = local claim, claim = remote claim |
| K8sClient.RefreshedProviders | apk/gateway-connector/internal/k8sClient/k8s_client.go:950-978 | providers with the key manager's name are refreshed from the cache when it has an entry, all others unchanged |
| K8sClient.RefreshIsIdempotent | apk/gateway-connector/internal/k8sClient/k8s_client.go:950-978 | refreshing keeps names, and refreshing twice equals refreshing once |
| K8sClient.RemoveProviders | apk/gateway-connector/internal/k8sClient/k8s_client.go:937-947 | the loop computes the filtered list, and `updated` is set exactly when a provider was removed |
| K8sClient.RefreshProviders | apk/gateway-connector/internal/k8sClient/k8s_client.go:950-978 | the loop computes the refreshed list, and `updated` is set exactly when a provider matched and the cache had the key manager |
| K8sClient.UpdateProviders | apk/gateway-connector/internal/k8sClient/k8s_client.go:933-990 | the update is issued exactly when a provider was removed or refreshed; otherwise the policy is unchanged |
| K8sClient.UpdatedSecurityPolicy | apk/gateway-connector/internal/k8sClient/k8s_client.go:933-990 | name and labels kept; removal leaves no provider of that name; a refresh keeps the count; with no cache entry and no removal nothing changes |
| K8sClient.SecurityPoliciesUpdated | apk/gateway-connector/internal/k8sClient/k8s_client.go:913-993 | the same security policies exist, with names and labels kept; policies of other tenants are unchanged |
| K8sClient.UpdateSelectedPolicies | apk/gateway-connector/internal/k8sClient/k8s_client.go:933-990 | the loop over the tenant's security policies yields `SecurityPoliciesUpdated(...)` |
| K8sClient.KeyManagerEventTouchesOnlyItsProvider | apk/gateway-connector/internal/k8sClient/k8s_client.go:913-993 | the event acts on the provider named `<tenant>-<key manager>` only: a provider of any other name survives in every security policy, and after a removal no policy of the tenant lists one of that name |
| K8sClient.RemovedProviderIsGone | apk/gateway-connector/internal/k8sClient/k8s_client.go:937-947 | after removal, other providers remain and none has the removed name |
| K8sClient.RateLimitApplied | apk/gateway-connector/internal/k8sClient/k8s_client.go:502-503 | only the first rule's limit changes: requests = uint(requestCount), unit = the policy's time unit; the container's name, namespace, labels, the first rule's other fields and every other rule are kept |
| K8sClient.RateLimitUpdated | apk/gateway-connector/internal/k8sClient/k8s_client.go:482-511 | the same containers exist, each keeping everything but its rules; containers not selected for the tenant are unchanged; each selected one becomes `RateLimitApplied` of itself, so only its first rule's limit changes |
| K8sClient.RateLimitKeepsValid | apk/gateway-connector/internal/k8sClient/k8s_client.go:482-511 | the rate-limit update keeps every subscription container valid |
| K8sClient.AppliedKeepsValid | apk/gateway-connector/internal/k8sClient/k8s_client.go:502-503 | overwriting the first rule's limit keeps the container's labels and its validity |
| K8sClient.ApplyRateLimit | apk/gateway-connector/internal/k8sClient/k8s_client.go:500-509 | the loop over the listed containers yields `RateLimitUpdated(...)` |
| K8sClient.RateLimitUpdateReachesSharedContainer | apk/gateway-connector/internal/k8sClient/k8s_client.go:486-503 | the shared subscription container carries the labels the rate-limit update selects on, so its first rule's limit is overwritten too |
| K8sClient.Deployed | apk/gateway-connector/internal/k8sClient/k8s_client.go:1516-1692 | deploy touches only the tenant's container key |
| K8sClient.UpsertSharedContainer | apk/gateway-connector/internal/k8sClient/k8s_client.go:1606-1692 | the container write of a deploy yields `Deployed(...)` |
| K8sClient.UnDeployed | apk/gateway-connector/internal/k8sClient/k8s_client.go:1695-1759 | undeploy touches only the tenant's container key and never creates one |
| K8sClient.RemoveFromSharedContainer | apk/gateway-connector/internal/k8sClient/k8s_client.go:1695-1759 | the container write of an undeploy yields `UnDeployed(...)`, and nothing is written when the result equals the input |
| K8sClient.DeployKeepsClusterValid | apk/gateway-connector/internal/k8sClient/k8s_client.go:1516-1692 | deploy keeps every container valid |
| K8sClient.UnDeployKeepsClusterValid | apk/gateway-connector/internal/k8sClient/k8s_client.go:1695-1759 | undeploy keeps every container valid |
| K8sClient.StoredIds | apk/gateway-connector/internal/k8sClient/k8s_client.go:1477-1513 | an absent container yields [] and no retrieved id is empty |
| K8sClient.DeployThenRetrieve | apk/gateway-connector/internal/k8sClient/k8s_client.go:1477-1692 | after deploying p, retrieving the tenant's ids lists p's name |
| K8sClient.DeployedIds | apk/gateway-connector/internal/k8sClient/k8s_client.go:1477-1692 | after deploying p, a container's ids are its old ids plus p's name on p's container |
| K8sClient.RetrieveListsOwners | apk/gateway-connector/internal/k8sClient/k8s_client.go:1497-1512 | the retrieved ids are exactly the non-empty ids of the container's rules |
| K8sClient.ConfigOf | apk/gateway-connector/internal/k8sClient/k8s_client.go:952-957 | a cache hit yields the key manager's configuration, a miss yields none |
| K8sClient.Cluster.constructor | apk/gateway-connector/internal/k8sClient/k8s_client.go:1283-1292 | the cluster holds the given gateways, containers and security policies |
| K8sClient.Cluster.ListedGateway | apk/gateway-connector/internal/k8sClient/k8s_client.go:1283-1302 | a gateway is found exactly when the list call succeeds and the list is non-empty |
| K8sClient.Cluster.GetGatewayName | apk/gateway-connector/internal/k8sClient/k8s_client.go:1283-1302 | returns the first listed gateway; an error exactly when listing fails or finds none |
| K8sClient.Cluster.RetrieveSharedSubscriptionRateLimitPolicy | apk/gateway-connector/internal/k8sClient/k8s_client.go:1477-1513 | an error exactly when the API server fails; otherwise the tenant container's ids |
| K8sClient.Cluster.DeploySharedSubscriptionRateLimitPolicy | apk/gateway-connector/internal/k8sClient/k8s_client.go:1516-1692 | the containers become `Deployed(...)` with the listed or default gateway, or stay unchanged when the read fails; validity is kept |
| K8sClient.Cluster.UnDeploySharedSubscriptionRateLimitPolicy | apk/gateway-connector/internal/k8sClient/k8s_client.go:1695-1759 | the containers become `UnDeployed(...)`, or stay unchanged when the read fails; validity is kept |
| K8sClient.Cluster.UpdateRateLimitPolicy | apk/gateway-connector/internal/k8sClient/k8s_client.go:482-511 | the containers become `RateLimitUpdated(...)`, or stay unchanged when listing fails; validity is kept |
| K8sClient.Cluster.UpdateSecurityPolicies | apk/gateway-connector/internal/k8sClient/k8s_client.go:913-993 | each security policy of the tenant becomes `UpdatedSecurityPolicy(...)`, the others unchanged; nothing changes when listing fails |
| Synchronizer.GoIntAdd | apk/gateway-connector/internal/synchronizer/ratelimit_policy_fetcher.go:179 | the token total wraps as a 64-bit `int` and is the exact sum when it fits |
| Synchronizer.NormaliseRateLimitUnit | apk/gateway-connector/internal/synchronizer/ratelimit_policy_fetcher.go:55-61 | min→Minute, hour→Hour, day→Day, everything else unchanged |
| Synchronizer.NormalisedRateLimitPolicy | apk/gateway-connector/internal/synchronizer/ratelimit_policy_fetcher.go:55-61 | only the request-count unit is normalised |
| Synchronizer.NormaliseRateLimitUnitIdempotent | apk/gateway-connector/internal/synchronizer/ratelimit_policy_fetcher.go:55-61 | normalising twice equals normalising once |
| Synchronizer.RateLimitSync | apk/gateway-connector/internal/synchronizer/ratelimit_policy_fetcher.go:53-65 | applying every fetched policy in order keeps the containers' keys, labels and rule counts |
| Synchronizer.LastPolicyOfTenantWins | apk/gateway-connector/internal/synchronizer/ratelimit_policy_fetcher.go:53-65 | a selected container ends with the limit of the last fetched policy of its tenant |
| Synchronizer.SyncedPolicy | apk/gateway-connector/internal/synchronizer/ratelimit_policy_fetcher.go:53-65 | applying the fetched policies to one container keeps its labels and rule count |
| Synchronizer.SyncIsPointwise | apk/gateway-connector/internal/synchronizer/ratelimit_policy_fetcher.go:53-65 | each container ends as if the fetched policies were applied to it alone |
| Synchronizer.LastPolicyDecides | apk/gateway-connector/internal/synchronizer/ratelimit_policy_fetcher.go:53-65 | when no later fetched policy has the same tenant, the container's first rule ends with that policy's normalised limit |
| Synchronizer.UnselectedIsUntouched | apk/gateway-connector/internal/synchronizer/ratelimit_policy_fetcher.go:53-65 | a container no fetched policy selects is unchanged |
| Synchronizer.NormaliseSubscriptionUnit | apk/gateway-connector/internal/synchronizer/ratelimit_policy_fetcher.go:196-204 | min→Minute, hours→Hour, days→Day, months→Month, everything else unchanged |
| Synchronizer.NormalisedUnitSurvivesFormatting | apk/gateway-connector/internal/synchronizer/ratelimit_policy_fetcher.go:196-204 | formatting a normalised unit changes nothing, so "months" ends as "Month", where direct formatting would give "Day" |
| Synchronizer.NormalisedAiQuota | apk/gateway-connector/internal/synchronizer/ratelimit_policy_fetcher.go:172-181 | counts already set are never changed; a missing prompt or completion count takes the total; a missing total becomes prompt + completion when both are set |
| Synchronizer.NormalisedAiQuotaIdempotent | apk/gateway-connector/internal/synchronizer/ratelimit_policy_fetcher.go:172-181 | normalising twice equals normalising once |
| Synchronizer.DispatchAsWritten | apk/gateway-connector/internal/synchronizer/ratelimit_policy_fetcher.go:153-211 | the loop body as written panics exactly on an AI quota left without all three token counts |
| Synchronizer.DispatchPolicy | apk/gateway-connector/internal/synchronizer/ratelimit_policy_fetcher.go:153-211 | never panics; skips exactly AI policies without a quota; deploys every other policy under its own name and tenant, with aiPolicy exactly for AI quotas |
| Synchronizer.DispatchAgreesUnlessPanic | apk/gateway-connector/internal/synchronizer/ratelimit_policy_fetcher.go:153-211 | wherever the code as written does not panic, the corrected dispatch does the same |
| Synchronizer.RequestOnlyAiQuotaPanics | apk/gateway-connector/internal/synchronizer/ratelimit_policy_fetcher.go:184-186 | an AI quota with only a request count makes the code as written panic |
| Synchronizer.EveryAiQuotaIsDeployed | apk/gateway-connector/internal/synchronizer/ratelimit_policy_fetcher.go:154-190 | every AI policy with a quota is deployed as an AI policy with the same resolved limit |
| Synchronizer.RequestUnitIsNormalised | apk/gateway-connector/internal/synchronizer/ratelimit_policy_fetcher.go:194-208 | a request-count policy is deployed as non-AI, with the normalised unit |
| Synchronizer.Stale | apk/gateway-connector/internal/synchronizer/ratelimit_policy_fetcher.go:91-104 | the names removed are exactly the deployed names not among the fetched policies |
| Synchronizer.RemoveAll | apk/gateway-connector/internal/synchronizer/ratelimit_policy_fetcher.go:99-103 | repeated undeploys touch only the organization's container |
| Synchronizer.DeployAll | apk/gateway-connector/internal/synchronizer/ratelimit_policy_fetcher.go:153-211 | deploying never removes a container |
| Synchronizer.Cleaned | apk/gateway-connector/internal/synchronizer/ratelimit_policy_fetcher.go:89-107 | cleanup never creates a container |
| Synchronizer.RemoveAllDropsIds | apk/gateway-connector/internal/synchronizer/ratelimit_policy_fetcher.go:91-104 | undeploying a list of names equals dropping that set of ids at once, deleting the container when nothing is left |
| Synchronizer.RemoveAllKeepsValid | apk/gateway-connector/internal/synchronizer/ratelimit_policy_fetcher.go:99-103 | repeated undeploys keep every subscription container valid |
| Synchronizer.UnDeployDropped | apk/gateway-connector/internal/synchronizer/ratelimit_policy_fetcher.go:99-103 | one undeploy on a canonical container drops that id |
| Synchronizer.CleanupKeepsFetched | apk/gateway-connector/internal/synchronizer/ratelimit_policy_fetcher.go:89-104 | after cleanup a rule survives exactly when its policy was fetched (or it has no id), and no rule is added |
| Synchronizer.CleanedOnlyFetched | apk/gateway-connector/internal/synchronizer/ratelimit_policy_fetcher.go:89-104 | after cleanup the organization's container is valid and lists only fetched names |
| Synchronizer.DeployOneIds | apk/gateway-connector/internal/synchronizer/ratelimit_policy_fetcher.go:153-211 | one dispatched policy adds exactly its name to its tenant's ids |
| Synchronizer.DeployAllValid | apk/gateway-connector/internal/synchronizer/ratelimit_policy_fetcher.go:153-211 | deploying all fetched policies keeps the touched containers valid |
| Synchronizer.DeployAllKeepsValid | apk/gateway-connector/internal/synchronizer/ratelimit_policy_fetcher.go:153-211 | deploying the fetched policies in order keeps every subscription container valid |
| Synchronizer.DeployAllIdsAt | apk/gateway-connector/internal/synchronizer/ratelimit_policy_fetcher.go:153-211 | after deploying, a container's ids are its old ids plus the names of policies deployed into it |
| Synchronizer.DeployAllIds | apk/gateway-connector/internal/synchronizer/ratelimit_policy_fetcher.go:153-211 | deploying keeps old ids, adds only fetched names, and every deployable fetched policy is retrievable afterwards |
| Synchronizer.SyncMirrorsControlPlane | apk/gateway-connector/internal/synchronizer/ratelimit_policy_fetcher.go:85-211 | with cleanup, the organization's container lists only fetched names, and every deployed fetched policy is listed |
| Synchronizer.SyncWithoutCleanupKeepsIds | apk/gateway-connector/internal/synchronizer/ratelimit_policy_fetcher.go:85-211 | without cleanup, no deployed id is lost |
| Synchronizer.IsFetched | apk/gateway-connector/internal/synchronizer/ratelimit_policy_fetcher.go:92-98 | the `found` loop is true exactly when a fetched policy has that name |
| Synchronizer.FetchRateLimitPoliciesOnEvent | apk/gateway-connector/internal/synchronizer/ratelimit_policy_fetcher.go:39-68 | a retry is scheduled exactly for a non-nil empty list with an error message; otherwise every policy is normalised and applied in order; a nil list changes nothing |
| Synchronizer.CleanupStalePolicies | apk/gateway-connector/internal/synchronizer/ratelimit_policy_fetcher.go:85-107 | the organization's container becomes `Cleaned(...)`, or is unchanged when retrieval fails |
| Synchronizer.DeployFetchedPolicies | apk/gateway-connector/internal/synchronizer/ratelimit_policy_fetcher.go:153-211 | the containers become `DeployAll(...)` of the fetched policies |
| Synchronizer.FetchSubscriptionRateLimitPoliciesOnEvent | apk/gateway-connector/internal/synchronizer/ratelimit_policy_fetcher.go:71-214 | retry exactly for a non-nil empty list with an error message; otherwise optional cleanup then deploy, i.e. `SubscriptionSync(...)` |
| ManagementServer.SchemesCount | apk/gateway-connector/pkg/managementserver/event_holder.go:62-71 | the joined schemes number exactly the key mappings of the application |
| ManagementServer.SchemesMembers | apk/gateway-connector/pkg/managementserver/event_holder.go:62-71 | a scheme is joined exactly when some key mapping of the application produces it |
| ManagementServer.SchemesAnyOrder | apk/gateway-connector/pkg/managementserver/event_holder.go:64-69 | the joined multiset does not depend on map iteration order |
| ManagementServer.MappingsAfterUuidSweep | apk/gateway-connector/pkg/managementserver/event_holder.go:219-225 | as written: only the entry keyed `uuid` can go, and it goes only when some mapping's own UUID equals `uuid` |
| ManagementServer.MappingsWithoutApplication | apk/gateway-connector/pkg/managementserver/event_holder.go:219-225 | corrected: exactly the mappings of other applications remain, unchanged |
| ManagementServer.UuidSweepMissesApplicationMappings | apk/gateway-connector/pkg/managementserver/event_holder.go:219-225 | a mapping of application app1 survives the sweep for app1 as written, and is removed by the corrected one |
| ManagementServer.UuidSweepIsDelete | apk/gateway-connector/pkg/managementserver/event_holder.go:219-225 | when keys equal mapping UUIDs, the sweep as written is a single delete |
| ManagementServer.EventHolder.constructor | apk/gateway-connector/pkg/managementserver/event_holder.go:30-34 | the three maps start empty |
| ManagementServer.EventHolder.GetApplication | apk/gateway-connector/pkg/managementserver/event_holder.go:83-85 | the stored application, or the zero value for a missing key |
| ManagementServer.EventHolder.GetApplicationMapping | apk/gateway-connector/pkg/managementserver/event_holder.go:88-90 | the stored mapping, or the zero value |
| ManagementServer.EventHolder.GetApplicationKeyMapping | apk/gateway-connector/pkg/managementserver/event_holder.go:93-95 | the stored key mapping, or the zero value |
| ManagementServer.EventHolder.AddApplication | apk/gateway-connector/pkg/managementserver/event_holder.go:37-39 | stored under its UUID, so a get by that UUID returns it; other maps unchanged |
| ManagementServer.EventHolder.AddApplicationMapping | apk/gateway-connector/pkg/managementserver/event_holder.go:42-44 | stored under its UUID, so a get by that UUID returns it |
| ManagementServer.EventHolder.AddApplicationKeyMapping | apk/gateway-connector/pkg/managementserver/event_holder.go:47-51 | stored under the unique id of (application, key type, scheme, environment, organization), so a get by that id returns it |
| ManagementServer.EventHolder.UpdateApplication | apk/gateway-connector/pkg/managementserver/event_holder.go:114-116 | key set to the value, every other key reads as before |
| ManagementServer.EventHolder.UpdateApplicationMapping | apk/gateway-connector/pkg/managementserver/event_holder.go:119-121 | key set to the value, every other key reads as before |
| ManagementServer.EventHolder.UpdateApplicationKeyMapping | apk/gateway-connector/pkg/managementserver/event_holder.go:124-126 | key set to the value, every other key reads as before |
| ManagementServer.EventHolder.DeleteApplication | apk/gateway-connector/pkg/managementserver/event_holder.go:98-100 | only that key is removed, and it then reads as the zero value |
| ManagementServer.EventHolder.DeleteApplicationMapping | apk/gateway-connector/pkg/managementserver/event_holder.go:103-105 | only that key is removed, and it then reads as the zero value |
| ManagementServer.EventHolder.DeleteApplicationKeyMapping | apk/gateway-connector/pkg/managementserver/event_holder.go:108-111 | only that key is removed, and it then reads as the zero value |
| ManagementServer.EventHolder.DeleteAllApplications | apk/gateway-connector/pkg/managementserver/event_holder.go:189-191 | the map becomes empty |
| ManagementServer.EventHolder.DeleteAllApplicationMappings | apk/gateway-connector/pkg/managementserver/event_holder.go:194-196 | the map becomes empty |
| ManagementServer.EventHolder.DeleteAllApplicationKeyMappings | apk/gateway-connector/pkg/managementserver/event_holder.go:199-201 | the map becomes empty |
| ManagementServer.EventHolder.AddAllApplications | apk/gateway-connector/pkg/managementserver/event_holder.go:204-206 | the map is replaced wholesale |
| ManagementServer.EventHolder.AddAllApplicationMappings | apk/gateway-connector/pkg/managementserver/event_holder.go:209-211 | the map is replaced wholesale |
| ManagementServer.EventHolder.AddAllApplicationKeyMappings | apk/gateway-connector/pkg/managementserver/event_holder.go:214-216 | the map is replaced wholesale |
| ManagementServer.EventHolder.MarshalApplication | apk/gateway-connector/pkg/managementserver/event_holder.go:62-71 | the application's fields are copied, and its schemes are exactly one per key mapping with that application UUID |
| ManagementServer.EventHolder.GetAllApplications | apk/gateway-connector/pkg/managementserver/event_holder.go:54-61 | one resolved application per stored application, each marshalled from it |
| ManagementServer.EventHolder.GetAllApplicationMappings | apk/gateway-connector/pkg/managementserver/event_holder.go:74-80 | every stored mapping exactly once |
| ManagementServer.EventHolder.FindKeyMapping | apk/gateway-connector/pkg/managementserver/event_holder.go:129-166 | some stored key mapping satisfying the predicate, or the zero value when none does |
| ManagementServer.EventHolder.FindApplicationMapping | apk/gateway-connector/pkg/managementserver/event_holder.go:169-186 | some stored mapping satisfying the predicate, or the zero value when none does |
| ManagementServer.EventHolder.GetApplicationKeyMappingByApplicationUUID | apk/gateway-connector/pkg/managementserver/event_holder.go:129-136 | a stored key mapping of that application, or the zero value when none |
| ManagementServer.EventHolder.GetApplicationKeyMappingByApplicationUUIDAndEnvID | apk/gateway-connector/pkg/managementserver/event_holder.go:139-146 | a stored key mapping with that application and environment, or the zero value |
| ManagementServer.EventHolder.GetApplicationKeyMappingByApplicationUUIDAndSecurityScheme | apk/gateway-connector/pkg/managementserver/event_holder.go:149-156 | a stored key mapping with that application and scheme, or the zero value |
| ManagementServer.EventHolder.GetApplicationKeyMappingByApplicationUUIDAndSecuritySchemeAndEnvID | apk/gateway-connector/pkg/managementserver/event_holder.go:159-166 | a stored key mapping matching all three fields, or the zero value |
| ManagementServer.EventHolder.GetApplicationMappingByApplicationUUID | apk/gateway-connector/pkg/managementserver/event_holder.go:169-176 | a stored mapping whose application reference is the UUID, or the zero value |
| ManagementServer.EventHolder.GetApplicationMappingByApplicationUUIDAndSubscriptionUUID | apk/gateway-connector/pkg/managementserver/event_holder.go:179-186 | a stored mapping with that application and subscription, or the zero value |
| ManagementServer.EventHolder.DeleteAllApplicationMappingsByApplicationsUUID | apk/gateway-connector/pkg/managementserver/event_holder.go:219-225 | as written: the mappings become `MappingsAfterUuidSweep` (compares the mapping's own UUID) |
| ManagementServer.EventHolder.DeleteAllApplicationMappingsOfApplication | apk/gateway-connector/pkg/managementserver/event_holder.go:219-225 | corrected: every mapping of the application is removed and all others are kept |
| KongTransformer.SpecialOps | kong/gateway-connector/pkg/transformer/transformer.go:303-311 | exactly the operations with a rate limit, operation policies or endpoint configurations, in input order |
| KongTransformer.NormalOps | kong/gateway-connector/pkg/transformer/transformer.go:303-311 | exactly the other operations, in input order |
| KongTransformer.SplitIsPermutation | kong/gateway-connector/pkg/transformer/transformer.go:303-311 | special and normal operations together are a permutation of the input |
| KongTransformer.Singletons | kong/gateway-connector/pkg/transformer/transformer.go:312-320 | each special operation gets a row of its own, in order |
| KongTransformer.Chunks | kong/gateway-connector/pkg/transformer/transformer.go:322-333 | normal operations fill rows of 7, the last row holding the remainder, no row empty |
| KongTransformer.OperationsMatrixFlattens | kong/gateway-connector/pkg/transformer/transformer.go:296-334 | reading the matrix row by row gives the special operations then the normal ones, and every operation exactly once |
| KongTransformer.OperationsMatrixShape | kong/gateway-connector/pkg/transformer/transformer.go:296-334 | the matrix has the shape the generated matrix is required to have |
| KongTransformer.PrepareOperationsArray | kong/gateway-connector/pkg/transformer/transformer.go:296-334 | the row/column counter loops produce exactly the operations matrix |
| KongTransformer.SeparateOperations | kong/gateway-connector/pkg/transformer/transformer.go:303-311 | the first loop separates special from normal operations, order kept |
| KongTransformer.FillOperationsMatrix | kong/gateway-connector/pkg/transformer/transformer.go:312-333 | the filling loops place special rows first, then normal operations 7 per row |
| KongTransformer.FillNormalRows | kong/gateway-connector/pkg/transformer/transformer.go:322-333 | the column/row counter loop puts normal operation 7·r + c at row r, column c after the special rows |
| KongTransformer.JwtConfigFor | kong/gateway-connector/pkg/transformer/transformer.go:348-374 | header names are [HeaderName] if the header is enabled, else ["Authorization"] if enabled, else []; uri param names are [QueryParamName] exactly when the query param is enabled |
| KongTransformer.KeyAuthConfigFor | kong/gateway-connector/pkg/transformer/transformer.go:377-395 | key names are the non-empty ones of HeaderName, QueryParamName, in that order; key_in_header / key_in_query follow the flags |
| KongTransformer.CreateConsumer | kong/gateway-connector/pkg/transformer/transformer.go:407-427 | always labelled with the application UUID; the environment label is present exactly when the environment is non-empty; name, username and ingress class as derived |
| KongTransformer.StampedLabels | kong/gateway-connector/pkg/transformer/transformer.go:144-148 | the three stamp labels are set, every other label kept |
| KongTransformer.FreshLabels | kong/gateway-connector/pkg/transformer/transformer.go:162-173 | exactly the three stamp labels |
| KongTransformer.RouteHostnames | kong/gateway-connector/pkg/transformer/transformer.go:149-160 | production routes get [last vhost], sandbox routes ["sandbox." + last vhost], others (or no environments) keep their hostnames |
| KongTransformer.StampingIsIdempotent | kong/gateway-connector/pkg/transformer/transformer.go:144-161 | stamping twice equals stamping once, and stamping does not change which hostnames a route gets |
| KongTransformer.HttpRoute.constructor | kong/gateway-connector/pkg/transformer/transformer.go:274-275 | a route with the given metadata and rules |
| KongTransformer.HttpRoute.UpdateAnnotations | kong/gateway-connector/pkg/transformer/transformer.go:399-404 | the annotation keys become exactly the given keys, each value given + "," (old annotations discarded) |
| KongTransformer.HttpRoute.Stamp | kong/gateway-connector/pkg/transformer/transformer.go:144-161 | one route's labels are stamped and its hostnames set per environment; name, annotations and rules unchanged |
| KongTransformer.Service.constructor | kong/gateway-connector/pkg/transformer/transformer.go:162-167 | a service with the given name and labels |
| KongTransformer.KongPlugin.constructor | kong/gateway-connector/pkg/transformer/transformer.go:465-480 | the plugin is named from operation, target and plugin name, and is disabled exactly when not enabled |
| KongTransformer.PrepareOptionsHttpRoute | kong/gateway-connector/pkg/transformer/transformer.go:274-294 | a fresh copy named name + "-options", routeType=options, annotations exactly strip-path "true,", hostnames kept, same rules and match counts with every match's method OPTIONS; the original is untouched |
| KongTransformer.MarkOptionsRules | kong/gateway-connector/pkg/transformer/transformer.go:287-291 | the outer loop makes every rule an OPTIONS rule, backend references and match counts kept |
| KongTransformer.MarkOptionsMatches | kong/gateway-connector/pkg/transformer/transformer.go:288-290 | the inner loop sets method OPTIONS on every match of a rule and changes nothing else |
| KongTransformer.K8sArtifacts.constructor | kong/gateway-connector/pkg/transformer/transformer.go:40-60 | an artifact bundle for an API with no routes, services or plugins |
| KongTransformer.K8sArtifacts.CreateAndAddJwtPlugin | kong/gateway-connector/pkg/transformer/transformer.go:348-374 | a JWT plugin with the derived config, targeted at apiUUID-targetRef, is added under its name; nothing else changes |
| KongTransformer.K8sArtifacts.CreateAndAddApiKeyPlugin | kong/gateway-connector/pkg/transformer/transformer.go:377-396 | an API-key plugin with the derived config is added under its name; nothing else changes |
| KongTransformer.K8sArtifacts.UpdateCRS | kong/gateway-connector/pkg/transformer/transformer.go:128-174 | every route is stamped with the organization hash, API UUID and revision, keeping its other labels and taking the environment hostnames; every service's and plugin's labels become exactly the three stamps |
| KongTransformer.K8sArtifacts.StampRoutes | kong/gateway-connector/pkg/transformer/transformer.go:144-161 | the route loop stamps every route, including routes stored under two keys |
| KongTransformer.K8sArtifacts.StampServices | kong/gateway-connector/pkg/transformer/transformer.go:162-167 | every service's labels become the three stamps |
| KongTransformer.K8sArtifacts.StampPlugins | kong/gateway-connector/pkg/transformer/transformer.go:168-173 | every plugin's labels become the three stamps, other fields unchanged |

## Left out

- Kubernetes client calls: Get, List, Create, Update and Delete become map reads and writes on
  `K8sClient.Cluster`.
  - A read error other than not-found is the `apiDown` flag, constant for one event.
  - Write failures are only logged by the code, so writes always succeed in the model.
- Logging, `config.ReadConfigs`, and JSON/YAML generation and parsing are not modelled. The
  namespace is a field of the cluster.
- The retry goroutines `retryRLPFetchData` and `retrySubscriptionRLPFetchData` become a
  returned "retry scheduled" flag. Their sleeping, retry counter and concurrency are not
  modelled.
- Concurrency is not modelled. The application store's maps are unguarded package-level maps,
  and the model treats every operation as atomic.
- Hashing and naming are parameters of unknown behaviour:
  - SHA-1 of the organization
  - the shared subscription policy name of a tenant
  - the plugin and consumer CR names
  - the unique id of a key mapping
- The label keys and values of the Kong transformer are defined in files that are not part of
  this model:
  - the organization, API UUID, revision, environment and application UUID label keys
  - the production and sandbox values
  - the ingress class
  - the JWT and key-auth plugin names

  The model uses distinct named constants in their place.
- `managementserver.AddSubscriptionPolicy` is not part of this model.
- Left out of k8s_client.go:
  - the `Deploy*CR` get-then-create-or-update wrappers
  - the legacy per-policy rate-limit CRs
  - the key-manager backend and TLS generators
  - `DeleteSecurityPolicyCR` and `UpdateSecurityPolicyCR`
  - the route-metadata and AI-provider listings
- The PEM branch of the security-policy refresh only logs. The refresh takes the issuer, the
  JWKS URI (for JWKS certificates) and the claim mappings.
- Left out of transformer.go:
  - `GenerateCR` (YAML parsing and route generation through an external generator)
  - `generateHTTPRoutes`
  - the ACL plugin
  - the credential secrets
  - plugin TypeMeta
- km_handler.go only dispatches events into a cache and the cluster, so it is not modelled.
- QuotaResolver.GetRateLimitPolicyContents: requires a non-zero unit time, and for AI quotas a
  present quota and request count. The code dereferences or divides by these and would panic.
- K8sClient.RateLimitApplied: returns a container without rules unchanged, where the code would
  panic. `UpdateRateLimitPolicy`'s precondition keeps this case out.
- K8sClient.Cluster.UpdateRateLimitPolicy: requires every selected container to have at least
  one rule. The code indexes `Rules[0]` unconditionally, and an empty list would panic.
- K8sClient.Cluster.DeploySharedSubscriptionRateLimitPolicy: requires a resolvable quota, for
  the same reason as GetRateLimitPolicyContents.
- Synchronizer.FetchRateLimitPoliciesOnEvent: requires the fetched policies to satisfy the
  `UpdateRateLimitPolicy` precondition.
- Synchronizer.DeployOne: models the deploy loop's handling of one policy with the panic in its
  AI logging corrected (see Findings): an AI quota without token counts is deployed, where the
  code dereferences a nil count and panics.
- Synchronizer.DeployAll: folds the corrected `DeployOne`, so it deploys where the code panics.
- Synchronizer.SubscriptionSync: deploys through the corrected `DeployAll`, so it deploys where
  the code panics.
- Synchronizer.DeployFetchedPolicies: dispatches through the corrected `DispatchPolicy`, so it
  deploys where the code at ratelimit_policy_fetcher.go:184-186 panics.
- Synchronizer.FetchSubscriptionRateLimitPoliciesOnEvent: models the handler with the same panic
  corrected; `Synchronizer.DispatchAgreesUnlessPanic` shows it agrees with the code on every
  policy the code does not panic on.
- Synchronizer.FetchSubscriptionRateLimitPoliciesOnEvent: requires every fetched policy to be
  resolvable once normalised.
- KongTransformer.PrepareOperationsArray: takes the matrix shape produced by
  `GenerateOperationsMatrix` as a precondition. That function is not part of this model.
- An unknown quota type still deploys a rule with unit "" and 0 requests; the code does not
  skip it.
- The unit a monthly subscription policy ends with depends on its quota type:
  - a `requestCount` quota ends with "Month", because the fetcher normalises the request
    count's unit before `getFormattedTimeUnit`, which leaves "Month" alone;
  - an `eventCount` quota ends with "Day", because the fetcher normalises only the request
    count's unit and `getFormattedTimeUnit` maps "months" to "Day";
  - an `aiApiQuota` quota's unit is passed through unformatted.
- A nil label map on a route, or a nil environment list, panics in the code. The model uses
  plain maps and sequences, so it does not capture this.
- The operations matrix is a sequence of sequences, not a Go slice of slices, so aliasing
  between rows is not modelled.
- `AddAll*` stores the caller's map itself, so later updates would be visible to the caller.
  The model holds map values, so this aliasing is not captured.
- Iteration order of Go maps is modelled by arbitrary choice.
  - The first-match lookups are specified for any order.
  - The listing methods return a ghost witness of the order they used.

## Findings

| source | as written | input that shows it | evidently intended | confidence | as-written member | corrected member |
|---|---|---|---|---|---|---|
| apk/gateway-connector/internal/synchronizer/ratelimit_policy_fetcher.go:184-186 | after token-count defaulting, the prompt, completion and total counts are dereferenced for logging | an `aiApiQuota` policy whose AI quota has a request count but no token counts: all three counts stay nil and the dereference panics | deploy the AI policy (the defaulting at 172-181 treats every count as optional) | not executed | Synchronizer.RequestOnlyAiQuotaPanics | Synchronizer.EveryAiQuotaIsDeployed |
| apk/gateway-connector/pkg/managementserver/event_holder.go:219-225 | mappings are deleted when the mapping's own `UUID` equals the application UUID | a mapping keyed "m1" with UUID "m1" and ApplicationRef "app1", swept for "app1": it is kept | delete every mapping whose `ApplicationRef` is the application | not executed | ManagementServer.UuidSweepMissesApplicationMappings | ManagementServer.EventHolder.DeleteAllApplicationMappingsOfApplication |
