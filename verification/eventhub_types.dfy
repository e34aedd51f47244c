/** The control-plane payloads the rate-limit code consumes (common-agent eventhub types). */
module EventHubTypes {
  import opened Wrappers

  /** The `requestCount` block of a default limit. */
  datatype RequestCountQuota = RequestCountQuota(timeUnit: string, unitTime: int, requestCount: int)

  /** The `eventCount` block; declared as an untyped value in the payload type but read with
      the same three fields as the request-count block. */
  datatype EventCountQuota = EventCountQuota(timeUnit: string, unitTime: int, eventCount: int)

  /** AI token quotas; every count may be nil in the source. */
  datatype AiApiQuota = AiApiQuota(
    completionTokenCount: Option<int>,
    promptTokenCount: Option<int>,
    requestCount: Option<int>,
    timeUnit: string,
    totalTokenCount: Option<int>,
    unitTime: int)

  datatype DefaultLimit = DefaultLimit(
    aiApiQuota: Option<AiApiQuota>,
    quotaType: string,
    requestCount: RequestCountQuota,
    eventCount: EventCountQuota)

  datatype SubscriptionPolicy = SubscriptionPolicy(
    tenantDomain: string,
    name: string,
    quotaType: string,
    defaultLimit: DefaultLimit)

  datatype RateLimitPolicy = RateLimitPolicy(
    tenantDomain: string,
    name: string,
    quotaType: string,
    applicableLevel: string,
    defaultLimit: DefaultLimit)

  datatype Claim = Claim(remoteClaim: string, localClaim: string)

  /** The part of a resolved key manager's configuration the security-policy update reads. */
  datatype KeyManagerConfig = KeyManagerConfig(
    issuer: string,
    certificateType: string,
    certificateValue: string,
    claimMappings: seq<Claim>)

  datatype ResolvedKeyManager = ResolvedKeyManager(
    uuid: string,
    name: string,
    organization: string,
    keyManagerConfig: KeyManagerConfig)
}
