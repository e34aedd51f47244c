/** Resolving a subscription policy's quota into the (unit, requests) pair of a gateway
    rate-limit rule (k8s_client.go, getRateLimitPolicyContents and getFormattedTimeUnit). */
module QuotaResolver {
  import opened Wrappers
  import opened EventHubTypes

  const Uint64Modulus: int := 0x1_0000_0000_0000_0000

  /** Go's integer division on `int`, which truncates toward zero (Dafny's `/` is Euclidean). */
  function GoDiv(a: int, b: int): (q: int)
    requires b != 0
    ensures 0 <= a && 0 < b ==> q == a / b
    ensures var rem := a - q * b;
      && (rem == 0 || ((rem < 0) == (a < 0)))
      && Abs(rem) < Abs(b)
  {
    var n := if a < 0 then -a else a;
    var d := if b < 0 then -b else b;
    if (a < 0) != (b < 0) then -(n / d) else n / d
  }

  function Abs(x: int): nat {
    if x < 0 then -x else x
  }

  /** Go's conversion `uint(x)` of a 64-bit `int`: two's-complement wrap-around. */
  function UintOf(x: int): (u: nat)
    ensures u < Uint64Modulus
    ensures 0 <= x < Uint64Modulus ==> u == x
    ensures -0x8000_0000_0000_0000 <= x < 0 ==> u == x + Uint64Modulus
  {
    x % Uint64Modulus
  }

  /** Maps the control plane's free-text unit onto the gateway's enumerated unit; months
      collapse onto Day because the gateway has no month unit. */
  function GetFormattedTimeUnit(timeUnit: string): (r: string)
    ensures r in {"Minute", "Hour", "Day"} || r == timeUnit
  {
    match timeUnit
    case "min" => "Minute"
    case "hours" => "Hour"
    case "days" => "Day"
    case "months" => "Day"
    case _ => timeUnit
  }

  /** The four spellings the control plane uses and what each becomes. */
  lemma FormattedTimeUnitTable()
    ensures GetFormattedTimeUnit("min") == "Minute"
    ensures GetFormattedTimeUnit("hours") == "Hour"
    ensures GetFormattedTimeUnit("days") == "Day"
    ensures GetFormattedTimeUnit("months") == "Day"
    ensures forall u :: u !in {"min", "hours", "days", "months"} ==> GetFormattedTimeUnit(u) == u
  {
  }

  /** Formatting an already formatted unit changes nothing. */
  lemma FormattedTimeUnitIdempotent(timeUnit: string)
    ensures GetFormattedTimeUnit(GetFormattedTimeUnit(timeUnit)) == GetFormattedTimeUnit(timeUnit)
  {
  }

  /** The (unit, requests-per-unit) pair placed in a rate-limit rule. */
  datatype Contents = Contents(unit: string, requests: nat)

  const QuotaTypes: set<string> := {"aiApiQuota", "eventCount", "requestCount"}

  /** What the source needs not to fault: a non-zero divisor, and for AI quotas a present
      quota block with a present request count (both are dereferenced). */
  predicate Resolvable(policy: SubscriptionPolicy) {
    match policy.quotaType
    case "aiApiQuota" =>
      policy.defaultLimit.aiApiQuota.Some?
      && policy.defaultLimit.aiApiQuota.value.requestCount.Some?
      && policy.defaultLimit.aiApiQuota.value.unitTime != 0
    case "eventCount" => policy.defaultLimit.eventCount.unitTime != 0
    case "requestCount" => policy.defaultLimit.requestCount.unitTime != 0
    case _ => true
  }

  function GetRateLimitPolicyContents(policy: SubscriptionPolicy): (c: Contents)
    requires Resolvable(policy)
    ensures c.requests < Uint64Modulus
  {
    var limit := policy.defaultLimit;
    match policy.quotaType
    case "aiApiQuota" =>
      var q := limit.aiApiQuota.value;
      Contents(q.timeUnit, UintOf(GoDiv(q.requestCount.value, q.unitTime)))
    case "eventCount" =>
      Contents(GetFormattedTimeUnit(limit.eventCount.timeUnit),
               UintOf(GoDiv(limit.eventCount.eventCount, limit.eventCount.unitTime)))
    case "requestCount" =>
      Contents(GetFormattedTimeUnit(limit.requestCount.timeUnit),
               UintOf(GoDiv(limit.requestCount.requestCount, limit.requestCount.unitTime)))
    case _ => Contents("", 0)
  }

  /** Request and event quotas: the unit is formatted and the count is the per-unit rate,
      rounded down. */
  lemma RequestQuotaIsRoundedDownRate(policy: SubscriptionPolicy)
    requires policy.quotaType == "requestCount"
    requires var rc := policy.defaultLimit.requestCount;
      0 < rc.unitTime && 0 <= rc.requestCount < Uint64Modulus
    ensures var rc := policy.defaultLimit.requestCount;
      var c := GetRateLimitPolicyContents(policy);
      && c.unit == GetFormattedTimeUnit(rc.timeUnit)
      && c.requests * rc.unitTime <= rc.requestCount < (c.requests + 1) * rc.unitTime
  {
    var rc := policy.defaultLimit.requestCount;
    var q := rc.requestCount / rc.unitTime;
    assert 0 <= q <= rc.requestCount by {
      DivBounds(rc.requestCount, rc.unitTime);
    }
    assert GoDiv(rc.requestCount, rc.unitTime) == q;
  }

  lemma EventQuotaIsRoundedDownRate(policy: SubscriptionPolicy)
    requires policy.quotaType == "eventCount"
    requires var ec := policy.defaultLimit.eventCount;
      0 < ec.unitTime && 0 <= ec.eventCount < Uint64Modulus
    ensures var ec := policy.defaultLimit.eventCount;
      var c := GetRateLimitPolicyContents(policy);
      && c.unit == GetFormattedTimeUnit(ec.timeUnit)
      && c.requests * ec.unitTime <= ec.eventCount < (c.requests + 1) * ec.unitTime
  {
    var ec := policy.defaultLimit.eventCount;
    var q := ec.eventCount / ec.unitTime;
    assert 0 <= q <= ec.eventCount by {
      DivBounds(ec.eventCount, ec.unitTime);
    }
    assert GoDiv(ec.eventCount, ec.unitTime) == q;
  }

  lemma DivBounds(a: int, b: int)
    requires 0 <= a && 0 < b
    ensures 0 <= a / b <= a
    ensures (a / b) * b <= a < (a / b + 1) * b
  {
    var q, r := a / b, a % b;
    assert a == q * b + r && 0 <= r < b;
    assert (q + 1) * b == q * b + b;
    if q < 0 {
      MulMonotone(q, -1, b);
      assert false;
    }
    MulMonotone(1, b, q);
  }

  lemma MulMonotone(x: int, y: int, k: int)
    requires x <= y && 0 <= k
    ensures x * k <= y * k
  {
    assert y * k - x * k == (y - x) * k;
  }

  /** AI quotas keep the control plane's unit verbatim (no formatting), and the count is the
      request count's per-unit rate, rounded down. */
  lemma AiQuotaUnitPassesThrough(policy: SubscriptionPolicy)
    requires policy.quotaType == "aiApiQuota" && Resolvable(policy)
    ensures var q := policy.defaultLimit.aiApiQuota.value;
      var c := GetRateLimitPolicyContents(policy);
      && c.unit == q.timeUnit
      && (0 < q.unitTime && 0 <= q.requestCount.value < Uint64Modulus ==>
            c.requests * q.unitTime <= q.requestCount.value < (c.requests + 1) * q.unitTime)
  {
    var q := policy.defaultLimit.aiApiQuota.value;
    if 0 < q.unitTime && 0 <= q.requestCount.value < Uint64Modulus {
      var n := q.requestCount.value / q.unitTime;
      assert 0 <= n <= q.requestCount.value by {
        DivBounds(q.requestCount.value, q.unitTime);
      }
      assert GoDiv(q.requestCount.value, q.unitTime) == n;
    }
  }

  /** The token counts of an AI quota play no part in the rule: two AI policies that differ
      only in their prompt, completion and total token counts resolve alike. */
  lemma AiQuotaIgnoresTokenCounts(policy: SubscriptionPolicy, completion: Option<int>, prompt: Option<int>,
                                  total: Option<int>)
    requires policy.quotaType == "aiApiQuota" && Resolvable(policy)
    ensures var q := policy.defaultLimit.aiApiQuota.value;
      var other := policy.(defaultLimit := policy.defaultLimit.(aiApiQuota := Some(
        q.(completionTokenCount := completion, promptTokenCount := prompt, totalTokenCount := total))));
      && Resolvable(other)
      && GetRateLimitPolicyContents(other) == GetRateLimitPolicyContents(policy)
  {
  }

  /** An unknown quota type yields the empty sentinel. */
  lemma UnknownQuotaTypeYieldsSentinel(policy: SubscriptionPolicy)
    requires policy.quotaType !in QuotaTypes
    ensures GetRateLimitPolicyContents(policy) == Contents("", 0)
  {
  }

  /** 6000 requests per 60 minutes is 100 per minute. */
  lemma SixThousandPerHourOfMinutes(policy: SubscriptionPolicy)
    requires policy.quotaType == "requestCount"
    requires policy.defaultLimit.requestCount == RequestCountQuota("min", 60, 6000)
    ensures GetRateLimitPolicyContents(policy) == Contents("Minute", 100)
  {
  }

  /** Negative counts: Go truncates toward zero and `uint` wraps around. */
  lemma NegativeCountWraps()
    ensures GoDiv(-7, 2) == -3
    ensures UintOf(GoDiv(-7, 2)) == Uint64Modulus - 3
  {
  }
}
