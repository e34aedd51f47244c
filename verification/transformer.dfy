/**
 * Helpers of the Kong transformer: partitioning an API's operations into the rows from which
 * HTTP routes are generated, the OPTIONS route derived from each route, annotation rewriting,
 * the JWT and API-key plugin configurations, stamping labels and hostnames onto generated
 * resources, and consumer construction. Routes, services and plugins are objects that the
 * artifact's maps point to and that the helpers update in place.
 */
module KongTransformer {
  import opened Wrappers

  // Label keys and environment names. Their spellings are defined outside this model; the
  // properties below only rely on the keys being pairwise distinct.
  const OrganizationField := "organization"
  const ApiUuidField := "apiUUID"
  const RevisionField := "revisionID"
  const ApiEnvironmentField := "environment"
  const AppUuidField := "applicationUUID"
  const ProductionType := "PRODUCTION"
  const SandboxType := "SANDBOX"
  const IngressClassName := "kong"
  const JwtAuthPluginName := "jwt"
  const KeyAuthPluginName := "key-auth"
  const StripPathAnnotation := "konghq.com/strip-path"
  const RouteTypeLabel := "routeType"

  datatype RateLimit = RateLimit(unit: string, requestsPerUnit: int)

  /** An API operation. Only whether policies or endpoint configurations are present matters
      here; their contents are carried along untouched. */
  datatype Operation = Operation(target: string, verb: string, rateLimit: Option<RateLimit>,
                                 operationPolicies: Option<seq<string>>,
                                 endpointConfigurations: Option<seq<string>>)

  datatype AuthConfiguration = AuthConfiguration(authType: string, enabled: bool, headerName: string,
                                                 headerEnabled: bool, queryParamName: string,
                                                 queryParamEnable: bool)

  datatype Environment = Environment(vhost: string)

  datatype RouteMatch = RouteMatch(pathType: string, pathValue: string, httpMethod: Option<string>)

  datatype RouteRule = RouteRule(matches: seq<RouteMatch>, backendRefs: seq<string>)

  datatype PluginConfig =
    | JwtConfig(runOnPreflight: bool, keyClaimName: string, claimsToVerify: seq<string>,
                headerNames: seq<string>, uriParamNames: seq<string>)
    | KeyAuthConfig(runOnPreflight: bool, keyNames: seq<string>, keyInHeader: bool, keyInQuery: bool)

  datatype Consumer = Consumer(kind: string, apiVersion: string, name: string,
                               annotations: map<string, string>, labels: map<string, string>, username: string)

  /** The hash-based names, computed by code this model does not include. */
  datatype Naming = Naming(sha1: string -> string,
                           pluginCRName: (Option<Operation>, string, string) -> string,
                           consumerName: (string, string) -> string)

  // ---------------------------------------------------------------------------------------
  // Partitioning operations into route rows.

  /** An operation with its own rate limit, policies or endpoint configurations gets a route
      of its own. */
  predicate IsSpecial(operation: Operation) {
    operation.rateLimit.Some? || operation.operationPolicies.Some? || operation.endpointConfigurations.Some?
  }

  function SpecialOps(operations: seq<Operation>): (special: seq<Operation>)
    ensures forall op :: op in special <==> op in operations && IsSpecial(op)
  {
    if operations == [] then []
    else
      var last := operations[|operations| - 1];
      SpecialOps(operations[..|operations| - 1]) + (if IsSpecial(last) then [last] else [])
  }

  function NormalOps(operations: seq<Operation>): (normal: seq<Operation>)
    ensures forall op :: op in normal <==> op in operations && !IsSpecial(op)
  {
    if operations == [] then []
    else
      var last := operations[|operations| - 1];
      NormalOps(operations[..|operations| - 1]) + (if IsSpecial(last) then [] else [last])
  }

  /** Splitting loses and invents nothing: the two parts together are a permutation of the input. */
  lemma {:induction false} SplitIsPermutation(operations: seq<Operation>)
    ensures multiset(SpecialOps(operations)) + multiset(NormalOps(operations)) == multiset(operations)
    decreases |operations|
  {
    if operations != [] {
      var prefix := operations[..|operations| - 1];
      SplitIsPermutation(prefix);
      assert operations == prefix + [operations[|operations| - 1]];
    }
  }

  function Min(a: int, b: int): int {
    if a <= b then a else b
  }

  /** One row per special operation. */
  function Singletons(special: seq<Operation>): (rows: seq<seq<Operation>>)
    ensures |rows| == |special|
    ensures forall r :: 0 <= r < |rows| ==> rows[r] == [special[r]]
  {
    seq(|special|, r requires 0 <= r < |special| => [special[r]])
  }

  /** The number of rows n normal operations fill, at most seven to a row. */
  function RowCount(n: nat): nat {
    (n + 6) / 7
  }

  lemma RowCountBound(q: nat, n: nat)
    requires 7 * q < n
    ensures q < RowCount(n)
  {
  }

  /** The normal operations cut into rows of seven, the last row holding the rest. */
  function Chunks(normal: seq<Operation>): (rows: seq<seq<Operation>>)
    ensures |rows| == RowCount(|normal|)
    ensures forall r :: 0 <= r < |rows| ==>
      0 < |rows[r]| <= 7 && |rows[r]| == Min(7, |normal| - 7 * r)
  {
    seq(RowCount(|normal|), r requires 0 <= r < RowCount(|normal|) =>
      normal[7 * r .. Min(7 * r + 7, |normal|)])
  }

  /** The route rows of an API: special operations one per row, then the normal ones seven per row. */
  function OperationsMatrix(operations: seq<Operation>): seq<seq<Operation>> {
    Singletons(SpecialOps(operations)) + Chunks(NormalOps(operations))
  }

  /** The shape of the matrix the source allocates before filling it: a one-column row per
      special operation, then as many rows of at most seven columns as the normal operations fill. */
  predicate MatrixShape(matrix: seq<seq<Operation>>, specialCount: nat, normalCount: nat) {
    && |matrix| == specialCount + RowCount(normalCount)
    && (forall r :: 0 <= r < specialCount ==> |matrix[r]| == 1)
    && (forall r :: specialCount <= r < |matrix| ==>
          |matrix[r]| == Min(7, normalCount - 7 * (r - specialCount)))
  }

  function Flatten(rows: seq<seq<Operation>>): seq<Operation> {
    if rows == [] then [] else Flatten(rows[..|rows| - 1]) + rows[|rows| - 1]
  }

  lemma {:induction false} FlattenAppend(a: seq<seq<Operation>>, b: seq<seq<Operation>>)
    ensures Flatten(a + b) == Flatten(a) + Flatten(b)
    decreases |b|
  {
    if b != [] {
      assert (a + b)[..|a + b| - 1] == a + b[..|b| - 1];
      FlattenAppend(a, b[..|b| - 1]);
    } else {
      assert a + b == a;
    }
  }

  lemma {:induction false} FlattenSingletons(special: seq<Operation>)
    ensures Flatten(Singletons(special)) == special
    decreases |special|
  {
    if special != [] {
      var prefix := special[..|special| - 1];
      assert Singletons(special)[..|special| - 1] == Singletons(prefix);
      FlattenSingletons(prefix);
      assert special == prefix + [special[|special| - 1]];
    }
  }

  /** The first k rows of seven flatten to the first 7k operations. */
  lemma {:induction false} FlattenChunksPrefix(normal: seq<Operation>, k: nat)
    requires k <= RowCount(|normal|)
    ensures Flatten(Chunks(normal)[..k]) == normal[..Min(7 * k, |normal|)]
    decreases k
  {
    var rows := Chunks(normal);
    if k > 0 {
      assert rows[..k][..k - 1] == rows[..k - 1];
      FlattenChunksPrefix(normal, k - 1);
      var lo := 7 * (k - 1);
      var hi := Min(7 * k, |normal|);
      assert rows[k - 1] == normal[lo..hi];
      assert normal[..hi] == normal[..lo] + normal[lo..hi];
    }
  }

  /** Every operation appears in the matrix exactly once: special ones first, each group in
      input order. */
  lemma OperationsMatrixFlattens(operations: seq<Operation>)
    ensures Flatten(OperationsMatrix(operations)) == SpecialOps(operations) + NormalOps(operations)
    ensures multiset(Flatten(OperationsMatrix(operations))) == multiset(operations)
  {
    var normal := NormalOps(operations);
    FlattenAppend(Singletons(SpecialOps(operations)), Chunks(normal));
    FlattenSingletons(SpecialOps(operations));
    FlattenChunksPrefix(normal, RowCount(|normal|));
    assert Chunks(normal)[..RowCount(|normal|)] == Chunks(normal);
    assert normal[..Min(7 * RowCount(|normal|), |normal|)] == normal;
    SplitIsPermutation(operations);
  }

  /** The rows have the shape of the generated matrix, so filling it covers every cell. */
  lemma OperationsMatrixShape(operations: seq<Operation>)
    ensures MatrixShape(OperationsMatrix(operations), |SpecialOps(operations)|, |NormalOps(operations)|)
  {
  }

  /** A matrix of the right shape whose cells hold the special operations down column 0 and
      then the normal operations row by row is the operations matrix. */
  lemma FilledMatrix(matrix: seq<seq<Operation>>, special: seq<Operation>, normal: seq<Operation>)
    requires MatrixShape(matrix, |special|, |normal|)
    requires forall r :: 0 <= r < |special| ==> matrix[r] == [special[r]]
    requires forall r, c :: |special| <= r < |matrix| && 0 <= c < |matrix[r]| ==>
      7 * (r - |special|) + c < |normal| && matrix[r][c] == normal[7 * (r - |special|) + c]
    ensures matrix == Singletons(special) + Chunks(normal)
  {
    var expected := Singletons(special) + Chunks(normal);
    forall r | 0 <= r < |matrix|
      ensures matrix[r] == expected[r]
    {
      if r >= |special| {
        assert expected[r] == Chunks(normal)[r - |special|];
      }
    }
  }

  /** Separates special from normal operations, then fills the generated matrix: special
      operations down column 0, normal operations row by row, seven to a row. */
  method PrepareOperationsArray(operations: seq<Operation>, generated: seq<seq<Operation>>)
    returns (matrix: seq<seq<Operation>>)
    requires MatrixShape(generated, |SpecialOps(operations)|, |NormalOps(operations)|)
    ensures matrix == OperationsMatrix(operations)
  {
    var special, normal := SeparateOperations(operations);
    matrix := FillOperationsMatrix(generated, special, normal);
  }

  /** The separation loop: special operations and normal operations, each in input order. */
  method SeparateOperations(operations: seq<Operation>) returns (special: seq<Operation>, normal: seq<Operation>)
    ensures special == SpecialOps(operations) && normal == NormalOps(operations)
  {
    special := [];
    normal := [];
    var i := 0;
    while i < |operations|
      invariant 0 <= i <= |operations|
      invariant special == SpecialOps(operations[..i]) && normal == NormalOps(operations[..i])
    {
      assert operations[..i + 1][..i] == operations[..i];
      if IsSpecial(operations[i]) {
        special := special + [operations[i]];
      } else {
        normal := normal + [operations[i]];
      }
      i := i + 1;
    }
    assert operations[..|operations|] == operations;
  }

  /** The placement loops: special operations down column 0, then normal operations row by
      row, seven to a row. */
  method FillOperationsMatrix(generated: seq<seq<Operation>>, special: seq<Operation>, normal: seq<Operation>)
    returns (matrix: seq<seq<Operation>>)
    requires MatrixShape(generated, |special|, |normal|)
    ensures matrix == Singletons(special) + Chunks(normal)
  {
    matrix := generated;
    var row := 0;
    while row < |special|
      invariant 0 <= row <= |special|
      invariant MatrixShape(matrix, |special|, |normal|)
      invariant forall r :: 0 <= r < row ==> matrix[r] == [special[r]]
      invariant forall r :: row <= r < |matrix| ==> matrix[r] == generated[r]
    {
      matrix := matrix[row := [special[row]]];
      row := row + 1;
    }
    matrix := FillNormalRows(matrix, special, normal);
    FilledMatrix(matrix, special, normal);
  }

  /** The second loop: the normal operations fill the rows after the special ones, seven to
      a row, left to right. */
  method FillNormalRows(generated: seq<seq<Operation>>, special: seq<Operation>, normal: seq<Operation>)
    returns (matrix: seq<seq<Operation>>)
    requires MatrixShape(generated, |special|, |normal|)
    ensures MatrixShape(matrix, |special|, |normal|)
    ensures forall r :: 0 <= r < |special| ==> matrix[r] == generated[r]
    ensures forall r, c :: |special| <= r < |matrix| && 0 <= c < |matrix[r]| ==>
      matrix[r][c] == normal[7 * (r - |special|) + c]
  {
    matrix := generated;
    var row := |special|;
    var column := 0;
    var j := 0;
    while j < |normal|
      invariant 0 <= j <= |normal| && 0 <= column < 7 && |special| <= row
      invariant j == 7 * (row - |special|) + column
      invariant MatrixShape(matrix, |special|, |normal|)
      invariant forall r :: 0 <= r < |special| ==> matrix[r] == generated[r]
      invariant forall r, c :: |special| <= r < |matrix| && 0 <= c < |matrix[r]| && 7 * (r - |special|) + c < j ==>
        matrix[r][c] == normal[7 * (r - |special|) + c]
    {
      RowCountBound(row - |special|, |normal|);
      matrix := matrix[row := matrix[row][column := normal[j]]];
      column := column + 1;
      if column >= 7 {
        row := row + 1;
        column := 0;
      }
      j := j + 1;
    }
  }

  // ---------------------------------------------------------------------------------------
  // Plugin configurations.

  /** The JWT plugin's configuration: the token is read from the configured header when header
      auth is on, else from Authorization when the authentication is enabled, and from the query
      parameter exactly when query auth is on. */
  function JwtConfigFor(authentication: AuthConfiguration): (config: PluginConfig)
    ensures config.JwtConfig? && !config.runOnPreflight
    ensures config.keyClaimName == "client_id" && config.claimsToVerify == ["exp"]
    ensures |config.headerNames| <= 1
    ensures config.headerNames != [] <==> authentication.headerEnabled || authentication.enabled
    ensures authentication.headerEnabled ==> config.headerNames == [authentication.headerName]
    ensures !authentication.headerEnabled && authentication.enabled ==> config.headerNames == ["Authorization"]
    ensures config.uriParamNames == [authentication.queryParamName] <==> authentication.queryParamEnable
    ensures !authentication.queryParamEnable ==> config.uriParamNames == []
  {
    var headerNames :=
      if authentication.headerEnabled then [authentication.headerName]
      else if authentication.enabled then ["Authorization"]
      else [];
    var queryParamNames := if authentication.queryParamEnable then [authentication.queryParamName] else [];
    JwtConfig(false, "client_id", ["exp"], headerNames, queryParamNames)
  }

  /** The API-key plugin's configuration: the non-empty header name, then the non-empty query
      parameter name. */
  function KeyAuthConfigFor(authentication: AuthConfiguration): (config: PluginConfig)
    ensures config.KeyAuthConfig? && !config.runOnPreflight
    ensures config.keyInHeader == authentication.headerEnabled && config.keyInQuery == authentication.queryParamEnable
    ensures "" !in config.keyNames && |config.keyNames| <= 2
    ensures forall n :: n in config.keyNames <==> n != "" && (n == authentication.headerName || n == authentication.queryParamName)
    ensures authentication.headerName != "" && authentication.queryParamName != "" ==>
      config.keyNames == [authentication.headerName, authentication.queryParamName]
  {
    var keyNames := (if authentication.headerName != "" then [authentication.headerName] else [])
      + (if authentication.queryParamName != "" then [authentication.queryParamName] else []);
    KeyAuthConfig(false, keyNames, authentication.headerEnabled, authentication.queryParamEnable)
  }

  // ---------------------------------------------------------------------------------------
  // Consumers.

  /** A consumer for an application in an environment: always labelled with the application's
      UUID, labelled with the environment exactly when one is given. */
  function CreateConsumer(applicationUUID: string, environment: string, naming: Naming): (c: Consumer)
    ensures c.kind == "KongConsumer" && c.apiVersion == "configuration.konghq.com/v1"
    ensures c.name == naming.consumerName(applicationUUID, environment)
    ensures c.username == naming.sha1(applicationUUID + environment)
    ensures c.annotations == map["kubernetes.io/ingress.class" := IngressClassName]
    ensures AppUuidField in c.labels && c.labels[AppUuidField] == applicationUUID
    ensures ApiEnvironmentField in c.labels <==> environment != ""
    ensures ApiEnvironmentField in c.labels ==> c.labels[ApiEnvironmentField] == environment
    ensures c.labels.Keys <= {AppUuidField, ApiEnvironmentField}
  {
    var labels := map[AppUuidField := applicationUUID];
    Consumer("KongConsumer", "configuration.konghq.com/v1", naming.consumerName(applicationUUID, environment),
             map["kubernetes.io/ingress.class" := IngressClassName],
             if environment != "" then labels[ApiEnvironmentField := environment] else labels,
             naming.sha1(applicationUUID + environment))
  }

  // ---------------------------------------------------------------------------------------
  // Label and hostname stamping.

  /** The route labels after stamping organization hash, API UUID and revision. */
  function StampedLabels(labels: map<string, string>, organizationHash: string, apiUUID: string, revisionID: string)
    : (r: map<string, string>)
    ensures r.Keys == labels.Keys + {OrganizationField, ApiUuidField, RevisionField}
    ensures r[OrganizationField] == organizationHash && r[ApiUuidField] == apiUUID && r[RevisionField] == revisionID
    ensures forall k :: k in labels && k !in {OrganizationField, ApiUuidField, RevisionField} ==> r[k] == labels[k]
  {
    labels[OrganizationField := organizationHash][ApiUuidField := apiUUID][RevisionField := revisionID]
  }

  /** The labels of a service or plugin after stamping: exactly the three stamped keys. */
  function FreshLabels(organizationHash: string, apiUUID: string, revisionID: string): (r: map<string, string>)
    ensures r.Keys == {OrganizationField, ApiUuidField, RevisionField}
    ensures r[OrganizationField] == organizationHash && r[ApiUuidField] == apiUUID && r[RevisionField] == revisionID
  {
    map[OrganizationField := organizationHash, ApiUuidField := apiUUID, RevisionField := revisionID]
  }

  /** A route's hostnames after visiting the environments: production routes take the last
      environment's vhost, sandbox routes its "sandbox." vhost, and any other route keeps its own. */
  function RouteHostnames(labels: map<string, string>, environments: seq<Environment>, hostnames: seq<string>)
    : (r: seq<string>)
    ensures environments == [] ==> r == hostnames
    ensures environments != [] && Lookup(labels, ApiEnvironmentField) == Some(ProductionType) ==>
      r == [environments[|environments| - 1].vhost]
    ensures environments != [] && Lookup(labels, ApiEnvironmentField) == Some(SandboxType) ==>
      r == ["sandbox." + environments[|environments| - 1].vhost]
    ensures Lookup(labels, ApiEnvironmentField) !in {Some(ProductionType), Some(SandboxType)} ==> r == hostnames
  {
    if environments == [] then hostnames
    else
      var vhost := environments[|environments| - 1].vhost;
      var environment := Lookup(labels, ApiEnvironmentField).GetOr("");
      if environment == ProductionType then [vhost]
      else if environment == SandboxType then ["sandbox." + vhost]
      else RouteHostnames(labels, environments[..|environments| - 1], hostnames)
  }

  /** Stamping twice is stamping once, so a route reachable under two keys ends up as if
      visited once; stamping leaves the environment label, and so the hostnames, alone. */
  lemma StampingIsIdempotent(labels: map<string, string>, environments: seq<Environment>, hostnames: seq<string>,
                             organizationHash: string, apiUUID: string, revisionID: string)
    ensures var l := StampedLabels(labels, organizationHash, apiUUID, revisionID);
      && StampedLabels(l, organizationHash, apiUUID, revisionID) == l
      && RouteHostnames(l, environments, hostnames) == RouteHostnames(labels, environments, hostnames)
      && RouteHostnames(labels, environments, RouteHostnames(labels, environments, hostnames)) ==
           RouteHostnames(labels, environments, hostnames)
  {
    var l := StampedLabels(labels, organizationHash, apiUUID, revisionID);
    assert Lookup(l, ApiEnvironmentField) == Lookup(labels, ApiEnvironmentField);
  }

  // ---------------------------------------------------------------------------------------
  // The generated resources.

  class HttpRoute {
    var name: string
    var labels: map<string, string>
    var annotations: map<string, string>
    var hostnames: seq<string>
    var rules: seq<RouteRule>

    constructor(name: string, labels: map<string, string>, annotations: map<string, string>,
                hostnames: seq<string>, rules: seq<RouteRule>)
      ensures this.name == name && this.labels == labels && this.annotations == annotations
      ensures this.hostnames == hostnames && this.rules == rules
    {
      this.name := name;
      this.labels := labels;
      this.annotations := annotations;
      this.hostnames := hostnames;
      this.rules := rules;
    }

    /** Discards the annotations and sets each given key to its value followed by a comma. */
    method UpdateAnnotations(given: map<string, string>)
      modifies this
      ensures annotations == map k | k in given :: given[k] + ","
      ensures name == old(name) && labels == old(labels) && hostnames == old(hostnames) && rules == old(rules)
    {
      annotations := map[];
      var remaining := given.Keys;
      while remaining != {}
        invariant remaining <= given.Keys
        invariant annotations.Keys == given.Keys - remaining
        invariant forall k :: k in annotations ==> annotations[k] == given[k] + ","
        invariant name == old(name) && labels == old(labels) && hostnames == old(hostnames) && rules == old(rules)
        decreases remaining
      {
        var key :| key in remaining;
        annotations := annotations[key := given[key] + "," + Lookup(annotations, key).GetOr("")];
        remaining := remaining - {key};
      }
      assert remaining == {};
    }

    /** Stamps organization hash, API UUID and revision onto the labels, then visits the
        environments, pointing a production or sandbox route at each vhost in turn. */
    method Stamp(environments: seq<Environment>, organizationHash: string, apiUUID: string, revisionID: string)
      modifies this
      ensures labels == StampedLabels(old(labels), organizationHash, apiUUID, revisionID)
      ensures hostnames == RouteHostnames(old(labels), environments, old(hostnames))
      ensures name == old(name) && annotations == old(annotations) && rules == old(rules)
    {
      labels := labels[OrganizationField := organizationHash];
      labels := labels[ApiUuidField := apiUUID];
      labels := labels[RevisionField := revisionID];
      var i := 0;
      while i < |environments|
        invariant 0 <= i <= |environments|
        invariant labels == StampedLabels(old(labels), organizationHash, apiUUID, revisionID)
        invariant hostnames == RouteHostnames(labels, environments[..i], old(hostnames))
        invariant name == old(name) && annotations == old(annotations) && rules == old(rules)
      {
        var vhost := environments[i].vhost;
        var environment := Lookup(labels, ApiEnvironmentField).GetOr("");
        if environment == ProductionType {
          hostnames := [vhost];
        }
        if environment == SandboxType {
          hostnames := ["sandbox." + vhost];
        }
        assert environments[..i + 1][..i] == environments[..i];
        i := i + 1;
      }
      assert environments[..|environments|] == environments;
      StampingIsIdempotent(old(labels), environments, old(hostnames), organizationHash, apiUUID, revisionID);
    }
  }




  class Service {
    var name: string
    var labels: map<string, string>

    constructor(name: string, labels: map<string, string>)
      ensures this.name == name && this.labels == labels
    {
      this.name := name;
      this.labels := labels;
    }
  }

  class KongPlugin {
    var name: string
    var pluginName: string
    var disabled: bool
    var config: PluginConfig
    var labels: map<string, string>

    /** A plugin named from the operation, target reference and plugin name; disabled exactly
        when not enabled, and without labels. */
    constructor(operation: Option<Operation>, pluginName: string, targetRef: string, config: PluginConfig,
                enabled: bool, naming: Naming)
      ensures name == naming.pluginCRName(operation, targetRef, pluginName)
      ensures this.pluginName == pluginName && this.config == config
      ensures disabled == !enabled && labels == map[]
    {
      name := naming.pluginCRName(operation, targetRef, pluginName);
      this.pluginName := pluginName;
      this.config := config;
      disabled := !enabled;
      labels := map[];
    }
  }

  /** Every match of the rule made an OPTIONS match, nothing else changed. */
  ghost predicate OptionsRule(rule: RouteRule, original: RouteRule) {
    && rule.backendRefs == original.backendRefs
    && |rule.matches| == |original.matches|
    && forall j :: 0 <= j < |rule.matches| ==>
         rule.matches[j] == original.matches[j].(httpMethod := Some("OPTIONS"))
  }

  /** Every rule made an OPTIONS rule. */
  ghost predicate OptionsRules(rules: seq<RouteRule>, original: seq<RouteRule>) {
    && |rules| == |original|
    && forall i :: 0 <= i < |rules| ==> OptionsRule(rules[i], original[i])
  }

  /** The inner loop: sets method OPTIONS on each match of one rule, in order. */
  method MarkOptionsMatches(rule: RouteRule) returns (marked: RouteRule)
    ensures OptionsRule(marked, rule)
  {
    marked := rule;
    var j := 0;
    while j < |marked.matches|
      invariant 0 <= j <= |marked.matches| == |rule.matches|
      invariant marked.backendRefs == rule.backendRefs
      invariant forall m :: 0 <= m < j ==> marked.matches[m] == rule.matches[m].(httpMethod := Some("OPTIONS"))
      invariant forall m :: j <= m < |marked.matches| ==> marked.matches[m] == rule.matches[m]
    {
      marked := marked.(matches := marked.matches[j := marked.matches[j].(httpMethod := Some("OPTIONS"))]);
      j := j + 1;
    }
  }

  /** The outer loop: marks the matches of each rule in turn. */
  method MarkOptionsRules(rules: seq<RouteRule>) returns (marked: seq<RouteRule>)
    ensures OptionsRules(marked, rules)
  {
    marked := rules;
    var i := 0;
    while i < |marked|
      invariant 0 <= i <= |marked| == |rules|
      invariant forall k :: 0 <= k < i ==> OptionsRule(marked[k], rules[k])
      invariant forall k :: i <= k < |marked| ==> marked[k] == rules[k]
    {
      var rule := MarkOptionsMatches(marked[i]);
      marked := marked[i := rule];
      i := i + 1;
    }
  }

  /** The OPTIONS route of a route: a copy named "<name>-options", labelled as an options route,
      annotated only with strip-path, whose every match has method OPTIONS. The route itself is
      left as it was. */
  method PrepareOptionsHttpRoute(route: HttpRoute) returns (options: HttpRoute)
    ensures fresh(options)
    ensures options.name == route.name + "-options"
    ensures options.labels == route.labels[RouteTypeLabel := "options"]
    ensures options.annotations == map[StripPathAnnotation := "true,"]
    ensures options.hostnames == route.hostnames
    ensures OptionsRules(options.rules, route.rules)
  {
    options := new HttpRoute(route.name, route.labels, route.annotations, route.hostnames, route.rules);
    options.name := options.name + "-options";
    options.labels := options.labels[RouteTypeLabel := "options"];
    options.UpdateAnnotations(map[StripPathAnnotation := "true"]);
    assert options.annotations.Keys == {StripPathAnnotation};
    assert options.annotations[StripPathAnnotation] == "true,";
    assert options.annotations == map[StripPathAnnotation := "true,"];
    options.rules := MarkOptionsRules(options.rules);
  }

  class K8sArtifacts {
    var apiName: string
    var apiUUID: string
    var httpRoutes: map<string, HttpRoute>
    var services: map<string, Service>
    var kongPlugins: map<string, KongPlugin>

    constructor(apiName: string, apiUUID: string)
      ensures this.apiName == apiName && this.apiUUID == apiUUID
      ensures httpRoutes == map[] && services == map[] && kongPlugins == map[]
    {
      this.apiName := apiName;
      this.apiUUID := apiUUID;
      httpRoutes := map[];
      services := map[];
      kongPlugins := map[];
    }

    /** Builds the JWT plugin for an authentication, targeted at "<api UUID>-<targetRef>", and
        stores it under its name. */
    method CreateAndAddJwtPlugin(operation: Option<Operation>, targetRef: string, authentication: AuthConfiguration,
                                 naming: Naming)
      returns (plugin: KongPlugin)
      modifies this
      ensures fresh(plugin)
      ensures plugin.name == naming.pluginCRName(operation, apiUUID + "-" + targetRef, JwtAuthPluginName)
      ensures plugin.pluginName == JwtAuthPluginName && plugin.config == JwtConfigFor(authentication)
      ensures plugin.disabled == !authentication.enabled
      ensures kongPlugins == old(kongPlugins)[plugin.name := plugin]
      ensures apiName == old(apiName) && apiUUID == old(apiUUID)
      ensures httpRoutes == old(httpRoutes) && services == old(services)
    {
      var config := JwtConfigFor(authentication);
      plugin := new KongPlugin(operation, JwtAuthPluginName, apiUUID + "-" + targetRef, config,
                               authentication.enabled, naming);
      kongPlugins := kongPlugins[plugin.name := plugin];
    }

    /** Builds the API-key plugin for an authentication, targeted at "<api UUID>-<targetRef>",
        and stores it under its name. */
    method CreateAndAddApiKeyPlugin(operation: Option<Operation>, targetRef: string,
                                    authentication: AuthConfiguration, naming: Naming)
      returns (plugin: KongPlugin)
      modifies this
      ensures fresh(plugin)
      ensures plugin.name == naming.pluginCRName(operation, apiUUID + "-" + targetRef, KeyAuthPluginName)
      ensures plugin.pluginName == KeyAuthPluginName && plugin.config == KeyAuthConfigFor(authentication)
      ensures plugin.disabled == !authentication.enabled
      ensures kongPlugins == old(kongPlugins)[plugin.name := plugin]
      ensures apiName == old(apiName) && apiUUID == old(apiUUID)
      ensures httpRoutes == old(httpRoutes) && services == old(services)
    {
      var config := KeyAuthConfigFor(authentication);
      plugin := new KongPlugin(operation, KeyAuthPluginName, apiUUID + "-" + targetRef, config,
                               authentication.enabled, naming);
      kongPlugins := kongPlugins[plugin.name := plugin];
    }

    /** Stamps the organization hash, API UUID and revision onto every route, service and
        plugin, and points each production or sandbox route at the last environment's vhost.
        Services and plugins lose any other label; routes keep theirs. */
    method UpdateCRS(environments: seq<Environment>, organizationID: string, apiUUID: string, revisionID: string,
                     naming: Naming)
      modifies httpRoutes.Values, services.Values, kongPlugins.Values
      ensures forall r :: r in httpRoutes.Values ==>
        && r.labels == StampedLabels(old(r.labels), naming.sha1(organizationID), apiUUID, revisionID)
        && r.hostnames == RouteHostnames(old(r.labels), environments, old(r.hostnames))
        && r.name == old(r.name) && r.annotations == old(r.annotations) && r.rules == old(r.rules)
      ensures forall s :: s in services.Values ==>
        s.labels == FreshLabels(naming.sha1(organizationID), apiUUID, revisionID) && s.name == old(s.name)
      ensures forall p :: p in kongPlugins.Values ==>
        && p.labels == FreshLabels(naming.sha1(organizationID), apiUUID, revisionID)
        && p.name == old(p.name) && p.pluginName == old(p.pluginName)
        && p.disabled == old(p.disabled) && p.config == old(p.config)
    {
      var organizationHash := naming.sha1(organizationID);
      StampRoutes(environments, organizationHash, apiUUID, revisionID);
      StampServices(organizationHash, apiUUID, revisionID);
      StampPlugins(organizationHash, apiUUID, revisionID);
    }

    method StampRoutes(environments: seq<Environment>, organizationHash: string, apiUUID: string, revisionID: string)
      modifies httpRoutes.Values
      ensures forall r :: r in httpRoutes.Values ==>
        && r.labels == StampedLabels(old(r.labels), organizationHash, apiUUID, revisionID)
        && r.hostnames == RouteHostnames(old(r.labels), environments, old(r.hostnames))
        && r.name == old(r.name) && r.annotations == old(r.annotations) && r.rules == old(r.rules)
    {
      var remaining := httpRoutes.Keys;
      ghost var done: set<HttpRoute> := {};
      while remaining != {}
        invariant remaining <= httpRoutes.Keys
        invariant forall k :: k in httpRoutes && k !in remaining ==> httpRoutes[k] in done
        invariant forall r :: r in httpRoutes.Values ==>
          && r.name == old(r.name) && r.annotations == old(r.annotations) && r.rules == old(r.rules)
          && (r in done ==>
                && r.labels == StampedLabels(old(r.labels), organizationHash, apiUUID, revisionID)
                && r.hostnames == RouteHostnames(old(r.labels), environments, old(r.hostnames)))
          && (r !in done ==> r.labels == old(r.labels) && r.hostnames == old(r.hostnames))
        decreases remaining
      {
        var key :| key in remaining;
        var route := httpRoutes[key];
        ghost var hostnames0 := route.hostnames;
        route.Stamp(environments, organizationHash, apiUUID, revisionID);
        if route in done {
          StampingIsIdempotent(old(route.labels), environments, old(route.hostnames), organizationHash, apiUUID, revisionID);
          StampingIsIdempotent(old(route.labels), environments, hostnames0, organizationHash, apiUUID, revisionID);
        }
        done := done + {route};
        remaining := remaining - {key};
      }
      forall r | r in httpRoutes.Values
        ensures r in done
      {
        var k :| k in httpRoutes && httpRoutes[k] == r;
      }
    }

    method StampServices(organizationHash: string, apiUUID: string, revisionID: string)
      modifies services.Values
      ensures forall s :: s in services.Values ==>
        s.labels == FreshLabels(organizationHash, apiUUID, revisionID) && s.name == old(s.name)
      ensures unchanged(httpRoutes.Values)
    {
      var remaining := services.Keys;
      while remaining != {}
        invariant remaining <= services.Keys
        invariant forall s :: s in services.Values ==> s.name == old(s.name)
        invariant forall k :: k in services && k !in remaining ==>
          services[k].labels == FreshLabels(organizationHash, apiUUID, revisionID)
        decreases remaining
      {
        var key :| key in remaining;
        var service := services[key];
        var labels: map<string, string> := map[];
        labels := labels[OrganizationField := organizationHash];
        labels := labels[ApiUuidField := apiUUID];
        labels := labels[RevisionField := revisionID];
        service.labels := labels;
        remaining := remaining - {key};
      }
    }

    method StampPlugins(organizationHash: string, apiUUID: string, revisionID: string)
      modifies kongPlugins.Values
      ensures unchanged(httpRoutes.Values, services.Values)
      ensures forall p :: p in kongPlugins.Values ==>
        && p.labels == FreshLabels(organizationHash, apiUUID, revisionID)
        && p.name == old(p.name) && p.pluginName == old(p.pluginName)
        && p.disabled == old(p.disabled) && p.config == old(p.config)
    {
      var remaining := kongPlugins.Keys;
      while remaining != {}
        invariant remaining <= kongPlugins.Keys
        invariant forall p :: p in kongPlugins.Values ==>
          && p.name == old(p.name) && p.pluginName == old(p.pluginName)
          && p.disabled == old(p.disabled) && p.config == old(p.config)
        invariant forall k :: k in kongPlugins && k !in remaining ==>
          kongPlugins[k].labels == FreshLabels(organizationHash, apiUUID, revisionID)
        decreases remaining
      {
        var key :| key in remaining;
        var plugin := kongPlugins[key];
        var labels: map<string, string> := map[];
        labels := labels[OrganizationField := organizationHash];
        labels := labels[ApiUuidField := apiUUID];
        labels := labels[RevisionField := revisionID];
        plugin.labels := labels;
        remaining := remaining - {key};
      }
    }
  }
}
