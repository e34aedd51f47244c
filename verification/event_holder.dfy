/**
 * The management server's in-memory application store: applications keyed by UUID,
 * application mappings (application-to-subscription links) keyed by UUID, and application key
 * mappings keyed by a unique id derived from five of their fields. Reads of a missing key give
 * the record's zero value; ranging over a map visits its keys in an unspecified order, which the
 * methods below model by choosing the next key with `:|`.
 */
module ManagementServer {

  datatype Application = Application(uuid: string, name: string, owner: string, organization: string,
                                     attributes: map<string, string>, timeStamp: int)

  datatype ApplicationMapping = ApplicationMapping(uuid: string, applicationRef: string,
                                                   subscriptionRef: string, organization: string)

  datatype ApplicationKeyMapping = ApplicationKeyMapping(applicationUUID: string, securityScheme: string,
                                                         applicationIdentifier: string, keyType: string,
                                                         envID: string, organization: string)

  datatype SecurityScheme = SecurityScheme(securityScheme: string, keyType: string, envID: string,
                                           applicationIdentifier: string)

  datatype ResolvedApplication = ResolvedApplication(uuid: string, name: string, owner: string,
                                                     organization: string, attributes: map<string, string>,
                                                     timeStamp: int, securitySchemes: seq<SecurityScheme>)

  const ZeroApplication := Application("", "", "", "", map[], 0)
  const ZeroApplicationMapping := ApplicationMapping("", "", "", "")
  const ZeroKeyMapping := ApplicationKeyMapping("", "", "", "", "", "")

  /** The security scheme a key mapping contributes to its application. */
  function SchemeOf(keyMapping: ApplicationKeyMapping): SecurityScheme {
    SecurityScheme(keyMapping.securityScheme, keyMapping.keyType, keyMapping.envID, keyMapping.applicationIdentifier)
  }

  function Contribution(keyMappings: map<string, ApplicationKeyMapping>, k: string, uuid: string): multiset<SecurityScheme>
    requires k in keyMappings
  {
    if keyMappings[k].applicationUUID == uuid then multiset{SchemeOf(keyMappings[k])} else multiset{}
  }

  /** The schemes the key mappings stored under `keys` contribute to application `uuid`. */
  ghost function Schemes(keyMappings: map<string, ApplicationKeyMapping>, keys: set<string>, uuid: string)
    : multiset<SecurityScheme>
    requires keys <= keyMappings.Keys
    decreases keys
  {
    if keys == {} then multiset{}
    else
      var k :| k in keys;
      Schemes(keyMappings, keys - {k}, uuid) + Contribution(keyMappings, k, uuid)
  }

  /** The keys under `keys` whose key mapping belongs to application `uuid`. */
  ghost function MatchingKeys(keyMappings: map<string, ApplicationKeyMapping>, keys: set<string>, uuid: string)
    : set<string>
    requires keys <= keyMappings.Keys
  {
    set k | k in keys && keyMappings[k].applicationUUID == uuid
  }

  /** The schemes do not depend on the order in which the keys are visited: any key can be
      taken out first. */
  lemma {:induction false} SchemesAnyOrder(keyMappings: map<string, ApplicationKeyMapping>, keys: set<string>,
                                           uuid: string, k: string)
    requires keys <= keyMappings.Keys && k in keys
    ensures Schemes(keyMappings, keys, uuid) == Schemes(keyMappings, keys - {k}, uuid) + Contribution(keyMappings, k, uuid)
    decreases keys
  {
    var j :| j in keys && Schemes(keyMappings, keys, uuid) ==
      Schemes(keyMappings, keys - {j}, uuid) + Contribution(keyMappings, j, uuid);
    if j != k {
      SchemesAnyOrder(keyMappings, keys - {j}, uuid, k);
      SchemesAnyOrder(keyMappings, keys - {k}, uuid, j);
      assert keys - {j} - {k} == keys - {k} - {j};
    }
  }

  /** Exactly one scheme per key mapping of the application. */
  lemma {:induction false} SchemesCount(keyMappings: map<string, ApplicationKeyMapping>, keys: set<string>, uuid: string)
    requires keys <= keyMappings.Keys
    ensures |Schemes(keyMappings, keys, uuid)| == |MatchingKeys(keyMappings, keys, uuid)|
    decreases keys
  {
    if keys != {} {
      var k :| k in keys;
      SchemesAnyOrder(keyMappings, keys, uuid, k);
      SchemesCount(keyMappings, keys - {k}, uuid);
      var rest := MatchingKeys(keyMappings, keys - {k}, uuid);
      if keyMappings[k].applicationUUID == uuid {
        assert MatchingKeys(keyMappings, keys, uuid) == rest + {k};
      } else {
        assert MatchingKeys(keyMappings, keys, uuid) == rest;
      }
    }
  }

  /** A scheme is listed exactly when some key mapping of the application yields it. */
  lemma {:induction false} SchemesMembers(keyMappings: map<string, ApplicationKeyMapping>, keys: set<string>,
                                          uuid: string, s: SecurityScheme)
    requires keys <= keyMappings.Keys
    ensures s in Schemes(keyMappings, keys, uuid) <==>
      exists k :: k in keys && keyMappings[k].applicationUUID == uuid && SchemeOf(keyMappings[k]) == s
    decreases keys
  {
    if keys != {} {
      var k :| k in keys;
      SchemesAnyOrder(keyMappings, keys, uuid, k);
      SchemesMembers(keyMappings, keys - {k}, uuid, s);
      if s in Schemes(keyMappings, keys, uuid) && s !in Schemes(keyMappings, keys - {k}, uuid) {
        assert keyMappings[k].applicationUUID == uuid && SchemeOf(keyMappings[k]) == s;
      }
    }
  }

  /** r resolves application a against the key mappings: the application's own fields are copied
      and its schemes are those of its key mappings, in some order. */
  ghost predicate Marshalled(r: ResolvedApplication, a: Application, keyMappings: map<string, ApplicationKeyMapping>) {
    && r.uuid == a.uuid && r.name == a.name && r.owner == a.owner && r.organization == a.organization
    && r.attributes == a.attributes && r.timeStamp == a.timeStamp
    && multiset(r.securitySchemes) == Schemes(keyMappings, keyMappings.Keys, a.uuid)
  }

  /** `order` lists every key of m once. */
  ghost predicate Enumerates<V>(order: seq<string>, m: map<string, V>) {
    && (forall i, j :: 0 <= i < j < |order| ==> order[i] != order[j])
    && (forall k :: k in order <==> k in m)
  }

  /** The as-written sweep of DeleteAllApplicationMappingsByApplicationsUUID: it compares each
      mapping's own UUID with the argument and deletes the entry keyed by that UUID. */
  function MappingsAfterUuidSweep(m: map<string, ApplicationMapping>, uuid: string): (r: map<string, ApplicationMapping>)
    ensures forall k :: k != uuid ==> (k in r <==> k in m)
    ensures forall k :: k in r ==> k in m && r[k] == m[k]
    ensures uuid in r <==> uuid in m && forall j :: j in m ==> m[j].uuid != uuid
  {
    if exists j :: j in m && m[j].uuid == uuid then m - {uuid} else m
  }

  /** The mappings that remain once every mapping of application `applicationRef` is removed. */
  function MappingsWithoutApplication(m: map<string, ApplicationMapping>, applicationRef: string)
    : (r: map<string, ApplicationMapping>)
    ensures forall k :: k in r <==> k in m && m[k].applicationRef != applicationRef
    ensures forall k :: k in r ==> r[k] == m[k]
  {
    map k | k in m && m[k].applicationRef != applicationRef :: m[k]
  }

  /** A mapping stored under its own UUID "m1" for application "app1": sweeping by the
      application's UUID removes nothing, while the application's mapping should go. */
  lemma UuidSweepMissesApplicationMappings()
    ensures var m := map["m1" := ApplicationMapping("m1", "app1", "sub1", "org1")];
      && MappingsAfterUuidSweep(m, "app1") == m
      && MappingsWithoutApplication(m, "app1") == map[]
  {
    var m := map["m1" := ApplicationMapping("m1", "app1", "sub1", "org1")];
    assert MappingsWithoutApplication(m, "app1").Keys == {};
  }

  /** On a map where every mapping is stored under its own UUID, the as-written sweep is a
      plain delete of that key. */
  lemma UuidSweepIsDelete(m: map<string, ApplicationMapping>, uuid: string)
    requires forall k :: k in m ==> m[k].uuid == k
    ensures MappingsAfterUuidSweep(m, uuid) == m - {uuid}
  {
  }

  class EventHolder {
    var applications: map<string, Application>
    var applicationMappings: map<string, ApplicationMapping>
    var keyMappings: map<string, ApplicationKeyMapping>
    /** The unique id of a key mapping, from its application UUID, key type, security scheme,
        environment id and organization. */
    const keyMappingId: (string, string, string, string, string) -> string

    constructor(keyMappingId: (string, string, string, string, string) -> string)
      ensures applications == map[] && applicationMappings == map[] && keyMappings == map[]
      ensures this.keyMappingId == keyMappingId
    {
      applications := map[];
      applicationMappings := map[];
      keyMappings := map[];
      this.keyMappingId := keyMappingId;
    }

    function KeyOf(keyMapping: ApplicationKeyMapping): string {
      keyMappingId(keyMapping.applicationUUID, keyMapping.keyType, keyMapping.securityScheme,
                   keyMapping.envID, keyMapping.organization)
    }

    // ----- Plain reads: the stored value, or the zero value for a missing key.

    function GetApplication(uuid: string): (a: Application)
      reads this
      ensures uuid in applications ==> a == applications[uuid]
      ensures uuid !in applications ==> a == ZeroApplication
    {
      if uuid in applications then applications[uuid] else ZeroApplication
    }

    function GetApplicationMapping(uuid: string): (m: ApplicationMapping)
      reads this
      ensures uuid in applicationMappings ==> m == applicationMappings[uuid]
      ensures uuid !in applicationMappings ==> m == ZeroApplicationMapping
    {
      if uuid in applicationMappings then applicationMappings[uuid] else ZeroApplicationMapping
    }

    function GetApplicationKeyMapping(uuid: string): (m: ApplicationKeyMapping)
      reads this
      ensures uuid in keyMappings ==> m == keyMappings[uuid]
      ensures uuid !in keyMappings ==> m == ZeroKeyMapping
    {
      if uuid in keyMappings then keyMappings[uuid] else ZeroKeyMapping
    }

    // ----- Adds: store under the record's key; a later get returns the record.

    method AddApplication(application: Application)
      modifies this
      ensures applications == old(applications)[application.uuid := application]
      ensures applicationMappings == old(applicationMappings) && keyMappings == old(keyMappings)
      ensures GetApplication(application.uuid) == application
    {
      applications := applications[application.uuid := application];
    }

    method AddApplicationMapping(mapping: ApplicationMapping)
      modifies this
      ensures applicationMappings == old(applicationMappings)[mapping.uuid := mapping]
      ensures applications == old(applications) && keyMappings == old(keyMappings)
      ensures GetApplicationMapping(mapping.uuid) == mapping
    {
      applicationMappings := applicationMappings[mapping.uuid := mapping];
    }

    method AddApplicationKeyMapping(keyMapping: ApplicationKeyMapping)
      modifies this
      ensures keyMappings == old(keyMappings)[KeyOf(keyMapping) := keyMapping]
      ensures applications == old(applications) && applicationMappings == old(applicationMappings)
      ensures GetApplicationKeyMapping(KeyOf(keyMapping)) == keyMapping
    {
      var uuid := KeyOf(keyMapping);
      keyMappings := keyMappings[uuid := keyMapping];
    }

    // ----- Updates: set one key, every other key keeps its value.

    method UpdateApplication(uuid: string, application: Application)
      modifies this
      ensures applications == old(applications)[uuid := application]
      ensures applicationMappings == old(applicationMappings) && keyMappings == old(keyMappings)
      ensures forall k :: k != uuid ==> GetApplication(k) == old(GetApplication(k))
    {
      applications := applications[uuid := application];
    }

    method UpdateApplicationMapping(uuid: string, mapping: ApplicationMapping)
      modifies this
      ensures applicationMappings == old(applicationMappings)[uuid := mapping]
      ensures applications == old(applications) && keyMappings == old(keyMappings)
      ensures forall k :: k != uuid ==> GetApplicationMapping(k) == old(GetApplicationMapping(k))
    {
      applicationMappings := applicationMappings[uuid := mapping];
    }

    method UpdateApplicationKeyMapping(uuid: string, keyMapping: ApplicationKeyMapping)
      modifies this
      ensures keyMappings == old(keyMappings)[uuid := keyMapping]
      ensures applications == old(applications) && applicationMappings == old(applicationMappings)
      ensures forall k :: k != uuid ==> GetApplicationKeyMapping(k) == old(GetApplicationKeyMapping(k))
    {
      keyMappings := keyMappings[uuid := keyMapping];
    }

    // ----- Deletes: remove one key; a later get returns the zero value.

    method DeleteApplication(uuid: string)
      modifies this
      ensures applications == old(applications) - {uuid}
      ensures applicationMappings == old(applicationMappings) && keyMappings == old(keyMappings)
      ensures GetApplication(uuid) == ZeroApplication
    {
      applications := applications - {uuid};
    }

    method DeleteApplicationMapping(uuid: string)
      modifies this
      ensures applicationMappings == old(applicationMappings) - {uuid}
      ensures applications == old(applications) && keyMappings == old(keyMappings)
      ensures GetApplicationMapping(uuid) == ZeroApplicationMapping
    {
      applicationMappings := applicationMappings - {uuid};
    }

    method DeleteApplicationKeyMapping(uuid: string)
      modifies this
      ensures keyMappings == old(keyMappings) - {uuid}
      ensures applications == old(applications) && applicationMappings == old(applicationMappings)
      ensures GetApplicationKeyMapping(uuid) == ZeroKeyMapping
    {
      keyMappings := keyMappings - {uuid};
    }

    // ----- Bulk operations.

    method DeleteAllApplications()
      modifies this
      ensures applications == map[]
      ensures applicationMappings == old(applicationMappings) && keyMappings == old(keyMappings)
    {
      applications := map[];
    }

    method DeleteAllApplicationMappings()
      modifies this
      ensures applicationMappings == map[]
      ensures applications == old(applications) && keyMappings == old(keyMappings)
    {
      applicationMappings := map[];
    }

    method DeleteAllApplicationKeyMappings()
      modifies this
      ensures keyMappings == map[]
      ensures applications == old(applications) && applicationMappings == old(applicationMappings)
    {
      keyMappings := map[];
    }

    method AddAllApplications(replacement: map<string, Application>)
      modifies this
      ensures applications == replacement
      ensures applicationMappings == old(applicationMappings) && keyMappings == old(keyMappings)
    {
      applications := replacement;
    }

    method AddAllApplicationMappings(replacement: map<string, ApplicationMapping>)
      modifies this
      ensures applicationMappings == replacement
      ensures applications == old(applications) && keyMappings == old(keyMappings)
    {
      applicationMappings := replacement;
    }

    method AddAllApplicationKeyMappings(replacement: map<string, ApplicationKeyMapping>)
      modifies this
      ensures keyMappings == replacement
      ensures applications == old(applications) && applicationMappings == old(applicationMappings)
    {
      keyMappings := replacement;
    }

    // ----- Joins and listings.

    /** Resolves an application: copies its fields and gathers one security scheme per key
        mapping whose application UUID is the application's. */
    method MarshalApplication(application: Application) returns (r: ResolvedApplication)
      ensures Marshalled(r, application, keyMappings)
      ensures |r.securitySchemes| == |MatchingKeys(keyMappings, keyMappings.Keys, application.uuid)|
    {
      var schemes: seq<SecurityScheme> := [];
      var remaining := keyMappings.Keys;
      while remaining != {}
        invariant remaining <= keyMappings.Keys
        invariant multiset(schemes) + Schemes(keyMappings, remaining, application.uuid) ==
          Schemes(keyMappings, keyMappings.Keys, application.uuid)
        decreases remaining
      {
        var k :| k in remaining;
        SchemesAnyOrder(keyMappings, remaining, application.uuid, k);
        var keyMapping := keyMappings[k];
        if keyMapping.applicationUUID == application.uuid {
          schemes := schemes + [SecurityScheme(keyMapping.securityScheme, keyMapping.keyType, keyMapping.envID,
                                               keyMapping.applicationIdentifier)];
        }
        remaining := remaining - {k};
      }
      r := ResolvedApplication(application.uuid, application.name, application.owner, application.organization,
                               application.attributes, application.timeStamp, schemes);
      SchemesCount(keyMappings, keyMappings.Keys, application.uuid);
    }

    /** One resolved application per stored application, in map order. */
    method GetAllApplications() returns (resolved: seq<ResolvedApplication>, ghost order: seq<string>)
      ensures Enumerates(order, applications)
      ensures |resolved| == |order| == |applications|
      ensures forall i :: 0 <= i < |resolved| ==> Marshalled(resolved[i], applications[order[i]], keyMappings)
    {
      resolved := [];
      order := [];
      var remaining := applications.Keys;
      while remaining != {}
        invariant remaining <= applications.Keys
        invariant forall i, j :: 0 <= i < j < |order| ==> order[i] != order[j]
        invariant forall k :: k in order <==> k in applications && k !in remaining
        invariant |resolved| == |order|
        invariant forall i :: 0 <= i < |resolved| ==> Marshalled(resolved[i], applications[order[i]], keyMappings)
        decreases remaining
      {
        var k :| k in remaining;
        var r := MarshalApplication(applications[k]);
        resolved := resolved + [r];
        order := order + [k];
        remaining := remaining - {k};
      }
      DistinctLength(order, applications.Keys);
    }

    /** Every stored application mapping once, in map order. */
    method GetAllApplicationMappings() returns (mappings: seq<ApplicationMapping>, ghost order: seq<string>)
      ensures Enumerates(order, applicationMappings)
      ensures |mappings| == |order| == |applicationMappings|
      ensures forall i :: 0 <= i < |mappings| ==> mappings[i] == applicationMappings[order[i]]
    {
      mappings := [];
      order := [];
      var remaining := applicationMappings.Keys;
      while remaining != {}
        invariant remaining <= applicationMappings.Keys
        invariant forall i, j :: 0 <= i < j < |order| ==> order[i] != order[j]
        invariant forall k :: k in order <==> k in applicationMappings && k !in remaining
        invariant |mappings| == |order|
        invariant forall i :: 0 <= i < |mappings| ==> mappings[i] == applicationMappings[order[i]]
        decreases remaining
      {
        var k :| k in remaining;
        mappings := mappings + [applicationMappings[k]];
        order := order + [k];
        remaining := remaining - {k};
      }
      DistinctLength(order, applicationMappings.Keys);
    }

    // ----- Filtered lookups: some stored entry that satisfies the filter, else the zero value.

    method FindKeyMapping(matches: ApplicationKeyMapping -> bool) returns (found: ApplicationKeyMapping)
      ensures (exists k :: k in keyMappings && matches(keyMappings[k])) ==> found in keyMappings.Values && matches(found)
      ensures (forall k :: k in keyMappings ==> !matches(keyMappings[k])) ==> found == ZeroKeyMapping
    {
      var remaining := keyMappings.Keys;
      while remaining != {}
        invariant remaining <= keyMappings.Keys
        invariant forall k :: k in keyMappings && k !in remaining ==> !matches(keyMappings[k])
        decreases remaining
      {
        var k :| k in remaining;
        if matches(keyMappings[k]) {
          return keyMappings[k];
        }
        remaining := remaining - {k};
      }
      return ZeroKeyMapping;
    }

    method FindApplicationMapping(matches: ApplicationMapping -> bool) returns (found: ApplicationMapping)
      ensures (exists k :: k in applicationMappings && matches(applicationMappings[k])) ==>
        found in applicationMappings.Values && matches(found)
      ensures (forall k :: k in applicationMappings ==> !matches(applicationMappings[k])) ==> found == ZeroApplicationMapping
    {
      var remaining := applicationMappings.Keys;
      while remaining != {}
        invariant remaining <= applicationMappings.Keys
        invariant forall k :: k in applicationMappings && k !in remaining ==> !matches(applicationMappings[k])
        decreases remaining
      {
        var k :| k in remaining;
        if matches(applicationMappings[k]) {
          return applicationMappings[k];
        }
        remaining := remaining - {k};
      }
      return ZeroApplicationMapping;
    }

    method GetApplicationKeyMappingByApplicationUUID(uuid: string) returns (found: ApplicationKeyMapping)
      ensures (exists k :: k in keyMappings && keyMappings[k].applicationUUID == uuid) ==>
        found in keyMappings.Values && found.applicationUUID == uuid
      ensures (forall k :: k in keyMappings ==> keyMappings[k].applicationUUID != uuid) ==> found == ZeroKeyMapping
    {
      found := FindKeyMapping((m: ApplicationKeyMapping) => m.applicationUUID == uuid);
    }

    method GetApplicationKeyMappingByApplicationUUIDAndEnvID(uuid: string, envID: string)
      returns (found: ApplicationKeyMapping)
      ensures (exists k :: k in keyMappings && keyMappings[k].applicationUUID == uuid && keyMappings[k].envID == envID) ==>
        found in keyMappings.Values && found.applicationUUID == uuid && found.envID == envID
      ensures (forall k :: k in keyMappings ==> !(keyMappings[k].applicationUUID == uuid && keyMappings[k].envID == envID)) ==>
        found == ZeroKeyMapping
    {
      found := FindKeyMapping((m: ApplicationKeyMapping) => m.applicationUUID == uuid && m.envID == envID);
    }

    method GetApplicationKeyMappingByApplicationUUIDAndSecurityScheme(uuid: string, securityScheme: string)
      returns (found: ApplicationKeyMapping)
      ensures (exists k :: k in keyMappings && keyMappings[k].applicationUUID == uuid
                 && keyMappings[k].securityScheme == securityScheme) ==>
        found in keyMappings.Values && found.applicationUUID == uuid && found.securityScheme == securityScheme
      ensures (forall k :: k in keyMappings ==>
                 !(keyMappings[k].applicationUUID == uuid && keyMappings[k].securityScheme == securityScheme)) ==>
        found == ZeroKeyMapping
    {
      found := FindKeyMapping((m: ApplicationKeyMapping) => m.applicationUUID == uuid && m.securityScheme == securityScheme);
    }

    method GetApplicationKeyMappingByApplicationUUIDAndSecuritySchemeAndEnvID(uuid: string, securityScheme: string,
                                                                             envID: string)
      returns (found: ApplicationKeyMapping)
      ensures (exists k :: k in keyMappings && keyMappings[k].applicationUUID == uuid
                 && keyMappings[k].securityScheme == securityScheme && keyMappings[k].envID == envID) ==>
        && found in keyMappings.Values && found.applicationUUID == uuid
        && found.securityScheme == securityScheme && found.envID == envID
      ensures (forall k :: k in keyMappings ==>
                 !(keyMappings[k].applicationUUID == uuid && keyMappings[k].securityScheme == securityScheme
                   && keyMappings[k].envID == envID)) ==>
        found == ZeroKeyMapping
    {
      found := FindKeyMapping((m: ApplicationKeyMapping) => m.applicationUUID == uuid && m.securityScheme == securityScheme && m.envID == envID);
    }

    method GetApplicationMappingByApplicationUUID(uuid: string) returns (found: ApplicationMapping)
      ensures (exists k :: k in applicationMappings && applicationMappings[k].applicationRef == uuid) ==>
        found in applicationMappings.Values && found.applicationRef == uuid
      ensures (forall k :: k in applicationMappings ==> applicationMappings[k].applicationRef != uuid) ==>
        found == ZeroApplicationMapping
    {
      found := FindApplicationMapping((m: ApplicationMapping) => m.applicationRef == uuid);
    }

    method GetApplicationMappingByApplicationUUIDAndSubscriptionUUID(uuid: string, subscriptionUUID: string)
      returns (found: ApplicationMapping)
      ensures (exists k :: k in applicationMappings && applicationMappings[k].applicationRef == uuid
                 && applicationMappings[k].subscriptionRef == subscriptionUUID) ==>
        found in applicationMappings.Values && found.applicationRef == uuid && found.subscriptionRef == subscriptionUUID
      ensures (forall k :: k in applicationMappings ==>
                 !(applicationMappings[k].applicationRef == uuid && applicationMappings[k].subscriptionRef == subscriptionUUID)) ==>
        found == ZeroApplicationMapping
    {
      found := FindApplicationMapping((m: ApplicationMapping) => m.applicationRef == uuid && m.subscriptionRef == subscriptionUUID);
    }

    // ----- Deleting an application's mappings.

    /** As written: ranges over the mappings and, for one whose own UUID equals `uuid`, deletes
        the entry keyed by that UUID. Entries deleted before they are reached are not visited. */
    method DeleteAllApplicationMappingsByApplicationsUUID(uuid: string)
      modifies this
      ensures applicationMappings == MappingsAfterUuidSweep(old(applicationMappings), uuid)
      ensures applications == old(applications) && keyMappings == old(keyMappings)
    {
      ghost var start := applicationMappings;
      var remaining := applicationMappings.Keys;
      while remaining != {}
        invariant remaining <= start.Keys
        invariant applicationMappings ==
          if exists j :: j in start && j !in remaining && start[j].uuid == uuid then start - {uuid} else start
        invariant applications == old(applications) && keyMappings == old(keyMappings)
        decreases remaining
      {
        var k :| k in remaining;
        if k in applicationMappings && applicationMappings[k].uuid == uuid {
          applicationMappings := applicationMappings - {applicationMappings[k].uuid};
        }
        remaining := remaining - {k};
      }
    }

    /** Corrected: removes every mapping that refers to application `applicationRef`, so no lookup
        by that application finds one afterwards. */
    method DeleteAllApplicationMappingsOfApplication(applicationRef: string)
      modifies this
      ensures applicationMappings == MappingsWithoutApplication(old(applicationMappings), applicationRef)
      ensures forall k :: k in applicationMappings ==> applicationMappings[k].applicationRef != applicationRef
      ensures applications == old(applications) && keyMappings == old(keyMappings)
    {
      ghost var start := applicationMappings;
      var remaining := applicationMappings.Keys;
      while remaining != {}
        invariant remaining <= start.Keys
        invariant applicationMappings ==
          map k | k in start && (k in remaining || start[k].applicationRef != applicationRef) :: start[k]
        invariant applications == old(applications) && keyMappings == old(keyMappings)
        decreases remaining
      {
        var k :| k in remaining;
        if applicationMappings[k].applicationRef == applicationRef {
          applicationMappings := applicationMappings - {k};
        }
        remaining := remaining - {k};
      }
    }
  }

  /** A duplicate-free listing of a finite set is as long as the set. */
  lemma {:induction false} DistinctLength(order: seq<string>, keys: set<string>)
    requires forall i, j :: 0 <= i < j < |order| ==> order[i] != order[j]
    requires forall k :: k in order <==> k in keys
    ensures |order| == |keys|
    decreases |order|
  {
    if |order| > 0 {
      var last := order[|order| - 1];
      var prefix := order[..|order| - 1];
      assert forall k :: k in prefix <==> k in keys - {last} by {
        forall k ensures k in prefix <==> k in keys - {last} {
          if k in prefix {
            var i :| 0 <= i < |prefix| && prefix[i] == k;
            assert order[i] == k;
          }
          if k in keys - {last} {
            var i :| 0 <= i < |order| && order[i] == k;
            assert i < |order| - 1 && prefix[i] == k;
          }
        }
      }
      DistinctLength(prefix, keys - {last});
    } else {
      assert forall k :: k !in keys;
      assert keys == {};
    }
  }
}
