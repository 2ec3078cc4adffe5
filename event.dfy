/** Events, event contexts and common events (metadata/core/domain/event.py). An event owns a schema;
    an event derived from a common event also sees the common event's parameters up to a frozen
    version. Both kinds, and event contexts, compile into one registry document per version. */
module Events {
  import opened Common
  import opened EntityStatus
  import opened AppIdentity
  import opened Schemas
  import opened Iglu
  import Apps
  import Text

  /** An atomic parameter: a column every event table carries. */
  datatype AtomicParameter = AtomicParameter(
    name: string,
    ptype: ParameterType,
    description: Option<string>,
    isGdpr: bool)

  /** The name an event or a common event may not have: one that starts with `ctx_` or ends with
      `_context`. */
  predicate LooksLikeContext(name: string)
  {
    Text.StartsWith(name, "ctx_") || Text.EndsWith(name, "_context")
  }

  /** The name an event context must have: `ctx_` in front and `_context` at the end. */
  predicate WrappedAsContext(name: string)
  {
    Text.StartsWith(name, "ctx_") && Text.EndsWith(name, "_context")
  }

  /** The name checks side by side: no event name is a context name. */
  lemma EventAndContextNamesDisjoint(name: string)
    ensures WrappedAsContext(name) ==> LooksLikeContext(name)
    ensures !LooksLikeContext(name) ==> !WrappedAsContext(name)
  {
  }

  const CustomPrefix: string := "custom_"

  // ---------------------------------------------------------------------------------------------
  // Common events

  /** A common event: a schema shared by every app, in which each app gets its own event. */
  class CommonEvent {
    const id: Option<int>
    const schema: Schema

    ghost predicate Valid()
    {
      ValidName(schema.name) && !LooksLikeContext(schema.name)
    }

    constructor (schema: Schema)
      requires ValidName(schema.name) && !LooksLikeContext(schema.name)
      ensures id == None && this.schema == schema && Valid()
    {
      id := None;
      this.schema := schema;
    }

    /** A common event as loaded from the database, with the id it was stored under. */
    constructor Loaded(id: int, schema: Schema)
      requires ValidName(schema.name) && !LooksLikeContext(schema.name)
      ensures this.id == Some(id) && this.schema == schema && Valid()
    {
      this.id := Some(id);
      this.schema := schema;
    }

    /** `get_app_schema`: an empty schema under the app's vendor with the common event's name and
        description, and no alias. */
    method GetAppSchema(app: Apps.App) returns (s: Schema)
      requires Valid()
      ensures fresh(s) && s.id == None && s.parameters == []
      ensures s.vendor == app.EventVendor() && s.name == schema.name
      ensures s.alias == None && s.description == schema.description
    {
      s := new Schema([], app.EventVendor(), schema.name, None, schema.description);
    }
  }

  /** `CommonEvent(schema=...)`: refuses a name that looks like a context's. */
  method NewCommonEvent(schema: Schema) returns (r: Result<CommonEvent>)
    requires ValidName(schema.name)
    ensures r.Err? <==> LooksLikeContext(schema.name)
    ensures r.Err? ==> r.error == EntityError(EventNameLooksLikeContext)
    ensures r.Ok? ==> fresh(r.value) && r.value.schema == schema && r.value.id == None && r.value.Valid()
  {
    if LooksLikeContext(schema.name) {
      return Err(EntityError(EventNameLooksLikeContext));
    }
    var c := new CommonEvent(schema);
    return Ok(c);
  }

  // ---------------------------------------------------------------------------------------------
  // Registry documents of a schema

  /** `versions()`: the versions at which parameters were introduced, or `{0}` for a schema with no
      parameters, so that it still gets one document. */
  function VersionsOf(ps: seq<SchemaParameter>): (r: set<int>)
    ensures r != {}
    ensures ps == [] ==> r == {0}
    ensures ps != [] ==> forall v :: v in r <==> exists i :: 0 <= i < |ps| && ps[i].introducedAtVersion == v
  {
    if ps == [] then {0}
    else
      var r := set i | 0 <= i < |ps| :: ps[i].introducedAtVersion;
      assert ps[0].introducedAtVersion in r;
      r
  }

  /** The greatest version is among the versions, and every other is below it. */
  lemma CurrentVersionIsAVersion(ps: seq<SchemaParameter>)
    ensures CurrentVersionOf(ps) in VersionsOf(ps)
    ensures forall v :: v in VersionsOf(ps) ==> v <= CurrentVersionOf(ps)
  {
  }

  /** The least version a parameter carries, or 0 when there are none. */
  function LowestVersionOf(ps: seq<SchemaParameter>): (r: int)
    ensures ps == [] ==> r == 0
    ensures forall i :: 0 <= i < |ps| ==> r <= ps[i].introducedAtVersion
    ensures ps != [] ==> exists i :: 0 <= i < |ps| && ps[i].introducedAtVersion == r
  {
    if ps == [] then 0
    else if |ps| == 1 then ps[0].introducedAtVersion
    else
      var rest := LowestVersionOf(ps[1..]);
      assert forall i :: 1 <= i < |ps| ==> ps[i] == ps[1..][i - 1];
      if ps[0].introducedAtVersion <= rest then ps[0].introducedAtVersion
      else
        var k :| 0 <= k < |ps[1..]| && ps[1..][k].introducedAtVersion == rest;
        assert ps[k + 1].introducedAtVersion == rest;
        rest
  }

  /** The members of `s` between `lo` and `hi`, in ascending order. */
  function MembersBetween(s: set<int>, lo: int, hi: int): (r: seq<int>)
    ensures forall i, j :: 0 <= i < j < |r| ==> r[i] < r[j]
    ensures forall x :: x in r <==> x in s && lo <= x <= hi
    decreases hi - lo
  {
    if lo > hi then []
    else
      var rest := MembersBetween(s, lo + 1, hi);
      assert forall i :: 0 <= i < |rest| ==> lo < rest[i] by {
        forall i | 0 <= i < |rest| ensures lo < rest[i] {
          assert rest[i] in rest;
        }
      }
      (if lo in s then [lo] else []) + rest
  }

  /** The versions of a parameter list in ascending order, each once: the order in which the model
      lists the documents. The source iterates a Python `set` of versions; CPython yields such a set
      in ascending order because the versions are small non-negative integers, which is assumed here. */
  function Ascending(ps: seq<SchemaParameter>): (r: seq<int>)
    ensures forall i, j :: 0 <= i < j < |r| ==> r[i] < r[j]
    ensures forall x :: x in r <==> x in VersionsOf(ps)
  {
    MembersBetween(VersionsOf(ps), LowestVersionOf(ps), CurrentVersionOf(ps))
  }

  /** `to_iglu_schemas`: one document per version, holding the parameters introduced up to that
      version, under the given URL name override. */
  function DocumentsOf(view: SchemaView, overrideName: Option<string>): (r: seq<IgluSchema>)
    ensures |r| == |Ascending(view.parameters)|
    ensures forall i :: 0 <= i < |r| ==>
      r[i] == FromSchema(view, ParametersForVersion(view.parameters, Ascending(view.parameters)[i]),
                         Ascending(view.parameters)[i], overrideName)
  {
    var vs := Ascending(view.parameters);
    seq(|vs|, i requires 0 <= i < |vs| =>
      FromSchema(view, ParametersForVersion(view.parameters, vs[i]), vs[i], overrideName))
  }

  /** Documents for different versions are published under different paths. */
  lemma DocumentPathsDistinct(view: SchemaView, overrideName: Option<string>)
    ensures var docs := DocumentsOf(view, overrideName);
      forall i, j :: 0 <= i < j < |docs| ==> docs[i].path != docs[j].path
  {
    var docs := DocumentsOf(view, overrideName);
    var vs := Ascending(view.parameters);
    forall i, j | 0 <= i < j < |docs| ensures docs[i].path != docs[j].path {
      DistinctVersionsDistinctPaths(view.vendor, UrlName(view, overrideName), vs[i], vs[j]);
    }
  }

  /** Every version the parameters carry gets a document, at the schema's path for that version,
      holding the parameters introduced up to it. */
  lemma DocumentForEveryVersion(view: SchemaView, overrideName: Option<string>, v: int)
    requires v in VersionsOf(view.parameters)
    ensures exists i :: (0 <= i < |DocumentsOf(view, overrideName)| &&
      DocumentsOf(view, overrideName)[i] == FromSchema(view, ParametersForVersion(view.parameters, v), v, overrideName))
  {
    var vs := Ascending(view.parameters);
    var i :| 0 <= i < |vs| && vs[i] == v;
    assert DocumentsOf(view, overrideName)[i] == FromSchema(view, ParametersForVersion(view.parameters, v), v, overrideName);
  }

  /** Every document is for a version the parameters carry. */
  lemma DocumentOnlyForVersions(view: SchemaView, overrideName: Option<string>, i: int)
    requires 0 <= i < |DocumentsOf(view, overrideName)|
    ensures exists v :: (v in VersionsOf(view.parameters) &&
      DocumentsOf(view, overrideName)[i].path == PathOf(view.vendor, UrlName(view, overrideName), v))
  {
    var v := Ascending(view.parameters)[i];
    assert v in VersionsOf(view.parameters);
  }

  /** The document for the latest version holds every parameter. */
  lemma LatestDocumentHoldsAll(view: SchemaView, overrideName: Option<string>)
    ensures exists i :: (0 <= i < |DocumentsOf(view, overrideName)| &&
      DocumentsOf(view, overrideName)[i] == FromSchema(view, view.parameters, CurrentVersionOf(view.parameters), overrideName))
  {
    CurrentVersionIsAVersion(view.parameters);
    ParametersForCurrentVersion(view.parameters);
    DocumentForEveryVersion(view, overrideName, CurrentVersionOf(view.parameters));
  }

  // ---------------------------------------------------------------------------------------------
  // Event contexts

  /** A context: a schema whose record is attached to events, or published on its own. */
  class EventContext {
    var id: Option<int>
    const schema: Schema
    const embeddedInEvent: bool
    var status: Status
    var statusUpdatedAt: Timestamp

    ghost predicate Valid()
    {
      ValidName(schema.name) && WrappedAsContext(schema.name)
    }

    /** A new context is `NOT_READY`. */
    constructor (schema: Schema, embeddedInEvent: bool, now: Timestamp)
      requires ValidName(schema.name) && WrappedAsContext(schema.name)
      ensures id == None && this.schema == schema && this.embeddedInEvent == embeddedInEvent
      ensures status == NotReady && statusUpdatedAt == now && Valid()
    {
      id := None;
      this.schema := schema;
      this.embeddedInEvent := embeddedInEvent;
      status := NotReady;
      statusUpdatedAt := now;
    }

    /** `override_url_schema_name`: the name without its `ctx_`, still ending in `_context`. */
    function OverrideUrlName(): (r: string)
      requires Valid()
      reads schema
      ensures "ctx_" + r == schema.name
      ensures |schema.name| >= 12 ==> Text.EndsWith(r, "_context")
    {
      var r := schema.name[4..];
      assert schema.name == schema.name[..4] + r;
      assert |schema.name| >= 12 ==> r[|r| - 8..] == schema.name[|schema.name| - 8..];
      r
    }

    /** `get_alias`: the alias derived from the URL name. */
    function Alias(): (r: string)
      requires Valid()
      reads schema
      ensures r == DerivedAlias(OverrideUrlName())
    {
      DerivedAlias(schema.name[4..])
    }

    function GetSchema(): (r: SchemaView)
      reads schema
      ensures r == schema.View()
    {
      schema.View()
    }

    /** The context's documents: one per version of its schema, under its name without `ctx_`. */
    function ToIgluSchemas(): (r: seq<IgluSchema>)
      requires Valid()
      reads schema
      ensures r == DocumentsOf(schema.View(), Some(OverrideUrlName()))
      ensures |r| == |Ascending(schema.parameters)|
    {
      DocumentsOf(schema.View(), Some(schema.name[4..]))
    }

    method SetStatus(s: Status, now: Timestamp)
      modifies this`status, this`statusUpdatedAt
      ensures status == s && statusUpdatedAt == now
    {
      status := s;
      statusUpdatedAt := now;
    }
  }

  /** `EventContext(schema=..., embedded_in_event=...)`: refuses a name not wrapped as a context's. */
  method NewEventContext(schema: Schema, embeddedInEvent: bool, now: Timestamp) returns (r: Result<EventContext>)
    requires ValidName(schema.name)
    ensures r.Err? <==> !WrappedAsContext(schema.name)
    ensures r.Err? ==> r.error == EntityError(ContextNameNotWrapped)
    ensures r.Ok? ==> (fresh(r.value) && r.value.schema == schema && r.value.embeddedInEvent == embeddedInEvent
      && r.value.status == NotReady && r.value.Valid())
  {
    if !WrappedAsContext(schema.name) {
      return Err(EntityError(ContextNameNotWrapped));
    }
    var c := new EventContext(schema, embeddedInEvent, now);
    return Ok(c);
  }

  /** The shortest context name wraps nothing: `ctx_context` is accepted, and its URL name is
      `context`. */
  lemma ShortestContextName()
    ensures ValidName("ctx_context") && WrappedAsContext("ctx_context")
    ensures "ctx_context"[4..] == "context"
  {
    NameIsValidMeansValidName("ctx_context");
    assert NameIsValid("ctx_context") by {
      assert Words("context");
      assert Words("x_context");
      assert Words("tx_context");
    }
  }

  // ---------------------------------------------------------------------------------------------
  // Events

  /** The parameters a common-derived event inherits: the common schema's parameters introduced at
      or before the frozen version, in order, each re-tagged as introduced at version 0. */
  function Inherited(parentParams: seq<SchemaParameter>, frozen: int): (r: seq<SchemaParameter>)
    ensures |r| <= |parentParams|
    ensures forall i :: 0 <= i < |r| ==> r[i].introducedAtVersion == 0
    ensures forall p :: p in r <==>
      exists q :: q in parentParams && q.introducedAtVersion <= frozen && p == q.(introducedAtVersion := 0)
  {
    if parentParams == [] then []
    else
      var q := parentParams[0];
      var rest := Inherited(parentParams[1..], frozen);
      assert forall x :: x in parentParams <==> x == q || x in parentParams[1..];
      (if q.introducedAtVersion <= frozen then [q.(introducedAtVersion := 0)] else []) + rest
  }

  /** Inheriting is choosing the parameters of the frozen version and re-tagging them, one for one. */
  lemma {:induction false} InheritedIsFrozenVersionRetagged(parentParams: seq<SchemaParameter>, frozen: int)
    ensures |Inherited(parentParams, frozen)| == |ParametersForVersion(parentParams, frozen)|
    ensures forall i :: 0 <= i < |Inherited(parentParams, frozen)| ==>
      Inherited(parentParams, frozen)[i] == ParametersForVersion(parentParams, frozen)[i].(introducedAtVersion := 0)
  {
    if parentParams != [] {
      var q, tail := parentParams[0], parentParams[1..];
      InheritedIsFrozenVersionRetagged(tail, frozen);
      assert parentParams == [q] + tail;
      ParametersForVersionAppend([q], tail, frozen);
      assert [q][1..] == [];
      var inherited, chosen := Inherited(parentParams, frozen), ParametersForVersion(parentParams, frozen);
      var inheritedTail, chosenTail := Inherited(tail, frozen), ParametersForVersion(tail, frozen);
      if q.introducedAtVersion <= frozen {
        assert inherited == [q.(introducedAtVersion := 0)] + inheritedTail;
        assert chosen == [q] + chosenTail;
        forall i | 0 <= i < |inherited|
          ensures inherited[i] == chosen[i].(introducedAtVersion := 0)
        {
          if i > 0 {
            assert inherited[i] == inheritedTail[i - 1] && chosen[i] == chosenTail[i - 1];
          }
        }
      } else {
        assert inherited == inheritedTail;
        assert chosen == chosenTail;
      }
    }
  }

  /** What `get_schema` lists for a common-derived event: the inherited parameters, then its own. */
  function MergedParameters(parentParams: seq<SchemaParameter>, frozen: int, own: seq<SchemaParameter>)
    : (r: seq<SchemaParameter>)
    ensures |own| <= |r| <= |parentParams| + |own|
    ensures r[|r| - |own|..] == own
    ensures forall i :: 0 <= i < |r| - |own| ==> (r[i].introducedAtVersion == 0 &&
      exists q :: q in parentParams && q.introducedAtVersion <= frozen && r[i] == q.(introducedAtVersion := 0))
  {
    var inherited := Inherited(parentParams, frozen);
    var r := inherited + own;
    assert |r| - |own| == |inherited| && r[..|inherited|] == inherited;
    assert forall i :: 0 <= i < |r| - |own| ==> (r[i].introducedAtVersion == 0 &&
      exists q :: q in parentParams && q.introducedAtVersion <= frozen && r[i] == q.(introducedAtVersion := 0)) by {
      forall i | 0 <= i < |r| - |own|
        ensures r[i].introducedAtVersion == 0
        ensures exists q :: q in parentParams && q.introducedAtVersion <= frozen && r[i] == q.(introducedAtVersion := 0)
      {
        assert r[i] == inherited[i] && inherited[i] in inherited;
      }
    }
    assert r[|r| - |own|..] == own;
    r
  }

  /** Inherited parameters sit at version 0, so a common-derived event's documents at version 0
      already hold everything it inherits, and the own parameters of later versions come on top. */
  lemma {:induction false} MergedForVersion(parentParams: seq<SchemaParameter>, frozen: int,
                                            own: seq<SchemaParameter>, v: int)
    requires v >= 0
    ensures ParametersForVersion(MergedParameters(parentParams, frozen, own), v) ==
      Inherited(parentParams, frozen) + ParametersForVersion(own, v)
  {
    var inherited := Inherited(parentParams, frozen);
    ParametersForVersionAppend(inherited, own, v);
    ParametersForVersionKeepsAll(inherited, v);
  }

  /** An event of one app: its own schema, and for an event derived from a common event, the common
      event and the version of its schema the event is frozen at. */
  class Event {
    var id: Option<int>
    const appId: AppId
    const schema: Schema
    const parent: Option<CommonEvent>
    const parentVersion: Option<int>
    var status: Status
    var statusUpdatedAt: Timestamp

    ghost predicate Valid()
    {
      ValidName(schema.name) && !LooksLikeContext(schema.name) && (parent.Some? ==> parentVersion.Some?)
    }

    /** A new event is `NOT_READY`. */
    constructor (appId: AppId, schema: Schema, parent: Option<CommonEvent>, parentVersion: Option<int>,
                 now: Timestamp)
      requires ValidName(schema.name) && !LooksLikeContext(schema.name)
      requires parent.Some? ==> parentVersion.Some?
      ensures id == None && this.appId == appId && this.schema == schema
      ensures this.parent == parent && this.parentVersion == parentVersion
      ensures status == NotReady && statusUpdatedAt == now && Valid()
    {
      id := None;
      this.appId := appId;
      this.schema := schema;
      this.parent := parent;
      this.parentVersion := parentVersion;
      status := NotReady;
      statusUpdatedAt := now;
    }

    predicate IsCommon()
    {
      parent.Some?
    }

    /** `datasource_id`: `events_` followed by the schema's name. */
    function DatasourceId(): (r: string)
      reads schema
      ensures Text.StartsWith(r, "events_") && r[7..] == schema.name
    {
      "events_" + schema.name
    }

    /** `get_schema`: the event's own schema, or for a common-derived event a copy of it whose
        parameters are the inherited ones followed by its own. */
    function GetSchema(): (r: SchemaView)
      requires Valid()
      reads schema, if parent.Some? then {parent.value.schema} else {}
      ensures r.vendor == schema.vendor && r.name == schema.name
      ensures r.alias == schema.alias && r.description == schema.description
      ensures !IsCommon() ==> r.parameters == schema.parameters
      ensures IsCommon() ==>
        r.parameters == MergedParameters(parent.value.schema.parameters, parentVersion.value, schema.parameters)
    {
      if parent.Some? then
        SchemaView(schema.vendor, schema.name, schema.alias, schema.description,
                   MergedParameters(parent.value.schema.parameters, parentVersion.value, schema.parameters))
      else schema.View()
    }

    /** The event's documents: one per version of its merged parameters, under its own name. */
    function ToIgluSchemas(): (r: seq<IgluSchema>)
      requires Valid()
      reads schema, if parent.Some? then {parent.value.schema} else {}
      ensures r == DocumentsOf(GetSchema(), None)
      ensures |r| == |Ascending(GetSchema().parameters)|
    {
      DocumentsOf(GetSchema(), None)
    }

    /** `add_parameters`: an empty batch changes nothing. Otherwise every parameter must carry the
        schema's next expected version and, on a common-derived event, a name starting with
        `custom_`; all are checked before any is added, and then the batch goes to the schema. */
    method AddParameters(batch: seq<SchemaParameter>) returns (outcome: Outcome)
      modifies schema`parameters
      ensures batch == [] ==> outcome == Pass && schema.parameters == old(schema.parameters)
      ensures batch != [] && BatchCheck(batch, old(schema.NextExpectedVersion()), IsCommon()).Fail? ==>
        outcome == BatchCheck(batch, old(schema.NextExpectedVersion()), IsCommon())
        && schema.parameters == old(schema.parameters)
      ensures batch != [] && BatchCheck(batch, old(schema.NextExpectedVersion()), IsCommon()).Pass? ==>
        (schema.parameters, outcome) == AppendDistinct(old(schema.parameters), batch)
    {
      if batch == [] {
        return Pass;
      }
      var expected := schema.NextExpectedVersion();
      var i := 0;
      while i < |batch|
        invariant 0 <= i <= |batch|
        invariant BatchCheck(batch, expected, IsCommon()) == BatchCheck(batch[i..], expected, IsCommon())
      {
        assert batch[i..][1..] == batch[i + 1..];
        if batch[i].introducedAtVersion != expected {
          return Fail(EntityError(UnexpectedVersion));
        }
        if IsCommon() && !Text.StartsWith(batch[i].name, CustomPrefix) {
          return Fail(EntityError(MissingCustomPrefix));
        }
        i := i + 1;
      }
      outcome := schema.AddParameters(batch);
    }

    method SetStatus(s: Status, now: Timestamp)
      modifies this`status, this`statusUpdatedAt
      ensures status == s && statusUpdatedAt == now
    {
      status := s;
      statusUpdatedAt := now;
    }
  }

  /** The checks `Event.add_parameters` makes before adding, parameter by parameter: the version
      first, then the `custom_` prefix on a common-derived event; the first failure wins. */
  function BatchCheck(batch: seq<SchemaParameter>, expected: int, isCommon: bool): Outcome
  {
    if batch == [] then Pass
    else if batch[0].introducedAtVersion != expected then Fail(EntityError(UnexpectedVersion))
    else if isCommon && !Text.StartsWith(batch[0].name, CustomPrefix) then Fail(EntityError(MissingCustomPrefix))
    else BatchCheck(batch[1..], expected, isCommon)
  }

  /** The checks pass exactly when every parameter carries the expected version and, on a
      common-derived event, the `custom_` prefix. */
  lemma {:induction false} BatchCheckPassesIff(batch: seq<SchemaParameter>, expected: int, isCommon: bool)
    ensures BatchCheck(batch, expected, isCommon) == Pass <==>
      forall i :: 0 <= i < |batch| ==>
        batch[i].introducedAtVersion == expected && (isCommon ==> Text.StartsWith(batch[i].name, CustomPrefix))
  {
    if batch != [] {
      BatchCheckPassesIff(batch[1..], expected, isCommon);
      assert forall i :: 1 <= i < |batch| ==> batch[i] == batch[1..][i - 1];
    }
  }

  /** Versions are sequential: after a batch at the next expected version goes in whole, that
      version is the schema's current version. */
  lemma {:induction false} AcceptedBatchBecomesCurrentVersion(existing: seq<SchemaParameter>, id: Option<int>,
                                                              batch: seq<SchemaParameter>)
    requires batch != []
    requires forall i :: 0 <= i < |batch| ==> batch[i].introducedAtVersion == NextExpectedVersionOf(id, existing)
    requires Saved(id) || existing == []
    ensures CurrentVersionOf(existing + batch) == NextExpectedVersionOf(id, existing)
  {
    var all := existing + batch;
    var v := NextExpectedVersionOf(id, existing);
    assert all[|existing|] == batch[0];
    forall i | 0 <= i < |all| ensures all[i].introducedAtVersion <= v {
      if i >= |existing| {
        assert all[i] == batch[i - |existing|];
      }
    }
    CurrentVersionIsLeastBound(all, v);
  }

  /** The current version is the least bound of the versions that is attained. */
  lemma CurrentVersionIsLeastBound(ps: seq<SchemaParameter>, v: int)
    requires ps != []
    requires forall i :: 0 <= i < |ps| ==> ps[i].introducedAtVersion <= v
    requires exists i :: 0 <= i < |ps| && ps[i].introducedAtVersion == v
    ensures CurrentVersionOf(ps) == v
  {
  }

  /** What `get_schema` reads, over a list of events. */
  ghost function EventsFootprint(events: seq<Event>): (r: set<object>)
    ensures forall e :: e in events ==> e in r && e.schema in r
  {
    (set e | e in events :: e as object) + (set e | e in events :: e.schema as object) +
    (set e | e in events && e.parent.Some? :: e.parent.value as object) +
    (set e | e in events && e.parent.Some? :: e.parent.value.schema as object)
  }

  /** The footprint of a sub-list is part of the footprint of the list. */
  lemma EventsFootprintMonotone(a: seq<Event>, b: seq<Event>)
    requires forall e :: e in a ==> e in b
    ensures EventsFootprint(a) <= EventsFootprint(b)
  {
  }

  /** `Event.create_game_specific`: an event of the app with an empty schema under the app's vendor;
      an invalid name is refused first, then one that looks like a context's. */
  method CreateGameSpecific(appId: AppId, name: string, description: Option<string>, alias: Option<string>,
                            now: Timestamp) returns (r: Result<Event>)
    ensures r.Err? <==> !ValidName(name) || LooksLikeContext(name)
    ensures !ValidName(name) ==> r == Err(EntityError(InvalidSchemaName))
    ensures ValidName(name) && LooksLikeContext(name) ==> r == Err(EntityError(EventNameLooksLikeContext))
    ensures r.Ok? ==> (fresh(r.value) && fresh(r.value.schema) && r.value.Valid()
      && r.value.appId == appId && r.value.parent == None && r.value.status == NotReady
      && r.value.schema.parameters == [] && r.value.schema.id == None
      && r.value.schema.vendor == Apps.EventVendorOf(appId)
      && r.value.schema.name == name && r.value.schema.alias == alias
      && r.value.schema.description == description)
  {
    var schema := NewSchema([], "com.algebraai.gametuner.gamespecific." + appId.value, name, alias, description);
    if schema.Err? {
      return Err(schema.error);
    }
    if LooksLikeContext(name) {
      return Err(EntityError(EventNameLooksLikeContext));
    }
    var e := new Event(appId, schema.value, None, None, now);
    return Ok(e);
  }
}
