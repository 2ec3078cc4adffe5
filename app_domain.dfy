/** What the app read model hands to its views (metadata/api/app/internal/domain.py): the atomic
    parameters, the event contexts, the events grouped by app and the apps by id, and the names of
    the GDPR parameters grouped by the schema they belong to. */
module AppDomain {
  import opened Common
  import opened AppIdentity
  import opened Schemas
  import opened Events
  import Apps

  datatype EventsByApp = EventsByApp(
    atomicParameters: seq<AtomicParameter>,
    eventContexts: seq<EventContext>,
    nonEmbeddedEventContexts: seq<EventContext>,
    embeddedEventContexts: seq<EventContext>,
    eventsByApp: map<AppId, seq<Event>>,
    appsById: map<AppId, Apps.App>)

  /** `EventsByApp(...)`: refuses events grouped under an app id it was not given an app for. */
  function NewEventsByApp(atomics: seq<AtomicParameter>, contexts: seq<EventContext>,
                          nonEmbedded: seq<EventContext>, embedded: seq<EventContext>,
                          eventsByApp: map<AppId, seq<Event>>, appsById: map<AppId, Apps.App>): (r: Result<EventsByApp>)
    ensures r.Err? <==> exists id :: id in eventsByApp && id !in appsById
    ensures r.Err? ==> r.error == InternalError
    ensures r.Ok? ==> r.value.eventsByApp == eventsByApp && r.value.appsById == appsById
    ensures r.Ok? ==> r.value.atomicParameters == atomics && r.value.eventContexts == contexts
    ensures r.Ok? ==> r.value.nonEmbeddedEventContexts == nonEmbedded && r.value.embeddedEventContexts == embedded
  {
    if eventsByApp.Keys <= appsById.Keys then Ok(EventsByApp(atomics, contexts, nonEmbedded, embedded, eventsByApp, appsById))
    else Err(InternalError)
  }

  /** `get_events`: the list stored for the app. The grouping is a `defaultdict`, so an app without
      events gets the empty list. */
  function GetEvents(b: EventsByApp, id: AppId): (r: seq<Event>)
    ensures id in b.eventsByApp ==> r == b.eventsByApp[id]
    ensures id !in b.eventsByApp ==> r == []
  {
    if id in b.eventsByApp then b.eventsByApp[id] else []
  }

  // ---------------------------------------------------------------------------------------------
  // GDPR parameter names

  /** The names of the GDPR parameters of a list, in list order. */
  function GdprNames(ps: seq<SchemaParameter>): (r: seq<string>)
    ensures |r| <= |ps|
    ensures forall n :: n in r <==> exists p :: p in ps && p.isGdpr && p.name == n
  {
    if ps == [] then []
    else
      assert forall p :: p in ps <==> p == ps[0] || p in ps[1..];
      (if ps[0].isGdpr then [ps[0].name] else []) + GdprNames(ps[1..])
  }

  /** Filtering keeps order: the names of a concatenation are the names of its parts, in turn. */
  lemma {:induction false} GdprNamesAppend(a: seq<SchemaParameter>, b: seq<SchemaParameter>)
    ensures GdprNames(a + b) == GdprNames(a) + GdprNames(b)
  {
    if a == [] {
      assert a + b == b;
    } else {
      assert (a + b)[0] == a[0] && (a + b)[1..] == a[1..] + b;
      GdprNamesAppend(a[1..], b);
    }
  }

  /** The loops of the two `get_gdpr_..._by_..._name` methods over a list of schemas: each GDPR
      parameter's name is appended to the list under its schema's name, a list being started when the
      first such parameter turns up. */
  function GdprByName(schemas: seq<SchemaView>): (r: map<string, seq<string>>)
  {
    if schemas == [] then map[]
    else
      var m := GdprByName(schemas[..|schemas| - 1]);
      var s := schemas[|schemas| - 1];
      var names := GdprNames(s.parameters);
      if names == [] then m
      else m[s.name := (if s.name in m then m[s.name] else []) + names]
  }

  /** The GDPR parameter names of every schema called `name`, schema after schema. */
  function Collected(schemas: seq<SchemaView>, name: string): (r: seq<string>)
    ensures r != [] <==> exists i :: 0 <= i < |schemas| && schemas[i].name == name && GdprNames(schemas[i].parameters) != []
  {
    if schemas == [] then []
    else
      var init := schemas[..|schemas| - 1];
      var s := schemas[|schemas| - 1];
      assert forall i :: 0 <= i < |init| ==> init[i] == schemas[i];
      Collected(init, name) + (if s.name == name then GdprNames(s.parameters) else [])
  }

  /** A schema name is a key exactly when some schema of that name has a GDPR parameter, and its list
      holds the names of the GDPR parameters of all the schemas of that name, in order. */
  lemma {:induction false} GdprByNameIsCollected(schemas: seq<SchemaView>, name: string)
    ensures name in GdprByName(schemas) <==> Collected(schemas, name) != []
    ensures name in GdprByName(schemas) ==> GdprByName(schemas)[name] == Collected(schemas, name)
  {
    if schemas != [] {
      GdprByNameIsCollected(schemas[..|schemas| - 1], name);
    }
  }

  /** With schema names distinct, each key lists exactly its own schema's GDPR parameter names. */
  lemma GdprByNameOfDistinct(schemas: seq<SchemaView>, i: nat)
    requires i < |schemas|
    requires forall j, k :: 0 <= j < k < |schemas| ==> schemas[j].name != schemas[k].name
    ensures schemas[i].name in GdprByName(schemas) <==> GdprNames(schemas[i].parameters) != []
    ensures schemas[i].name in GdprByName(schemas) ==> GdprByName(schemas)[schemas[i].name] == GdprNames(schemas[i].parameters)
  {
    GdprByNameIsCollected(schemas, schemas[i].name);
    CollectedOfDistinct(schemas, i);
  }

  lemma {:induction false} CollectedOfDistinct(schemas: seq<SchemaView>, i: nat)
    requires i < |schemas|
    requires forall j, k :: 0 <= j < k < |schemas| ==> schemas[j].name != schemas[k].name
    ensures Collected(schemas, schemas[i].name) == GdprNames(schemas[i].parameters)
  {
    var n := |schemas| - 1;
    var init := schemas[..n];
    if i == n {
      CollectedOfOthers(init, schemas[i].name);
    } else {
      CollectedOfDistinct(init, i);
    }
  }

  lemma {:induction false} CollectedOfOthers(schemas: seq<SchemaView>, name: string)
    requires forall j :: 0 <= j < |schemas| ==> schemas[j].name != name
    ensures Collected(schemas, name) == []
  {
  }

  /** The schemas of contexts, in order. */
  function ContextSchemas(cs: seq<EventContext>): (r: seq<SchemaView>)
    reads set c | c in cs :: c.schema
    ensures |r| == |cs| && forall i :: 0 <= i < |cs| ==> r[i] == cs[i].schema.View()
  {
    seq(|cs|, i requires 0 <= i < |cs| reads set c | c in cs :: c.schema => cs[i].schema.View())
  }

  /** The merged schemas of events, in order. */
  function EventSchemas(events: seq<Event>): (r: seq<SchemaView>)
    requires forall e :: e in events ==> e.Valid()
    reads EventsFootprint(events)
    ensures |r| == |events| && forall i :: 0 <= i < |events| ==> r[i] == events[i].GetSchema()
  {
    if events == [] then []
    else
      assert events[0] in events;
      EventsFootprintMonotone(events[1..], events);
      [events[0].GetSchema()] + EventSchemas(events[1..])
  }

  /** `get_gdpr_context_parameter_names_by_context_name`, over the embedded contexts. */
  function GdprContextParameterNames(b: EventsByApp): (r: map<string, seq<string>>)
    reads set c | c in b.embeddedEventContexts :: c.schema
    ensures forall name :: name in r <==> Collected(ContextSchemas(b.embeddedEventContexts), name) != []
    ensures forall name :: name in r ==> r[name] == Collected(ContextSchemas(b.embeddedEventContexts), name)
  {
    var schemas := ContextSchemas(b.embeddedEventContexts);
    forall name
      ensures name in GdprByName(schemas) <==> Collected(schemas, name) != []
      ensures name in GdprByName(schemas) ==> GdprByName(schemas)[name] == Collected(schemas, name)
    {
      GdprByNameIsCollected(schemas, name);
    }
    GdprByName(schemas)
  }

  /** `get_gdpr_event_parameter_names_by_event_name`, over the app's events and their merged
      parameters. */
  function GdprEventParameterNames(b: EventsByApp, id: AppId): (r: map<string, seq<string>>)
    requires forall e :: e in GetEvents(b, id) ==> e.Valid()
    reads EventsFootprint(GetEvents(b, id))
    ensures forall name :: name in r <==> Collected(EventSchemas(GetEvents(b, id)), name) != []
    ensures forall name :: name in r ==> r[name] == Collected(EventSchemas(GetEvents(b, id)), name)
  {
    var schemas := EventSchemas(GetEvents(b, id));
    forall name
      ensures name in GdprByName(schemas) <==> Collected(schemas, name) != []
      ensures name in GdprByName(schemas) ==> GdprByName(schemas)[name] == Collected(schemas, name)
    {
      GdprByNameIsCollected(schemas, name);
    }
    GdprByName(schemas)
  }

  /** `get_gdpr_atomic_parameter_names`: the names of the GDPR atomic parameters, in order. */
  function GdprAtomicNames(atomics: seq<AtomicParameter>): (r: seq<string>)
    ensures |r| <= |atomics|
    ensures forall n :: n in r <==> exists a :: a in atomics && a.isGdpr && a.name == n
  {
    if atomics == [] then []
    else
      assert forall a :: a in atomics <==> a == atomics[0] || a in atomics[1..];
      (if atomics[0].isGdpr then [atomics[0].name] else []) + GdprAtomicNames(atomics[1..])
  }

  /** Filtering keeps order. */
  lemma {:induction false} GdprAtomicNamesAppend(a: seq<AtomicParameter>, b: seq<AtomicParameter>)
    ensures GdprAtomicNames(a + b) == GdprAtomicNames(a) + GdprAtomicNames(b)
  {
    if a == [] {
      assert a + b == b;
    } else {
      assert (a + b)[0] == a[0] && (a + b)[1..] == a[1..] + b;
      GdprAtomicNamesAppend(a[1..], b);
    }
  }
}
