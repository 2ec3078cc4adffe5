/** The database the services and the maintainers share (metadata/core/database/orm.py): one list
    per table, holding the stored entities in the order a select returns them, the constraints the
    tables declare, and the lookups the services make. */
module Store {
  import opened Common
  import opened AppIdentity
  import opened Schemas
  import opened Events
  import opened Apps

  /** The primary key of `app`: no two apps share an id. */
  predicate AppIdsDistinct(apps: seq<App>)
  {
    forall i, j :: 0 <= i < j < |apps| ==> apps[i].id != apps[j].id
  }

  /** The unique constraint of `schema` on (vendor, name). The schemas of one app's events all carry
      that app's vendor, so no two events of one app share a name. */
  predicate EventNamesDistinct(events: seq<Event>)
  {
    forall i, j :: 0 <= i < j < |events| ==>
      events[i].appId != events[j].appId || events[i].schema.name != events[j].schema.name
  }

  /** The foreign key of `event.app_id`: every event belongs to a stored app. */
  predicate EventsOfKnownApps(events: seq<Event>, apps: seq<App>)
  {
    forall i :: 0 <= i < |events| ==> AppWithId(apps, events[i].appId).Some?
  }

  class Database {
    var organizations: seq<Organization>
    var apps: seq<App>
    var contexts: seq<EventContext>
    var commonEvents: seq<CommonEvent>
    var events: seq<Event>
    var atomics: seq<AtomicParameter>
    /** The last id handed out: one counter stands for the autoincrement sequences of the tables. */
    var lastId: nat

    /** What the table constraints and the entities' own checks guarantee of the stored rows. */
    ghost predicate Valid()
      reads this
    {
      && AppIdsDistinct(apps)
      && EventNamesDistinct(events)
      && EventsOfKnownApps(events, apps)
      && (forall e :: e in events ==> e.Valid())
      && (forall c :: c in contexts ==> c.Valid())
      && (forall c :: c in commonEvents ==> c.Valid())
    }
  }

  /** The event of `appId` whose schema is called `name`, if one is stored: the query both
      `create_or_update_event` and `get_event_by_name` run. The first match is returned; with the
      names of an app's events distinct there is at most one. */
  function EventNamed(events: seq<Event>, appId: AppId, name: string): (r: Option<Event>)
    ensures r.None? <==> forall i :: 0 <= i < |events| ==> events[i].appId != appId || events[i].schema.name != name
    ensures r.Some? ==> r.value in events && r.value.appId == appId && r.value.schema.name == name
  {
    if events == [] then None
    else if events[0].appId == appId && events[0].schema.name == name then Some(events[0])
    else
      assert forall i :: 1 <= i < |events| ==> events[i] == events[1..][i - 1];
      EventNamed(events[1..], appId, name)
  }

  /** With names distinct per app, the event found is the only one of that app and name. */
  lemma EventNamedIsTheOnly(events: seq<Event>, appId: AppId, name: string, i: nat)
    requires EventNamesDistinct(events) && i < |events|
    requires events[i].appId == appId && events[i].schema.name == name
    ensures EventNamed(events, appId, name) == Some(events[i])
  {
    var r := EventNamed(events, appId, name);
    var j :| 0 <= j < |events| && events[j] == r.value;
    assert i == j;
  }

  /** An event added to the end of the list is found, unless one of the same app and name was
      already there. */
  lemma EventNamedAfterAppend(events: seq<Event>, e: Event, appId: AppId, name: string)
    ensures EventNamed(events, appId, name).Some? ==> EventNamed(events + [e], appId, name) == EventNamed(events, appId, name)
    ensures EventNamed(events, appId, name).None? ==>
      EventNamed(events + [e], appId, name) == if e.appId == appId && e.schema.name == name then Some(e) else None
  {
    if events != [] {
      assert (events + [e])[1..] == events[1..] + [e];
      EventNamedAfterAppend(events[1..], e, appId, name);
    }
  }

  /** Storing an event of a stored app whose name is new for that app keeps the constraints. */
  lemma AppendEventKeepsConstraints(events: seq<Event>, apps: seq<App>, e: Event)
    requires EventNamesDistinct(events) && EventsOfKnownApps(events, apps)
    requires EventNamed(events, e.appId, e.schema.name).None?
    requires AppWithId(apps, e.appId).Some?
    ensures EventNamesDistinct(events + [e]) && EventsOfKnownApps(events + [e], apps)
  {
    var all := events + [e];
    forall i, j | 0 <= i < j < |all|
      ensures all[i].appId != all[j].appId || all[i].schema.name != all[j].schema.name
    {
      assert all[i] == events[i];
    }
    forall i | 0 <= i < |all| ensures AppWithId(apps, all[i].appId).Some? {
      if i < |events| {
        assert all[i] == events[i];
      }
    }
  }

  /** `session.add(event)` and the commit: the event and its schema get the next ids and the event
      is stored last. */
  method StoreEvent(db: Database, e: Event)
    requires db.Valid() && e.Valid()
    requires EventNamed(db.events, e.appId, e.schema.name).None? && AppWithId(db.apps, e.appId).Some?
    modifies db`events, db`lastId, e`id, e.schema`id
    ensures db.Valid() && db.events == old(db.events) + [e] && db.lastId == old(db.lastId) + 2
    ensures e.schema.id == Some(old(db.lastId) + 1) && e.id == Some(old(db.lastId) + 2)
  {
    e.schema.id := Some(db.lastId + 1);
    e.id := Some(db.lastId + 2);
    db.lastId := db.lastId + 2;
    AppendEventKeepsConstraints(db.events, db.apps, e);
    db.events := db.events + [e];
  }

  /** The stored app with the given id, if any. */
  function AppWithId(apps: seq<App>, id: AppId): (r: Option<App>)
    ensures r.None? <==> forall i :: 0 <= i < |apps| ==> apps[i].id != id
    ensures r.Some? ==> r.value in apps && r.value.id == id
  {
    if apps == [] then None
    else if apps[0].id == id then Some(apps[0])
    else
      assert forall i :: 1 <= i < |apps| ==> apps[i] == apps[1..][i - 1];
      AppWithId(apps[1..], id)
  }

  /** With app ids distinct, the app found is the only one with that id. */
  lemma AppWithIdIsTheOnly(apps: seq<App>, id: AppId, i: nat)
    requires AppIdsDistinct(apps) && i < |apps| && apps[i].id == id
    ensures AppWithId(apps, id) == Some(apps[i])
  {
    var r := AppWithId(apps, id);
    var j :| 0 <= j < |apps| && apps[j] == r.value;
    assert i == j;
  }

  /** `.one()`: the single row of a result, or the ORM's error for none or several. */
  function One<T>(rows: seq<T>): (r: Result<T>)
    ensures r.Ok? <==> |rows| == 1
    ensures r.Ok? ==> r.value == rows[0]
    ensures rows == [] ==> r == Err(NoResultFound)
    ensures |rows| > 1 ==> r == Err(MultipleResultsFound)
  {
    if rows == [] then Err(NoResultFound)
    else if |rows| == 1 then Ok(rows[0])
    else Err(MultipleResultsFound)
  }

  /** The contexts embedded in events (`embedded == true`) or not, in stored order. */
  function ContextsEmbedded(contexts: seq<EventContext>, embedded: bool): (r: seq<EventContext>)
    ensures |r| <= |contexts|
    ensures forall i :: 0 <= i < |r| ==> r[i] in contexts && r[i].embeddedInEvent == embedded
    ensures forall i :: 0 <= i < |contexts| && contexts[i].embeddedInEvent == embedded ==> contexts[i] in r
  {
    if contexts == [] then []
    else
      assert forall i :: 1 <= i < |contexts| ==> contexts[i] == contexts[1..][i - 1];
      (if contexts[0].embeddedInEvent == embedded then [contexts[0]] else []) + ContextsEmbedded(contexts[1..], embedded)
  }

  /** The organizations with a given name, in stored order. */
  function OrganizationsNamed(orgs: seq<Organization>, name: string): (r: seq<Organization>)
    ensures |r| <= |orgs|
    ensures forall i :: 0 <= i < |r| ==> r[i] in orgs && r[i].name == name
    ensures forall i :: 0 <= i < |orgs| && orgs[i].name == name ==> orgs[i] in r
  {
    if orgs == [] then []
    else
      assert forall i :: 1 <= i < |orgs| ==> orgs[i] == orgs[1..][i - 1];
      (if orgs[0].name == name then [orgs[0]] else []) + OrganizationsNamed(orgs[1..], name)
  }
}
