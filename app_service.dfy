/** The app service (metadata/api/app/service.py): registering an app, reading apps back, recording
    how far a datasource's data reaches, and the read model of the apps that are set up. */
module AppService {
  import opened Common
  import opened EntityStatus
  import opened AppIdentity
  import opened Events
  import opened Apps
  import opened Store
  import opened AppDomain

  // ---------------------------------------------------------------------------------------------
  // Registering an app

  /** What registering leads to: the organization is looked up by name with `.one()`, the app id is
      checked, and the commit is refused when the id is already stored. */
  function Registration(orgs: seq<Organization>, apps: seq<App>, appIdValue: string, organization: string)
    : (r: Result<(Organization, AppId)>)
    ensures r.Ok? <==> |OrganizationsNamed(orgs, organization)| == 1 && ValidAppId(appIdValue)
                       && AppWithId(apps, AppId(appIdValue)).None?
    ensures OrganizationsNamed(orgs, organization) == [] ==> r == Err(NoResultFound)
    ensures |OrganizationsNamed(orgs, organization)| > 1 ==> r == Err(MultipleResultsFound)
    ensures r.Ok? ==> r.value.0 in orgs && r.value.0.name == organization && r.value.1 == AppId(appIdValue)
    ensures (|OrganizationsNamed(orgs, organization)| == 1 && ValidAppId(appIdValue)
             && AppWithId(apps, AppId(appIdValue)).Some?) ==> r == Err(EntityError(DuplicateApp))
  {
    match One(OrganizationsNamed(orgs, organization))
    case Err(e) => Err(e)
    case Ok(org) =>
      match NewAppId(appIdValue)
      case Err(e) => Err(e)
      case Ok(id) => if AppWithId(apps, id).Some? then Err(EntityError(DuplicateApp)) else Ok((org, id))
  }

  /** Storing an app under a new id keeps the constraints. */
  lemma AppendAppKeepsConstraints(apps: seq<App>, events: seq<Event>, a: App)
    requires AppIdsDistinct(apps) && EventsOfKnownApps(events, apps)
    requires AppWithId(apps, a.id).None?
    ensures AppIdsDistinct(apps + [a]) && EventsOfKnownApps(events, apps + [a])
  {
    forall i, j | 0 <= i < j < |apps + [a]| ensures (apps + [a])[i].id != (apps + [a])[j].id {
      assert (apps + [a])[i] == apps[i];
      if j == |apps| {
        assert (apps + [a])[j] == a;
        assert apps[i].id != a.id;
      } else {
        assert (apps + [a])[j] == apps[j];
      }
    }
    KnownAppsStayKnown(events, apps, [a]);
  }

  /** Apps stored later leave every event's app known. */
  lemma KnownAppsStayKnown(events: seq<Event>, apps: seq<App>, more: seq<App>)
    requires EventsOfKnownApps(events, apps)
    ensures EventsOfKnownApps(events, apps + more)
  {
    forall i | 0 <= i < |events| ensures AppWithId(apps + more, events[i].appId).Some? {
      var app := AppWithId(apps, events[i].appId).value;
      var j :| 0 <= j < |apps| && apps[j] == app;
      assert (apps + more)[j] == app;
    }
  }

  /** `register`: a new `NOT_READY` app of the named organization, with its `user_history`
      datasource, stored after the others. */
  method Register(db: Database, appIdValue: string, organization: string, timezone: string, hasDataFrom: Option<Date>,
                  today: Date, now: Timestamp, draws: seq<nat>) returns (r: Result<App>)
    requires db.Valid() && |draws| == 16
    modifies db`apps
    ensures db.Valid()
    ensures var g := Registration(db.organizations, old(db.apps), appIdValue, organization);
      && (g.Err? ==> r == Err(g.error) && db.apps == old(db.apps))
      && (g.Ok? ==> (r.Ok? && fresh(r.value) && db.apps == old(db.apps) + [r.value]
            && r.value.id == g.value.1 && r.value.organization == g.value.0 && r.value.timezone == timezone
            && r.value.status == NotReady && |r.value.datasources| == 1
            && r.value.datasources[0].Record() == DatasourceRecord("user_history", g.value.1,
                 if hasDataFrom.Some? then hasDataFrom.value else today, None, None)))
  {
    var g := Registration(db.organizations, db.apps, appIdValue, organization);
    if g.Err? {
      return Err(g.error);
    }
    var app := new App(g.value.1, timezone, g.value.0, hasDataFrom, today, now, draws);
    AppendAppKeepsConstraints(db.apps, db.events, app);
    db.apps := db.apps + [app];
    r := Ok(app);
  }

  /** Registering an id that is already stored fails, whatever else the request says. */
  lemma DuplicateRegistrationRefused(orgs: seq<Organization>, apps: seq<App>, appIdValue: string, organization: string)
    requires AppWithId(apps, AppId(appIdValue)).Some?
    ensures Registration(orgs, apps, appIdValue, organization).Err?
  {
  }

  // ---------------------------------------------------------------------------------------------
  // Reading apps

  /** `get_all_success`: the apps whose status is not `NOT_READY`, in stored order. */
  function GetAllSuccess(apps: seq<App>): (r: seq<App>)
    reads apps
    ensures |r| <= |apps|
    ensures forall i :: 0 <= i < |r| ==> r[i] in apps && r[i].status != NotReady
    ensures forall i :: 0 <= i < |apps| && apps[i].status != NotReady ==> apps[i] in r
  {
    if apps == [] then []
    else
      assert forall i :: 1 <= i < |apps| ==> apps[i] == apps[1..][i - 1];
      (if apps[0].status != NotReady then [apps[0]] else []) + GetAllSuccess(apps[1..])
  }

  /** `get_by_app_id`: the app with that id, or `EntityNotFound`. */
  function GetByAppId(apps: seq<App>, id: AppId): (r: Result<App>)
    ensures r.Err? <==> forall i :: 0 <= i < |apps| ==> apps[i].id != id
    ensures r.Err? ==> r.error == EntityNotFound
    ensures r.Ok? ==> r.value in apps && r.value.id == id
  {
    match AppWithId(apps, id)
    case None => Err(EntityNotFound)
    case Some(a) => Ok(a)
  }

  /** A registered app is found under its id. */
  lemma RegisteredAppIsFound(apps: seq<App>, a: App)
    requires AppIdsDistinct(apps + [a])
    ensures GetByAppId(apps + [a], a.id) == Ok(a)
  {
    AppWithIdIsTheOnly(apps + [a], a.id, |apps|);
  }

  // ---------------------------------------------------------------------------------------------
  // Datasource freshness

  /** The objects `update_datasource_freshness` may write: the app, and the datasource it already
      has under that id. */
  function FreshnessFrame(apps: seq<App>, id: AppId, datasourceId: string): (r: set<object>)
    reads apps
    ensures AppWithId(apps, id).Some? ==> AppWithId(apps, id).value in r
  {
    match AppWithId(apps, id)
    case None => {}
    case Some(a) =>
      {a} + match a.GetDatasource(datasourceId) case None => {} case Some(d) => {d}
  }

  /** `update_datasource_freshness`: an unknown app is `EntityNotFound`; a datasource the app does
      not have yet is added with its data starting and reaching up to the given date; otherwise the
      datasource's "data up to" date moves forward to it. The app's status is left as it was. */
  method UpdateDatasourceFreshness(db: Database, id: AppId, datasourceId: string, upTo: Date) returns (r: Result<App>)
    modifies FreshnessFrame(db.apps, id, datasourceId)
    ensures old(AppWithId(db.apps, id)).None? ==> r == Err(EntityNotFound)
    ensures old(AppWithId(db.apps, id)).Some? ==>
      var a := old(AppWithId(db.apps, id)).value;
      && r == Ok(a)
      && a.status == old(a.status) && a.statusUpdatedAt == old(a.statusUpdatedAt)
      && (old(a.GetDatasource(datasourceId)).None? ==>
            |a.datasources| == |old(a.datasources)| + 1 && a.datasources[..|old(a.datasources)|] == old(a.datasources)
            && fresh(a.datasources[|old(a.datasources)|])
            && a.datasources[|old(a.datasources)|].Record() == DatasourceRecord(datasourceId, id, upTo, Some(upTo), None))
      && (old(a.GetDatasource(datasourceId)).Some? ==>
            var d := old(a.GetDatasource(datasourceId)).value;
            a.datasources == old(a.datasources) && d.hasDataUpTo == FreshnessAfter(old(d.hasDataUpTo), upTo))
  {
    var found := AppWithId(db.apps, id);
    if found.None? {
      return Err(EntityNotFound);
    }
    var a := found.value;
    var existing := a.GetDatasource(datasourceId);
    if existing.None? {
      var d := new Datasource(datasourceId, a.id, upTo, Some(upTo));
      var outcome := a.AddDatasource(d);
    } else {
      existing.value.UpdateDataFreshness(upTo);
    }
    r := Ok(a);
  }

  /** The freshness scenario: a first update of a datasource starts and ends its data on that day;
      a second, later one moves only the end. */
  lemma FreshnessScenario(first: Date, second: Date)
    requires Later(second, first)
    ensures FreshnessAfter(Some(first), second) == Some(second)
    ensures FreshnessAfter(Some(second), first) == Some(second)
  {
    LaterIsStrictTotalOrder(second, first, second);
  }

  // ---------------------------------------------------------------------------------------------
  // The read model

  /** The apps whose status is `SUCCESS`, in stored order. */
  function SuccessApps(apps: seq<App>): (r: seq<App>)
    reads apps
    ensures |r| <= |apps|
    ensures forall i :: 0 <= i < |r| ==> r[i] in apps && r[i].status == Success
    ensures forall i :: 0 <= i < |apps| && apps[i].status == Success ==> apps[i] in r
  {
    if apps == [] then []
    else
      assert forall i :: 1 <= i < |apps| ==> apps[i] == apps[1..][i - 1];
      (if apps[0].status == Success then [apps[0]] else []) + SuccessApps(apps[1..])
  }

  /** `{app.id: app for app in apps}`: a later app replaces an earlier one with the same id. */
  function AppsById(apps: seq<App>): (r: map<AppId, App>)
    ensures forall id :: id in r <==> exists i :: 0 <= i < |apps| && apps[i].id == id
    ensures forall id :: id in r ==> r[id] in apps && r[id].id == id
  {
    if apps == [] then map[]
    else
      var init := apps[..|apps| - 1];
      var last := apps[|apps| - 1];
      assert forall i :: 0 <= i < |init| ==> init[i] == apps[i];
      AppsById(init)[last.id := last]
  }

  /** With ids distinct, every app is found under its own id. */
  lemma {:induction false} AppsByIdOfDistinct(apps: seq<App>, i: nat)
    requires AppIdsDistinct(apps) && i < |apps|
    ensures AppsById(apps)[apps[i].id] == apps[i]
  {
    var n := |apps| - 1;
    if i < n {
      var init := apps[..n];
      assert init[i] == apps[i];
      assert AppIdsDistinct(init);
      AppsByIdOfDistinct(init, i);
      assert apps[n].id != apps[i].id;
    }
  }

  /** The events that are not `NOT_READY` and belong to one of the given apps, in stored order. */
  function LiveEventsOf(events: seq<Event>, ids: set<AppId>): (r: seq<Event>)
    reads events
    ensures |r| <= |events|
    ensures forall i :: 0 <= i < |r| ==> r[i] in events && r[i].status != NotReady && r[i].appId in ids
    ensures forall i :: 0 <= i < |events| && events[i].status != NotReady && events[i].appId in ids ==> events[i] in r
  {
    if events == [] then []
    else
      assert forall i :: 1 <= i < |events| ==> events[i] == events[1..][i - 1];
      var e := events[0];
      (if e.status != NotReady && e.appId in ids then [e] else []) + LiveEventsOf(events[1..], ids)
  }

  /** The events of one app, in list order. */
  function EventsOfApp(events: seq<Event>, id: AppId): (r: seq<Event>)
    ensures |r| <= |events|
    ensures forall i :: 0 <= i < |r| ==> r[i] in events && r[i].appId == id
  {
    if events == [] then []
    else
      var init := events[..|events| - 1];
      var last := events[|events| - 1];
      assert forall i :: 0 <= i < |init| ==> init[i] == events[i];
      EventsOfApp(init, id) + (if last.appId == id then [last] else [])
  }

  /** Taking one app's events distributes over concatenation. */
  lemma {:induction false} EventsOfAppAppend(a: seq<Event>, b: seq<Event>, id: AppId)
    ensures EventsOfApp(a + b, id) == EventsOfApp(a, id) + EventsOfApp(b, id)
    decreases |b|
  {
    if b == [] {
      assert a + b == a;
    } else {
      var n := |b| - 1;
      EventsOfAppAppend(a, b[..n], id);
      assert (a + b)[..|a + b| - 1] == a + b[..n];
      assert (a + b)[|a + b| - 1] == b[n];
    }
  }

  /** A list of one app's events is all that app's events. */
  lemma {:induction false} EventsOfAppOfOneApp(events: seq<Event>, id: AppId)
    requires forall k :: 0 <= k < |events| ==> events[k].appId == id
    ensures EventsOfApp(events, id) == events
    decreases |events|
  {
    if events != [] {
      var n := |events| - 1;
      EventsOfAppOfOneApp(events[..n], id);
      assert events[..n] + [events[n]] == events;
    }
  }

  /** Events none of which is the app's hold none of its events. */
  lemma {:induction false} EventsOfOtherApps(events: seq<Event>, id: AppId)
    requires forall k :: 0 <= k < |events| ==> events[k].appId != id
    ensures EventsOfApp(events, id) == []
    decreases |events|
  {
    if events != [] {
      EventsOfOtherApps(events[..|events| - 1], id);
    }
  }

  /** The `defaultdict(list)` grouping: each event appended to its app's list, in turn. */
  function Grouped(events: seq<Event>): (r: map<AppId, seq<Event>>)
  {
    if events == [] then map[]
    else
      var m := Grouped(events[..|events| - 1]);
      var e := events[|events| - 1];
      m[e.appId := (if e.appId in m then m[e.appId] else []) + [e]]
  }

  /** An app id is a key exactly when one of the events is that app's, and its list holds that
      app's events in the order of the input. */
  lemma {:induction false} GroupedIsEventsOfApp(events: seq<Event>, id: AppId)
    ensures id in Grouped(events) <==> exists i :: 0 <= i < |events| && events[i].appId == id
    ensures id in Grouped(events) ==> Grouped(events)[id] == EventsOfApp(events, id)
    ensures id !in Grouped(events) ==> EventsOfApp(events, id) == []
  {
    if events != [] {
      var init := events[..|events| - 1];
      GroupedIsEventsOfApp(init, id);
      assert forall i :: 0 <= i < |init| ==> init[i] == events[i];
    }
  }

  /** Grouping events of known apps makes keys only of known apps. */
  lemma GroupedKeys(events: seq<Event>, ids: set<AppId>)
    requires forall i :: 0 <= i < |events| ==> events[i].appId in ids
    ensures Grouped(events).Keys <= ids
  {
    forall id | id in Grouped(events) ensures id in ids {
      GroupedIsEventsOfApp(events, id);
    }
  }

  /** The loop of `get_all_success_events_by_app` that fills the `defaultdict(list)`. */
  method GroupByApp(events: seq<Event>) returns (grouped: map<AppId, seq<Event>>)
    ensures grouped == Grouped(events)
  {
    grouped := map[];
    var i := 0;
    while i < |events|
      invariant 0 <= i <= |events|
      invariant grouped == Grouped(events[..i])
    {
      var e := events[i];
      assert events[..i + 1][..i] == events[..i];
      grouped := grouped[e.appId := (if e.appId in grouped then grouped[e.appId] else []) + [e]];
      i := i + 1;
    }
    assert events[..i] == events;
  }

  /** `get_all_success_events_by_app`: the `SUCCESS` apps by id, their live events grouped by app,
      the atomic parameters, and the contexts. The query behind `event_contexts` selects the
      non-embedded contexts, so that field equals `non_embedded_event_contexts`. */
  method GetAllSuccessEventsByApp(db: Database) returns (r: EventsByApp)
    ensures var apps := SuccessApps(db.apps);
      var events := LiveEventsOf(db.events, AppsById(apps).Keys);
      && r.appsById == AppsById(apps)
      && r.eventsByApp == Grouped(events)
      && r.atomicParameters == db.atomics
      && r.eventContexts == ContextsEmbedded(db.contexts, false)
      && r.nonEmbeddedEventContexts == ContextsEmbedded(db.contexts, false)
      && r.embeddedEventContexts == ContextsEmbedded(db.contexts, true)
  {
    var apps := SuccessApps(db.apps);
    var appsById := AppsById(apps);
    var events := LiveEventsOf(db.events, appsById.Keys);
    var grouped := GroupByApp(events);
    GroupedKeys(events, appsById.Keys);
    var nonEmbedded := ContextsEmbedded(db.contexts, false);
    var built := NewEventsByApp(db.atomics, nonEmbedded, nonEmbedded, ContextsEmbedded(db.contexts, true),
                                grouped, appsById);
    r := built.value;
  }
}
