/** The pass that sets up apps (metadata/api/app/maintainer.py): once per pass the warehouse set-up
    shared by all apps, then for every app not yet `SUCCESS` an event for each common event the app
    has none of, the app's own warehouse set-up, the tables, views and registry documents of every
    context under the app, and the app marked `SUCCESS` and committed. The new events and the
    status are written even in a dry run; only the cloud calls are skipped. The first call or commit
    that raises ends the pass. */
module AppMaintainer {
  import opened Common
  import opened EntityStatus
  import opened AppIdentity
  import opened Schemas
  import opened Iglu
  import opened Events
  import opened Cloud
  import opened EventTables
  import opened Apps
  import opened Store
  import opened EventMaintainer
  import AppService

  // ---------------------------------------------------------------------------------------------
  // The apps taken up

  /** The apps the pass takes up, in stored order: those whose status is not `SUCCESS`. */
  function PendingApps(all: seq<App>): (r: seq<App>)
    reads set a | a in all
    ensures |r| <= |all|
    ensures forall i :: 0 <= i < |r| ==> r[i] in all && r[i].status != Success
    ensures forall i :: 0 <= i < |all| && all[i].status != Success ==> all[i] in r
    ensures AppIdsDistinct(all) ==> AppIdsDistinct(r)
  {
    if all == [] then []
    else
      assert forall i :: 1 <= i < |all| ==> all[i] == all[1..][i - 1];
      var rest := PendingApps(all[1..]);
      if all[0].status != Success then
        assert forall i :: 0 <= i < |rest| ==> exists j :: 1 <= j < |all| && all[j] == rest[i];
        [all[0]] + rest
      else rest
  }

  // ---------------------------------------------------------------------------------------------
  // The events an app is missing

  /** The ids of the common events that some event of the app derives from. */
  function LinkedCommonIds(events: seq<Event>, appId: AppId): (r: set<Option<int>>)
    ensures forall id :: id in r <==>
      exists i :: 0 <= i < |events| && events[i].appId == appId && events[i].parent.Some? && events[i].parent.value.id == id
  {
    set i | 0 <= i < |events| && events[i].appId == appId && events[i].parent.Some? :: events[i].parent.value.id
  }

  /** The common events whose id is not linked, in stored order. */
  function MissingCommons(commons: seq<CommonEvent>, linked: set<Option<int>>): (r: seq<CommonEvent>)
    ensures |r| <= |commons|
    ensures forall i :: 0 <= i < |r| ==> r[i] in commons && r[i].id !in linked
    ensures forall i :: 0 <= i < |commons| && commons[i].id !in linked ==> commons[i] in r
  {
    if commons == [] then []
    else
      assert forall i :: 1 <= i < |commons| ==> commons[i] == commons[1..][i - 1];
      (if commons[0].id !in linked then [commons[0]] else []) + MissingCommons(commons[1..], linked)
  }

  /** What of the event added for the common event `c` never changes: an event of `app` derived from
      `c`, with a schema under the app's vendor named as `c`'s. */
  ghost predicate LinksFor(added: seq<Event>, app: App, missing: seq<CommonEvent>)
  {
    && |added| == |missing|
    && forall k :: 0 <= k < |added| ==>
         && added[k].Valid() && added[k].appId == app.id && added[k].parent == Some(missing[k])
         && added[k].schema.vendor == app.EventVendor() && added[k].schema.name == missing[k].schema.name
         && added[k].schema.alias == None
  }

  /** The rest of what the pass adds for the common event `c`: a `NOT_READY` event with an empty
      schema carrying `c`'s description, frozen at the current version of `c`'s schema. */
  predicate AddedFor(e: Event, c: CommonEvent, now: Timestamp)
    reads e`status, e`statusUpdatedAt, e.schema`parameters, e.schema`description
    reads c.schema`parameters, c.schema`description
  {
    && e.parentVersion == Some(CurrentVersionOf(c.schema.parameters))
    && e.status == NotReady && e.statusUpdatedAt == now
    && e.schema.parameters == [] && e.schema.description == c.schema.description
  }

  /** The events `added` for the common events `missing`, one each, in order. */
  ghost predicate AddedForEach(added: seq<Event>, app: App, missing: seq<CommonEvent>, now: Timestamp)
    reads (set e | e in added)`status, (set e | e in added)`statusUpdatedAt
    reads (set e | e in added :: e.schema)`parameters, (set e | e in added :: e.schema)`description
    reads (set c | c in missing :: c.schema)`parameters, (set c | c in missing :: c.schema)`description
  {
    && LinksFor(added, app, missing)
    && forall k :: 0 <= k < |added| ==> AddedFor(added[k], missing[k], now)
  }

  /** The event of `app` for the common event `c`: `get_app_schema` and the event frozen at the
      current version of `c`'s schema. */
  method LinkedEvent(c: CommonEvent, app: App, now: Timestamp) returns (e: Event)
    requires c.Valid()
    ensures fresh(e) && fresh(e.schema) && e.id == None && e.schema.id == None
    ensures LinksFor([e], app, [c]) && AddedFor(e, c, now)
  {
    var schema := c.GetAppSchema(app);
    e := new Event(app.id, schema, Some(c), Some(c.schema.CurrentVersion()), now);
  }

  /** `_add_missing_common_events`: a new event for each common event the app has no event of; the
      events are returned, to be stored by the commit. */
  method AddMissingCommonEvents(commons: seq<CommonEvent>, events: seq<Event>, app: App, now: Timestamp)
    returns (added: seq<Event>)
    requires forall c :: c in commons ==> c.Valid()
    ensures forall k :: 0 <= k < |added| ==>
      fresh(added[k]) && fresh(added[k].schema) && added[k].id == None && added[k].schema.id == None
    ensures AddedForEach(added, app, MissingCommons(commons, LinkedCommonIds(events, app.id)), now)
  {
    var missing := MissingCommons(commons, LinkedCommonIds(events, app.id));
    added := [];
    for k := 0 to |missing|
      invariant forall j :: 0 <= j < |added| ==>
        fresh(added[j]) && fresh(added[j].schema) && added[j].id == None && added[j].schema.id == None
      invariant AddedForEach(added, app, missing[..k], now)
    {
      var e := AddNext(added, app, missing, k, now);
      added := added + [e];
    }
    assert missing[..|missing|] == missing;
  }

  /** The event for `missing[k]`, the next common event the app lacks. */
  method AddNext(added: seq<Event>, app: App, missing: seq<CommonEvent>, k: nat, now: Timestamp) returns (e: Event)
    requires k < |missing| && missing[k].Valid() && AddedForEach(added, app, missing[..k], now)
    ensures fresh(e) && fresh(e.schema) && e.id == None && e.schema.id == None
    ensures AddedForEach(added + [e], app, missing[..k + 1], now)
  {
    e := LinkedEvent(missing[k], app, now);
    AddedForEachAppend(added, e, app, missing[..k], missing[k], now);
    assert missing[..k + 1] == missing[..k] + [missing[k]];
  }

  /** One more event added for one more common event. */
  lemma AddedForEachAppend(added: seq<Event>, e: Event, app: App, missing: seq<CommonEvent>, c: CommonEvent,
                           now: Timestamp)
    requires AddedForEach(added, app, missing, now) && LinksFor([e], app, [c]) && AddedFor(e, c, now)
    ensures AddedForEach(added + [e], app, missing + [c], now)
  {
    var all := added + [e];
    forall k | 0 <= k < |all| ensures AddedFor(all[k], (missing + [c])[k], now) {
      if k < |added| {
        assert all[k] == added[k] && (missing + [c])[k] == missing[k];
      }
    }
    assert LinksFor(all, app, missing + [c]) by {
      forall k | 0 <= k < |all|
        ensures all[k].Valid() && all[k].appId == app.id && all[k].parent == Some((missing + [c])[k])
      {
        if k < |added| {
          assert all[k] == added[k] && (missing + [c])[k] == missing[k];
        } else {
          assert all[k] == [e][0];
        }
      }
    }
  }

  /** Once the new events are stored, the app has an event of every common event, so a second pass
      adds nothing. */
  lemma EveryCommonLinked(events: seq<Event>, added: seq<Event>, app: App, commons: seq<CommonEvent>)
    requires LinksFor(added, app, MissingCommons(commons, LinkedCommonIds(events, app.id)))
    ensures forall c :: c in commons ==> c.id in LinkedCommonIds(events + added, app.id)
    ensures MissingCommons(commons, LinkedCommonIds(events + added, app.id)) == []
  {
    var missing := MissingCommons(commons, LinkedCommonIds(events, app.id));
    var all := events + added;
    forall c | c in commons ensures c.id in LinkedCommonIds(all, app.id) {
      var i :| 0 <= i < |commons| && commons[i] == c;
      if c.id in LinkedCommonIds(events, app.id) {
        var j :| 0 <= j < |events| && events[j].appId == app.id && events[j].parent.Some? && events[j].parent.value.id == c.id;
        assert all[j] == events[j];
      } else {
        var k :| 0 <= k < |missing| && missing[k] == c;
        assert all[|events| + k] == added[k];
      }
    }
    NothingMissing(commons, LinkedCommonIds(all, app.id));
  }

  lemma {:induction false} NothingMissing(commons: seq<CommonEvent>, linked: set<Option<int>>)
    requires forall c :: c in commons ==> c.id in linked
    ensures MissingCommons(commons, linked) == []
  {
    if commons != [] {
      NothingMissing(commons[1..], linked);
    }
  }

  /** Events of other apps neither link an app to a common event nor take one of its names. */
  lemma OtherAppsEvents(events: seq<Event>, added: seq<Event>, appId: AppId, name: string)
    requires forall k :: 0 <= k < |added| ==> added[k].appId != appId
    ensures LinkedCommonIds(events + added, appId) == LinkedCommonIds(events, appId)
    ensures EventNamed(events + added, appId, name) == EventNamed(events, appId, name)
  {
    var all := events + added;
    forall id | id in LinkedCommonIds(all, appId) ensures id in LinkedCommonIds(events, appId) {
      var i :| 0 <= i < |all| && all[i].appId == appId && all[i].parent.Some? && all[i].parent.value.id == id;
      assert i < |events|;
    }
    forall id | id in LinkedCommonIds(events, appId) ensures id in LinkedCommonIds(all, appId) {
      var i :| 0 <= i < |events| && events[i].appId == appId && events[i].parent.Some? && events[i].parent.value.id == id;
      assert all[i] == events[i];
    }
    EventNamedAppendOthers(events, added, appId, name);
  }

  lemma {:induction false} EventNamedAppendOthers(events: seq<Event>, added: seq<Event>, appId: AppId, name: string)
    requires forall k :: 0 <= k < |added| ==> added[k].appId != appId
    ensures EventNamed(events + added, appId, name) == EventNamed(events, appId, name)
    decreases |added|
  {
    if added == [] {
      assert events + added == events;
    } else {
      var n := |added| - 1;
      EventNamedAppendOthers(events, added[..n], appId, name);
      assert events + added == (events + added[..n]) + [added[n]];
      EventNamedAfterAppend(events + added[..n], added[n], appId, name);
    }
  }

  /** A link, once there, stays when more events are stored. */
  lemma LinksStay(events: seq<Event>, added: seq<Event>, appId: AppId)
    ensures LinkedCommonIds(events, appId) <= LinkedCommonIds(events + added, appId)
  {
    forall id | id in LinkedCommonIds(events, appId) ensures id in LinkedCommonIds(events + added, appId) {
      var i :| 0 <= i < |events| && events[i].appId == appId && events[i].parent.Some? && events[i].parent.value.id == id;
      assert (events + added)[i] == events[i];
    }
  }

  // ---------------------------------------------------------------------------------------------
  // The commit

  /** Whether the commit of an app's new events goes through: the unique (vendor, name) of schemas
      refuses a name one of the app's events already has, or one two new events share. */
  predicate CommitGoesThrough(events: seq<Event>, appId: AppId, missing: seq<CommonEvent>)
  {
    && (forall k :: 0 <= k < |missing| ==> EventNamed(events, appId, missing[k].schema.name).None?)
    && (forall j, k :: 0 <= j < k < |missing| ==> missing[j].schema.name != missing[k].schema.name)
  }

  /** The commit of the new events of `app`: each with its schema gets the next two ids and is
      stored last, in order; the events stay as `AddedForEach` describes them. */
  method StoreAdded(db: Database, app: App, added: seq<Event>, ghost missing: seq<CommonEvent>, ghost now: Timestamp)
    requires db.Valid() && app in db.apps
    requires AddedForEach(added, app, missing, now) && CommitGoesThrough(db.events, app.id, missing)
    modifies db`events, db`lastId, added`id, (set e | e in added :: e.schema)`id
    ensures db.Valid() && db.events == old(db.events) + added && db.lastId == old(db.lastId) + 2 * |added|
    ensures AddedForEach(added, app, missing, now)
  {
    AppWithIdIsStored(db.apps, app);
    for i := 0 to |added|
      invariant db.Valid() && db.events == old(db.events) + added[..i] && db.lastId == old(db.lastId) + 2 * i
      invariant NamesFree(db.events, app.id, added, i) && AddedForEach(added, app, missing, now)
    {
      StoreNext(db, app, added, missing, i, now);
      assert added[..i + 1] == added[..i] + [added[i]];
    }
    assert added[..|added|] == added;
  }

  /** The session's commit of one app's turn: refused, with nothing written, when the new events'
      unique names clash; otherwise the new events are stored. Events `earlier` turns added stay as
      `EachAddedFor` describes them. */
  method Commit(db: Database, app: App, added: seq<Event>, missing: seq<CommonEvent>, ghost now: Timestamp,
                ghost earlier: seq<Event>)
    returns (stored: bool)
    requires db.Valid() && app in db.apps && AddedForEach(added, app, missing, now) && EachAddedFor(earlier, now)
    modifies db`events, db`lastId, added`id, (set e | e in added :: e.schema)`id
    ensures db.Valid() && AddedForEach(added, app, missing, now) && EachAddedFor(earlier, now)
    ensures stored == CommitGoesThrough(old(db.events), app.id, missing)
    ensures stored ==> db.events == old(db.events) + added && db.lastId == old(db.lastId) + 2 * |added|
    ensures !stored ==> db.events == old(db.events) && db.lastId == old(db.lastId)
  {
    stored := CommitGoesThrough(db.events, app.id, missing);
    if stored {
      StoreAdded(db, app, added, missing, now);
    }
  }

  /** None of the names of `added` from `i` on is taken by an event of the app. */
  predicate NamesFree(events: seq<Event>, appId: AppId, added: seq<Event>, i: nat)
  {
    forall k :: i <= k < |added| ==> EventNamed(events, appId, added[k].schema.name).None?
  }

  /** One step of the commit: the `i`th new event is stored, and the new events stay as
      `AddedForEach` describes them. */
  method StoreNext(db: Database, app: App, added: seq<Event>, ghost missing: seq<CommonEvent>, i: nat,
                   ghost now: Timestamp)
    requires db.Valid() && AppWithId(db.apps, app.id) == Some(app) && i < |added|
    requires AddedForEach(added, app, missing, now) && CommitGoesThrough([], app.id, missing)
    requires NamesFree(db.events, app.id, added, i)
    modifies db`events, db`lastId, (added[i] as Event)`id, (added[i] as Event).schema`id
    ensures db.Valid() && db.events == old(db.events) + [added[i]] && db.lastId == old(db.lastId) + 2
    ensures NamesFree(db.events, app.id, added, i + 1) && AddedForEach(added, app, missing, now)
  {
    forall k | i < k < |added| ensures EventNamed(db.events + [added[i]], app.id, added[k].schema.name).None? {
      EventNamedAfterAppend(db.events, added[i], app.id, added[k].schema.name);
    }
    StoreEvent(db, added[i]);
  }

  /** The app found by its id is the app, with ids distinct. */
  lemma AppWithIdIsStored(apps: seq<App>, app: App)
    requires AppIdsDistinct(apps) && app in apps
    ensures AppWithId(apps, app.id) == Some(app)
  {
    var i :| 0 <= i < |apps| && apps[i] == app;
    AppWithIdIsTheOnly(apps, app.id, i);
  }

  // ---------------------------------------------------------------------------------------------
  // The cloud calls of one app

  /** What the pass needs of one context: its schema and its registry documents. */
  datatype ContextJob = ContextJob(view: SchemaView, docs: seq<IgluSchema>)

  function ContextJobs(contexts: seq<EventContext>): (r: seq<ContextJob>)
    requires forall c :: c in contexts ==> c.Valid()
    reads set c | c in contexts :: c.schema
    ensures |r| == |contexts|
    ensures forall i :: 0 <= i < |contexts| ==> r[i] == ContextJob(contexts[i].GetSchema(), contexts[i].ToIgluSchemas())
  {
    seq(|contexts|, i requires 0 <= i < |contexts| reads set c | c in contexts :: c.schema =>
      ContextJob(contexts[i].GetSchema(), contexts[i].ToIgluSchemas()))
  }

  /** A planner that plans every turn, as one with no embedded contexts does. */
  ghost predicate AlwaysPlans(planner: Planner)
  {
    forall s, job :: planner(s, job).Ok?
  }

  /** How the app pass plans each context's turn: `TurnCalls` with no embedded contexts and calls
      made, which never fails. */
  function ContextPlanner(project: string, atomics: seq<AtomicParameter>): (r: Planner)
    ensures PlansTurns(r, project, [], atomics, false) && AlwaysPlans(r)
  {
    var planner := TurnPlanner(project, [], atomics, false);
    forall s, job ensures planner(s, job).Ok? {
      assert planner(s, job) == TurnCalls(s, project, job, [], atomics, false);
    }
    planner
  }

  /** `_process_event_contexts` from state `s`: for each context in turn, `maintain_event_table`
      under the app, then the upload of each of the context's documents. */
  function ContextCalls(s: State, planner: Planner, appId: AppId, ctxs: seq<ContextJob>): (r: seq<Effect>)
    requires AlwaysPlans(planner)
    decreases |ctxs|
  {
    if ctxs == [] then []
    else
      var c := planner(s, Job(appId, ctxs[0].view, ctxs[0].docs)).value;
      c + ContextCalls(Replay(s, c), planner, appId, ctxs[1..])
  }

  /** Every document of every context is uploaded under the app. */
  lemma {:induction false} ContextCallsUploadEveryDocument(s: State, project: string, atomics: seq<AtomicParameter>,
                                                          appId: AppId, ctxs: seq<ContextJob>, i: nat, d: nat)
    requires i < |ctxs| && d < |ctxs[i].docs|
    ensures Upload(ctxs[i].docs[d].path, ctxs[i].docs[d].schema) in
      ContextCalls(s, ContextPlanner(project, atomics), appId, ctxs)
    decreases |ctxs|
  {
    var planner := ContextPlanner(project, atomics);
    var job := Job(appId, ctxs[0].view, ctxs[0].docs);
    assert planner(s, job) == TurnCalls(s, project, job, [], atomics, false);
    var c := planner(s, job).value;
    var rest := ContextCalls(Replay(s, c), planner, appId, ctxs[1..]);
    var u := Upload(ctxs[i].docs[d].path, ctxs[i].docs[d].schema);
    assert ContextCalls(s, planner, appId, ctxs) == c + rest;
    if i == 0 {
      TurnUploadsDocument(s, project, job, [], atomics, d);
      assert u in c;
    } else {
      assert ctxs[i] == ctxs[1..][i - 1];
      ContextCallsUploadEveryDocument(Replay(s, c), project, atomics, appId, ctxs[1..], i - 1, d);
      assert u in rest;
    }
  }

  /** The cloud calls of one app's turn: `bigquery_single_app.process`, then the contexts. */
  function AppCalls(s: State, planner: Planner, appId: AppId, ctxs: seq<ContextJob>): (r: seq<Effect>)
    requires AlwaysPlans(planner)
    ensures |r| >= 1 && r[0] == SetUpApp(appId.value)
    ensures r[1..] == ContextCalls(s, planner, appId, ctxs)
  {
    [SetUpApp(appId.value)] + ContextCalls(s, planner, appId, ctxs)
  }

  /** The calls of `_process_event_contexts`, made until the first that raises. */
  method SetUpContexts(cloud: Client, appId: AppId, ctxs: seq<ContextJob>, atomics: seq<AtomicParameter>,
                       ghost planner: Planner)
    returns (outcome: Outcome, ghost calls: seq<Effect>)
    requires cloud.Valid() && PlansTurns(planner, cloud.project, [], atomics, false) && AlwaysPlans(planner)
    modifies cloud`state, cloud`trace
    ensures cloud.Valid()
    ensures var plan := ContextCalls(old(cloud.state), planner, appId, ctxs);
      outcome == RunOutcome(plan, cloud.failing) && calls == plan[..Reached(plan, cloud.failing)]
    ensures cloud.trace == old(cloud.trace) + calls && cloud.state == Replay(old(cloud.state), calls)
  {
    ghost var whole := ContextCalls(cloud.state, planner, appId, ctxs);
    calls := [];
    for i := 0 to |ctxs|
      invariant cloud.Valid() && ContextsSoFar(whole, calls, cloud.state, planner, appId, ctxs[i..], cloud.failing)
      invariant cloud.trace == old(cloud.trace) + calls && cloud.state == Replay(old(cloud.state), calls)
    {
      var o; ghost var made;
      o, made := SetUpContext(cloud, appId, ctxs[i..], atomics, planner, whole, calls);
      ReplayAppend(old(cloud.state), calls, made);
      CallsAppend(old(cloud.trace), calls, made);
      calls := calls + made;
      if o.Fail? {
        return o, calls;
      }
      assert ctxs[i..][1..] == ctxs[i + 1..];
    }
    assert whole == calls;
    assert calls[..Reached(calls, cloud.failing)] == calls;
    outcome := Pass;
  }

  /** The calls of the contexts so far all went through, and the rest are those of `ctxs`. */
  ghost predicate ContextsSoFar(whole: seq<Effect>, sofar: seq<Effect>, s: State, planner: Planner, appId: AppId,
                                ctxs: seq<ContextJob>, failing: set<Effect>)
  {
    && AlwaysPlans(planner)
    && Reached(sofar, failing) == |sofar|
    && whole == sofar + ContextCalls(s, planner, appId, ctxs)
  }

  /** One context's turn: `maintain_event_table` and its uploads. */
  method SetUpContext(cloud: Client, appId: AppId, ctxs: seq<ContextJob>, atomics: seq<AtomicParameter>,
                      ghost planner: Planner, ghost whole: seq<Effect>, ghost sofar: seq<Effect>)
    returns (outcome: Outcome, ghost made: seq<Effect>)
    requires cloud.Valid() && PlansTurns(planner, cloud.project, [], atomics, false) && ctxs != []
    requires ContextsSoFar(whole, sofar, cloud.state, planner, appId, ctxs, cloud.failing)
    modifies cloud`state, cloud`trace
    ensures cloud.Valid()
    ensures cloud.trace == old(cloud.trace) + made && cloud.state == Replay(old(cloud.state), made)
    ensures outcome.Fail? ==>
      outcome == RunOutcome(whole, cloud.failing) && sofar + made == whole[..Reached(whole, cloud.failing)]
    ensures outcome.Pass? ==> ContextsSoFar(whole, sofar + made, cloud.state, planner, appId, ctxs[1..], cloud.failing)
  {
    ghost var s := cloud.state;
    var job := Job(appId, ctxs[0].view, ctxs[0].docs);
    ghost var c := planner(s, job).value;
    ghost var rest := ContextCalls(Replay(s, c), planner, appId, ctxs[1..]);
    assert whole == sofar + (c + rest);
    outcome, made := Publish(cloud, job, [], atomics, false, planner);
    assert outcome == RunOutcome(c, cloud.failing) && made == c[..Reached(c, cloud.failing)];
    if outcome.Fail? {
      RunThen(sofar, c + rest, cloud.failing);
      RunStops(c, rest, cloud.failing);
    } else {
      assert made == c;
      ReachedAppend(sofar, c, cloud.failing);
      CallsAppend(sofar, c, rest);
      assert cloud.state == Replay(s, c);
    }
  }

  // ---------------------------------------------------------------------------------------------
  // One app's turn

  /** The cloud calls of one app's turn: none in a dry run. */
  function AppTurnCalls(s: State, planner: Planner, appId: AppId, ctxs: seq<ContextJob>, dryRun: bool): (r: seq<Effect>)
    requires AlwaysPlans(planner)
    ensures dryRun ==> r == []
    ensures !dryRun ==> |r| >= 1 && r[0] == SetUpApp(appId.value)
  {
    if dryRun then [] else AppCalls(s, planner, appId, ctxs)
  }

  /** One app's turn up to its commit: its missing events are made, then (unless in a dry run) its
      set-up and contexts are called, then the commit stores the new events. A call that raises ends
      the turn with nothing written; so does a commit the unique names refuse. The app itself is
      marked by `MarkDone`, which the same commit writes. Events `earlier` turns of the pass added
      stay as `EachAddedFor` describes them. */
  method AppTurn(db: Database, cloud: Client, app: App, commons: seq<CommonEvent>, ctxs: seq<ContextJob>,
                 atomics: seq<AtomicParameter>, dryRun: bool, now: Timestamp, ghost planner: Planner,
                 ghost earlier: seq<Event>)
    returns (outcome: Outcome, ghost calls: seq<Effect>, added: seq<Event>)
    requires db.Valid() && cloud.Valid() && app in db.apps && forall c :: c in commons ==> c.Valid()
    requires EachAddedFor(earlier, now)
    requires PlansTurns(planner, cloud.project, [], atomics, false) && AlwaysPlans(planner)
    modifies cloud`state, cloud`trace, db`events, db`lastId
    ensures cloud.Valid() && db.Valid()
    ensures var plan := AppTurnCalls(old(cloud.state), planner, app.id, ctxs, dryRun);
      calls == plan[..Reached(plan, cloud.failing)]
      && outcome == (if Reached(plan, cloud.failing) < |plan| then Fail(CollaboratorFailure)
                     else if CommitGoesThrough(old(db.events), app.id, MissingCommons(commons, LinkedCommonIds(old(db.events), app.id)))
                     then Pass else Fail(IntegrityError))
    ensures cloud.trace == old(cloud.trace) + calls && cloud.state == Replay(old(cloud.state), calls)
    ensures outcome.Pass? ==> AddedForEach(added, app, MissingCommons(commons, LinkedCommonIds(old(db.events), app.id)), now)
    ensures outcome.Pass? ==> db.events == old(db.events) + added && db.lastId == old(db.lastId) + 2 * |added|
    ensures outcome.Fail? ==> db.events == old(db.events) && db.lastId == old(db.lastId)
    ensures EachAddedFor(earlier, now)
  {
    var missing := MissingCommons(commons, LinkedCommonIds(db.events, app.id));
    added := AddMissingCommonEvents(commons, db.events, app, now);
    outcome, calls := CloudTurn(cloud, app.id, ctxs, atomics, dryRun, planner, earlier, now);
    if outcome.Pass? {
      var stored := Commit(db, app, added, missing, now, earlier);
      if !stored {
        outcome := Fail(IntegrityError);
      }
    }
  }

  /** The cloud part of one app's turn: nothing in a dry run, otherwise its set-up and contexts up to
      the first call that raises. Events `earlier` turns added stay as `EachAddedFor` describes them. */
  method CloudTurn(cloud: Client, appId: AppId, ctxs: seq<ContextJob>, atomics: seq<AtomicParameter>, dryRun: bool,
                   ghost planner: Planner, ghost earlier: seq<Event>, ghost now: Timestamp)
    returns (outcome: Outcome, ghost calls: seq<Effect>)
    requires cloud.Valid() && PlansTurns(planner, cloud.project, [], atomics, false) && AlwaysPlans(planner)
    requires EachAddedFor(earlier, now)
    modifies cloud`state, cloud`trace
    ensures cloud.Valid() && EachAddedFor(earlier, now)
    ensures var plan := AppTurnCalls(old(cloud.state), planner, appId, ctxs, dryRun);
      calls == plan[..Reached(plan, cloud.failing)]
      && outcome == (if Reached(plan, cloud.failing) < |plan| then Fail(CollaboratorFailure) else Pass)
    ensures cloud.trace == old(cloud.trace) + calls && cloud.state == Replay(old(cloud.state), calls)
  {
    ghost var plan := AppTurnCalls(cloud.state, planner, appId, ctxs, dryRun);
    outcome, calls := Pass, [];
    if !dryRun {
      outcome, calls := SetUpAppInCloud(cloud, appId, ctxs, atomics, planner);
    } else {
      assert plan == [];
    }
  }

  /** `bigquery_single_app.process` and `_process_event_contexts`, until the first call that raises. */
  method SetUpAppInCloud(cloud: Client, appId: AppId, ctxs: seq<ContextJob>, atomics: seq<AtomicParameter>,
                         ghost planner: Planner)
    returns (outcome: Outcome, ghost calls: seq<Effect>)
    requires cloud.Valid() && PlansTurns(planner, cloud.project, [], atomics, false) && AlwaysPlans(planner)
    modifies cloud`state, cloud`trace
    ensures cloud.Valid()
    ensures var plan := AppCalls(old(cloud.state), planner, appId, ctxs);
      outcome == RunOutcome(plan, cloud.failing) && calls == plan[..Reached(plan, cloud.failing)]
    ensures cloud.trace == old(cloud.trace) + calls && cloud.state == Replay(old(cloud.state), calls)
  {
    ghost var s := cloud.state;
    ghost var rest := ContextCalls(s, planner, appId, ctxs);
    ghost var plan := AppCalls(s, planner, appId, ctxs);
    assert plan == [SetUpApp(appId.value)] + rest;
    outcome := cloud.Perform(SetUpApp(appId.value));
    if outcome.Fail? {
      RunStops([SetUpApp(appId.value)], rest, cloud.failing);
      return outcome, [];
    }
    assert cloud.state == s;
    ghost var made;
    outcome, made := SetUpContexts(cloud, appId, ctxs, atomics, planner);
    RunThen([SetUpApp(appId.value)], rest, cloud.failing);
    calls := [SetUpApp(appId.value)] + made;
    ReplayAppend(s, [SetUpApp(appId.value)], made);
    CallsAppend(old(cloud.trace), [SetUpApp(appId.value)], made);
  }

  // ---------------------------------------------------------------------------------------------
  // The pass over the apps

  /** What the pass needs of one app: its id, and whether the commit of its new events goes through. */
  datatype AppJob = AppJob(appId: AppId, commits: bool)

  /** The app's missing events and whether their commit goes through, against the stored events. */
  function AppJobs(pending: seq<App>, commons: seq<CommonEvent>, events: seq<Event>): (r: seq<AppJob>)
    ensures |r| == |pending|
    ensures forall i :: 0 <= i < |pending| ==>
      && r[i].appId == pending[i].id
      && r[i].commits == CommitGoesThrough(events, pending[i].id, MissingCommons(commons, LinkedCommonIds(events, pending[i].id)))
  {
    seq(|pending|, i requires 0 <= i < |pending| =>
      AppJob(pending[i].id, CommitGoesThrough(events, pending[i].id, MissingCommons(commons, LinkedCommonIds(events, pending[i].id)))))
  }

  /** The pass from state `s`, app by app: a call that raises or a commit refused ends the pass there,
      and that app stays as it was. */
  function AppPass(s: State, jobs: seq<AppJob>, planner: Planner, ctxs: seq<ContextJob>, dryRun: bool,
                   failing: set<Effect>): (r: PassResult)
    requires AlwaysPlans(planner)
    ensures r.handled <= |jobs|
    ensures r.outcome.Pass? <==> r.handled == |jobs|
    decreases |jobs|
  {
    if jobs == [] then PassResult([], 0, Pass)
    else
      var c := AppTurnCalls(s, planner, jobs[0].appId, ctxs, dryRun);
      var k := Reached(c, failing);
      if k < |c| then PassResult(c[..k], 0, Fail(CollaboratorFailure))
      else if !jobs[0].commits then PassResult(c, 0, Fail(IntegrityError))
      else
        var rest := AppPass(Replay(s, c), jobs[1..], planner, ctxs, dryRun, failing);
        PassResult(c + rest.calls, rest.handled + 1, rest.outcome)
  }

  /** The whole of `process_non_success` from state `s`: nothing when no app is pending; otherwise,
      unless in a dry run, `bigquery_all_apps.process` once, then the pass over the apps. */
  function MaintainApps(s: State, jobs: seq<AppJob>, planner: Planner, ctxs: seq<ContextJob>, dryRun: bool,
                        failing: set<Effect>): (r: PassResult)
    requires AlwaysPlans(planner)
    ensures jobs == [] ==> r == PassResult([], 0, Pass)
    ensures r.handled <= |jobs|
    ensures r.outcome.Pass? <==> r.handled == |jobs|
    ensures jobs != [] && !dryRun && SetUpAllApps in failing ==> r == PassResult([], 0, Fail(CollaboratorFailure))
  {
    if jobs == [] then PassResult([], 0, Pass)
    else if dryRun then AppPass(s, jobs, planner, ctxs, dryRun, failing)
    else if SetUpAllApps in failing then PassResult([], 0, Fail(CollaboratorFailure))
    else
      var r := AppPass(s, jobs, planner, ctxs, dryRun, failing);
      PassResult([SetUpAllApps] + r.calls, r.handled, r.outcome)
  }

  /** In a dry run nothing is called, and the pass handles every app up to the first whose commit
      is refused. */
  lemma {:induction false} DryRunHandlesUpToRefusedCommit(s: State, jobs: seq<AppJob>, planner: Planner,
                                                          ctxs: seq<ContextJob>, failing: set<Effect>)
    requires AlwaysPlans(planner)
    ensures var r := AppPass(s, jobs, planner, ctxs, true, failing);
      && r.calls == []
      && (forall i :: 0 <= i < r.handled ==> jobs[i].commits)
      && (r.handled < |jobs| ==> !jobs[r.handled].commits && r.outcome == Fail(IntegrityError))
    decreases |jobs|
  {
    if jobs != [] {
      assert Reached([], failing) == 0;
      DryRunHandlesUpToRefusedCommit(Replay(s, []), jobs[1..], planner, ctxs, failing);
      assert forall i :: 1 <= i < |jobs| ==> jobs[i] == jobs[1..][i - 1];
    }
  }

  /** A pass that gets to the end has, for every app, called its set-up and uploaded every document
      of every context under it. */
  lemma {:induction false} CompletePassSetsUpEveryApp(s: State, jobs: seq<AppJob>, project: string,
                                                      ctxs: seq<ContextJob>, atomics: seq<AtomicParameter>,
                                                      failing: set<Effect>, i: nat)
    requires AppPass(s, jobs, ContextPlanner(project, atomics), ctxs, false, failing).outcome.Pass? && i < |jobs|
    ensures SetUpApp(jobs[i].appId.value) in AppPass(s, jobs, ContextPlanner(project, atomics), ctxs, false, failing).calls
    ensures forall j, d :: 0 <= j < |ctxs| && 0 <= d < |ctxs[j].docs| ==>
      Upload(ctxs[j].docs[d].path, ctxs[j].docs[d].schema) in AppPass(s, jobs, ContextPlanner(project, atomics), ctxs, false, failing).calls
    ensures jobs[i].commits
    decreases |jobs|
  {
    var planner := ContextPlanner(project, atomics);
    var c := AppCalls(s, planner, jobs[0].appId, ctxs);
    var rest := AppPass(Replay(s, c), jobs[1..], planner, ctxs, false, failing);
    var calls := AppPass(s, jobs, planner, ctxs, false, failing).calls;
    assert calls == c + rest.calls;
    forall j, d | 0 <= j < |ctxs| && 0 <= d < |ctxs[j].docs|
      ensures Upload(ctxs[j].docs[d].path, ctxs[j].docs[d].schema) in calls
    {
      ContextCallsUploadEveryDocument(s, project, atomics, jobs[0].appId, ctxs, j, d);
      assert Upload(ctxs[j].docs[d].path, ctxs[j].docs[d].schema) in c[1..];
    }
    if i == 0 {
      assert calls[0] == c[0];
    } else {
      assert jobs[i] == jobs[1..][i - 1];
      CompletePassSetsUpEveryApp(Replay(s, c), jobs[1..], project, ctxs, atomics, failing, i - 1);
    }
  }

  /** What one app's turn did from state `s`: its calls up to the first that raises, and then the
      commit. */
  ghost predicate AppTurnResult(s: State, job: AppJob, planner: Planner, ctxs: seq<ContextJob>, dryRun: bool,
                                failing: set<Effect>, outcome: Outcome, calls: seq<Effect>)
  {
    && AlwaysPlans(planner)
    && var plan := AppTurnCalls(s, planner, job.appId, ctxs, dryRun);
    && calls == plan[..Reached(plan, failing)]
    && outcome == if Reached(plan, failing) < |plan| then Fail(CollaboratorFailure)
                  else if job.commits then Pass else Fail(IntegrityError)
  }

  /** A turn moves the pass on by one app: a turn that fails is where the whole pass ends, and a
      passing one leaves the rest of the pass to run from the state its calls left. */
  lemma AppTurnAdvancesPass(whole: PassResult, sofar: seq<Effect>, s: State, jobs: seq<AppJob>, i: nat,
                            planner: Planner, ctxs: seq<ContextJob>, dryRun: bool,
                            failing: set<Effect>, outcome: Outcome, calls: seq<Effect>)
    requires AlwaysPlans(planner) && i < |jobs| && ContinuesAs(whole, sofar, i, AppPass(s, jobs[i..], planner, ctxs, dryRun, failing))
    requires AppTurnResult(s, jobs[i], planner, ctxs, dryRun, failing, outcome, calls)
    ensures outcome.Fail? ==> whole == PassResult(sofar + calls, i, outcome)
    ensures outcome.Pass? ==>
      ContinuesAs(whole, sofar + calls, i + 1, AppPass(Replay(s, calls), jobs[i + 1..], planner, ctxs, dryRun, failing))
  {
    assert jobs[i..][0] == jobs[i] && jobs[i..][1..] == jobs[i + 1..];
    var plan := AppTurnCalls(s, planner, jobs[i].appId, ctxs, dryRun);
    if Reached(plan, failing) == |plan| {
      assert plan[..|plan|] == plan;
    }
    if outcome.Pass? {
      var next := AppPass(Replay(s, calls), jobs[i + 1..], planner, ctxs, dryRun, failing);
      CallsAppend(sofar, calls, next.calls);
    }
  }

  /** The ids of the first `n` pending apps. */
  function IdsBefore(pending: seq<App>, n: nat): (r: set<AppId>)
    ensures forall id :: id in r <==> exists j :: 0 <= j < n && j < |pending| && pending[j].id == id
  {
    set j | 0 <= j < n && j < |pending| :: pending[j].id
  }

  /** What the pass did to the events after `n` apps: the stored events are kept, every event added
      belongs to one of those apps, and each of those apps has an event of every common event. */
  ghost predicate EventsSoFar(events: seq<Event>, before: seq<Event>, pending: seq<App>, n: nat, commons: seq<CommonEvent>)
  {
    && |before| <= |events| && events[..|before|] == before
    && (forall k :: |before| <= k < |events| ==> events[k].appId in IdsBefore(pending, n))
    && (forall j, c :: 0 <= j < n && j < |pending| && c in commons ==> c.id in LinkedCommonIds(events, pending[j].id))
  }

  /** What the pass added for each of the first `n` apps, among the events `added` after the ones
      stored `before`: one event per common event the app was missing, in order, each linked to its
      common event as `LinksFor` says. */
  ghost predicate LinkedSoFar(added: seq<Event>, before: seq<Event>, pending: seq<App>, n: nat,
                              commons: seq<CommonEvent>)
  {
    forall j :: 0 <= j < n && j < |pending| ==>
      LinksFor(AppService.EventsOfApp(added, pending[j].id), pending[j],
               MissingCommons(commons, LinkedCommonIds(before, pending[j].id)))
  }

  /** Each of the events `added` derives from a common event and is as `AddedFor` says of it: a
      `NOT_READY` event stamped `now`, frozen at its common event's current version. */
  ghost predicate EachAddedFor(added: seq<Event>, now: Timestamp)
    reads (set e | e in added)`status, (set e | e in added)`statusUpdatedAt
    reads (set e | e in added :: e.schema)`parameters, (set e | e in added :: e.schema)`description
    reads (set e | e in added && e.parent.Some? :: e.parent.value.schema)`parameters
    reads (set e | e in added && e.parent.Some? :: e.parent.value.schema)`description
  {
    forall k :: 0 <= k < |added| ==> added[k].parent.Some? && AddedFor(added[k], added[k].parent.value, now)
  }

  /** The first `n` pending apps are `SUCCESS` as of `now`, and the others as they were. */
  predicate AppsDone(pending: seq<App>, before: seq<Stamp>, n: nat, now: Timestamp)
    reads set a | a in pending
  {
    && |before| == |pending| && n <= |pending|
    && forall j :: 0 <= j < |pending| ==>
         Stamp(pending[j].status, pending[j].statusUpdatedAt) == if j < n then Stamp(Success, now) else before[j]
  }

  /** Events other apps added change neither what an app is missing nor whether its commit goes
      through. */
  lemma CommitUnaffectedByOthers(events: seq<Event>, more: seq<Event>, appId: AppId, commons: seq<CommonEvent>)
    requires forall k :: 0 <= k < |more| ==> more[k].appId != appId
    ensures LinkedCommonIds(events + more, appId) == LinkedCommonIds(events, appId)
    ensures var missing := MissingCommons(commons, LinkedCommonIds(events, appId));
      CommitGoesThrough(events + more, appId, missing) == CommitGoesThrough(events, appId, missing)
  {
    var missing := MissingCommons(commons, LinkedCommonIds(events, appId));
    OtherAppsEvents(events, more, appId, []);
    forall k | 0 <= k < |missing|
      ensures EventNamed(events + more, appId, missing[k].schema.name) == EventNamed(events, appId, missing[k].schema.name)
    {
      OtherAppsEvents(events, more, appId, missing[k].schema.name);
    }
  }

  /** The turn of `pending[i]` up to its commit, with what it did to the events. */
  method AppStep(db: Database, cloud: Client, pending: seq<App>, jobs: seq<AppJob>, i: nat, ctxs: seq<ContextJob>,
                 atomics: seq<AtomicParameter>, dryRun: bool, now: Timestamp, ghost planner: Planner,
                 ghost oldEvents: seq<Event>)
    returns (outcome: Outcome, ghost calls: seq<Effect>)
    requires db.Valid() && cloud.Valid() && PlansTurns(planner, cloud.project, [], atomics, false) && AlwaysPlans(planner)
    requires AppIdsDistinct(pending) && i < |pending| && forall j :: 0 <= j < |pending| ==> pending[j] in db.apps
    requires jobs == AppJobs(pending, db.commonEvents, oldEvents)
    requires EventsSoFar(db.events, oldEvents, pending, i, db.commonEvents)
    requires LinkedSoFar(db.events[|oldEvents|..], oldEvents, pending, i, db.commonEvents)
    requires EachAddedFor(db.events[|oldEvents|..], now)
    modifies cloud`state, cloud`trace, db`events, db`lastId
    ensures db.Valid() && cloud.Valid()
    ensures AppTurnResult(old(cloud.state), jobs[i], planner, ctxs, dryRun, cloud.failing, outcome, calls)
    ensures cloud.trace == old(cloud.trace) + calls && cloud.state == Replay(old(cloud.state), calls)
    ensures EventsSoFar(db.events, oldEvents, pending, if outcome.Pass? then i + 1 else i, db.commonEvents)
    ensures LinkedSoFar(db.events[|oldEvents|..], oldEvents, pending, if outcome.Pass? then i + 1 else i, db.commonEvents)
    ensures EachAddedFor(db.events[|oldEvents|..], now)
  {
    var app := pending[i];
    ghost var events := db.events;
    ghost var sofar := events[|oldEvents|..];
    JobStillHolds(events, oldEvents, pending, jobs, i, db.commonEvents);
    var added;
    outcome, calls, added := AppTurn(db, cloud, app, db.commonEvents, ctxs, atomics, dryRun, now, planner, sofar);
    if outcome.Pass? {
      EventsAdvance(events, added, oldEvents, pending, i, db.commonEvents);
      AddedAdvance(events, added, oldEvents, pending, i, db.commonEvents, now);
    } else {
      assert db.events[|oldEvents|..] == sofar;
    }
  }

  /** The turn of `pending[i]` with, when it passes, the app marked `SUCCESS` in the same commit. */
  method MarkedStep(db: Database, cloud: Client, pending: seq<App>, jobs: seq<AppJob>, i: nat, ctxs: seq<ContextJob>,
                    atomics: seq<AtomicParameter>, dryRun: bool, now: Timestamp, ghost planner: Planner,
                    ghost oldEvents: seq<Event>, ghost whole: PassResult, ghost sofar: seq<Effect>, ghost before: seq<Stamp>)
    returns (outcome: Outcome, ghost calls: seq<Effect>)
    requires db.Valid() && cloud.Valid() && PlansTurns(planner, cloud.project, [], atomics, false) && AlwaysPlans(planner)
    requires AppIdsDistinct(pending) && i < |pending| && forall j :: 0 <= j < |pending| ==> pending[j] in db.apps
    requires jobs == AppJobs(pending, db.commonEvents, oldEvents)
    requires EventsSoFar(db.events, oldEvents, pending, i, db.commonEvents)
    requires ContinuesAs(whole, sofar, i, AppPass(cloud.state, jobs[i..], planner, ctxs, dryRun, cloud.failing))
    requires AppsDone(pending, before, i, now)
    requires LinkedSoFar(db.events[|oldEvents|..], oldEvents, pending, i, db.commonEvents)
    requires EachAddedFor(db.events[|oldEvents|..], now)
    modifies cloud`state, cloud`trace, db`events, db`lastId, (pending[i] as App)`status, (pending[i] as App)`statusUpdatedAt
    ensures db.Valid() && cloud.Valid()
    ensures outcome.Fail? ==> whole == PassResult(sofar + calls, i, outcome)
    ensures outcome.Pass? ==>
      ContinuesAs(whole, sofar + calls, i + 1, AppPass(cloud.state, jobs[i + 1..], planner, ctxs, dryRun, cloud.failing))
    ensures cloud.trace == old(cloud.trace) + calls
    ensures EventsSoFar(db.events, oldEvents, pending, if outcome.Pass? then i + 1 else i, db.commonEvents)
    ensures AppsDone(pending, before, if outcome.Pass? then i + 1 else i, now)
    ensures LinkedSoFar(db.events[|oldEvents|..], oldEvents, pending, if outcome.Pass? then i + 1 else i, db.commonEvents)
    ensures EachAddedFor(db.events[|oldEvents|..], now)
  {
    ghost var s := cloud.state;
    outcome, calls := AppStep(db, cloud, pending, jobs, i, ctxs, atomics, dryRun, now, planner, oldEvents);
    assert AppStamps(pending) == old(AppStamps(pending));
    AppTurnAdvancesPass(whole, sofar, s, jobs, i, planner, ctxs, dryRun, cloud.failing, outcome, calls);
    if outcome.Pass? {
      MarkDone(pending, i, now, before, db.events[|oldEvents|..]);
    }
  }

  /** `app.set_status(Status.SUCCESS)` on `pending[i]`, the next app of the pass; the events `added`
      so far stay as `EachAddedFor` describes them. */
  method MarkDone(pending: seq<App>, i: nat, now: Timestamp, ghost before: seq<Stamp>, ghost added: seq<Event>)
    requires AppIdsDistinct(pending) && i < |pending| && AppsDone(pending, before, i, now)
    requires EachAddedFor(added, now)
    modifies (pending[i] as App)`status, (pending[i] as App)`statusUpdatedAt
    ensures AppsDone(pending, before, i + 1, now) && EachAddedFor(added, now)
  {
    pending[i].SetStatus(Success, now);
  }

  /** The job of `pending[i]`, worked out against the events before the pass, still says what its
      commit does after the apps before it added theirs. */
  lemma JobStillHolds(events: seq<Event>, oldEvents: seq<Event>, pending: seq<App>, jobs: seq<AppJob>, i: nat,
                      commons: seq<CommonEvent>)
    requires AppIdsDistinct(pending) && i < |pending| && jobs == AppJobs(pending, commons, oldEvents)
    requires EventsSoFar(events, oldEvents, pending, i, commons)
    ensures jobs[i].appId == pending[i].id
    ensures MissingCommons(commons, LinkedCommonIds(events, pending[i].id)) ==
            MissingCommons(commons, LinkedCommonIds(oldEvents, pending[i].id))
    ensures jobs[i].commits ==
      CommitGoesThrough(events, pending[i].id, MissingCommons(commons, LinkedCommonIds(events, pending[i].id)))
  {
    var more := events[|oldEvents|..];
    assert events == oldEvents + more;
    forall k | 0 <= k < |more| ensures more[k].appId != pending[i].id {
      assert more[k] == events[|oldEvents| + k];
    }
    CommitUnaffectedByOthers(oldEvents, more, pending[i].id, commons);
  }

  /** The events a passing turn of `pending[i]` stores move the pass on by one app. */
  lemma EventsAdvance(events: seq<Event>, added: seq<Event>, oldEvents: seq<Event>, pending: seq<App>, i: nat,
                      commons: seq<CommonEvent>)
    requires i < |pending| && EventsSoFar(events, oldEvents, pending, i, commons)
    requires LinksFor(added, pending[i], MissingCommons(commons, LinkedCommonIds(events, pending[i].id)))
    ensures EventsSoFar(events + added, oldEvents, pending, i + 1, commons)
  {
    var all := events + added;
    EveryCommonLinked(events, added, pending[i], commons);
    forall j, c | 0 <= j < i && c in commons ensures c.id in LinkedCommonIds(all, pending[j].id) {
      LinksStay(events, added, pending[j].id);
    }
    assert all[..|oldEvents|] == events[..|oldEvents|];
    forall k | |oldEvents| <= k < |all| ensures all[k].appId in IdsBefore(pending, i + 1) {
      if k < |events| {
        assert all[k] == events[k];
      } else {
        assert all[k] == added[k - |events|];
      }
    }
  }

  /** The events a passing turn of `pending[i]` stores are those it was missing before the pass, so
      `LinkedSoFar` and `EachAddedFor` move on by one app. */
  lemma AddedAdvance(events: seq<Event>, added: seq<Event>, oldEvents: seq<Event>, pending: seq<App>, i: nat,
                     commons: seq<CommonEvent>, now: Timestamp)
    requires AppIdsDistinct(pending) && i < |pending| && EventsSoFar(events, oldEvents, pending, i, commons)
    requires LinkedSoFar(events[|oldEvents|..], oldEvents, pending, i, commons)
    requires EachAddedFor(events[|oldEvents|..], now)
    requires AddedForEach(added, pending[i], MissingCommons(commons, LinkedCommonIds(oldEvents, pending[i].id)), now)
    ensures LinkedSoFar((events + added)[|oldEvents|..], oldEvents, pending, i + 1, commons)
    ensures EachAddedFor((events + added)[|oldEvents|..], now)
  {
    var sofar := events[|oldEvents|..];
    var all := sofar + added;
    assert (events + added)[|oldEvents|..] == all;
    forall j | 0 <= j <= i
      ensures LinksFor(AppService.EventsOfApp(all, pending[j].id), pending[j],
                       MissingCommons(commons, LinkedCommonIds(oldEvents, pending[j].id)))
    {
      AddedOfOneApp(sofar, added, pending, i, j, IdsBefore(pending, i));
    }
    EachAddedForAppend(sofar, added, pending[i], MissingCommons(commons, LinkedCommonIds(oldEvents, pending[i].id)), now);
  }

  /** The events a turn adds for the common events it was missing join those added before. */
  lemma EachAddedForAppend(sofar: seq<Event>, added: seq<Event>, app: App, missing: seq<CommonEvent>, now: Timestamp)
    requires EachAddedFor(sofar, now) && AddedForEach(added, app, missing, now)
    ensures EachAddedFor(sofar + added, now)
  {
    var all := sofar + added;
    forall k | 0 <= k < |all| ensures all[k].parent.Some? && AddedFor(all[k], all[k].parent.value, now) {
      if k < |sofar| {
        assert all[k] == sofar[k];
      } else {
        assert all[k] == added[k - |sofar|] && all[k].parent == Some(missing[k - |sofar|]);
      }
    }
  }

  /** The events of `pending[j]` among `sofar + added`, where `sofar` holds events of the first `i`
      apps and `added` those of `pending[i]`: the earlier ones for an earlier app, `added` for
      `pending[i]`. */
  lemma AddedOfOneApp(sofar: seq<Event>, added: seq<Event>, pending: seq<App>, i: nat, j: nat, ids: set<AppId>)
    requires AppIdsDistinct(pending) && j <= i < |pending| && ids == IdsBefore(pending, i)
    requires forall k :: 0 <= k < |sofar| ==> sofar[k].appId in ids
    requires forall k :: 0 <= k < |added| ==> added[k].appId == pending[i].id
    ensures j < i ==> AppService.EventsOfApp(sofar + added, pending[j].id) == AppService.EventsOfApp(sofar, pending[j].id)
    ensures j == i ==> AppService.EventsOfApp(sofar + added, pending[j].id) == added
  {
    AppService.EventsOfAppAppend(sofar, added, pending[j].id);
    if j < i {
      AppService.EventsOfOtherApps(added, pending[j].id);
    } else {
      assert pending[i].id !in ids;
      AppService.EventsOfOtherApps(sofar, pending[i].id);
      AppService.EventsOfAppOfOneApp(added, pending[i].id);
    }
  }

  /** The loop of `process_non_success` over the apps it selected, `jobs` holding what the pass needs
      of each; `handled` counts the apps it marked. */
  method PassOverApps(db: Database, cloud: Client, pending: seq<App>, jobs: seq<AppJob>, ctxs: seq<ContextJob>,
                      atomics: seq<AtomicParameter>, dryRun: bool, now: Timestamp, ghost planner: Planner)
    returns (outcome: Outcome, ghost handled: nat)
    requires db.Valid() && cloud.Valid() && PlansTurns(planner, cloud.project, [], atomics, false) && AlwaysPlans(planner)
    requires AppIdsDistinct(pending) && forall j :: 0 <= j < |pending| ==> pending[j] in db.apps
    requires jobs == AppJobs(pending, db.commonEvents, db.events)
    modifies cloud`state, cloud`trace, db`events, db`lastId, set a | a in pending
    ensures db.Valid() && cloud.Valid()
    ensures var r := AppPass(old(cloud.state), jobs, planner, ctxs, dryRun, cloud.failing);
      && outcome == r.outcome && handled == r.handled
      && cloud.trace == old(cloud.trace) + r.calls
    ensures EventsSoFar(db.events, old(db.events), pending, handled, db.commonEvents)
    ensures LinkedSoFar(db.events[|old(db.events)|..], old(db.events), pending, handled, db.commonEvents)
    ensures EachAddedFor(db.events[|old(db.events)|..], now)
    ensures AppsDone(pending, old(AppStamps(pending)), handled, now)
  {
    ghost var whole := AppPass(cloud.state, jobs, planner, ctxs, dryRun, cloud.failing);
    ghost var before := AppStamps(pending);
    ghost var oldEvents := db.events;
    ghost var sofar: seq<Effect> := [];
    assert jobs[0..] == jobs;
    assert oldEvents[..|oldEvents|] == oldEvents;
    var i := 0;
    while i < |pending|
      invariant 0 <= i <= |pending| && db.Valid() && cloud.Valid()
      invariant cloud.trace == old(cloud.trace) + sofar
      invariant ContinuesAs(whole, sofar, i, AppPass(cloud.state, jobs[i..], planner, ctxs, dryRun, cloud.failing))
      invariant EventsSoFar(db.events, oldEvents, pending, i, db.commonEvents)
      invariant AppsDone(pending, before, i, now)
      invariant LinkedSoFar(db.events[|oldEvents|..], oldEvents, pending, i, db.commonEvents)
      invariant EachAddedFor(db.events[|oldEvents|..], now)
    {
      var turn: Outcome;
      ghost var calls: seq<Effect>;
      turn, calls := MarkedStep(db, cloud, pending, jobs, i, ctxs, atomics, dryRun, now, planner, oldEvents, whole, sofar,
                                before);
      CallsAppend(old(cloud.trace), sofar, calls);
      if turn.Fail? {
        outcome, handled := turn, i;
        return;
      }
      sofar := sofar + calls;
      i := i + 1;
    }
    outcome, handled := Pass, i;
    assert jobs[i..] == [];
  }

  /** `bigquery_all_apps.process`, skipped in a dry run. */
  method SetUpAllAppsInCloud(cloud: Client, dryRun: bool) returns (outcome: Outcome)
    requires cloud.Valid()
    modifies cloud`state, cloud`trace
    ensures cloud.Valid() && cloud.state == old(cloud.state)
    ensures outcome == if !dryRun && SetUpAllApps in cloud.failing then Fail(CollaboratorFailure) else Pass
    ensures cloud.trace == old(cloud.trace) + if dryRun || outcome.Fail? then [] else [SetUpAllApps]
  {
    outcome := Pass;
    if !dryRun {
      outcome := cloud.Perform(SetUpAllApps);
    }
  }

  /** The body of `process_non_success` once some apps are selected: `bigquery_all_apps.process`
      unless in a dry run, then the pass over those apps. */
  method MaintainPendingApps(db: Database, cloud: Client, pending: seq<App>, jobs: seq<AppJob>, ctxs: seq<ContextJob>,
                             dryRun: bool, now: Timestamp)
    returns (outcome: Outcome, ghost handled: nat)
    requires db.Valid() && cloud.Valid() && pending != []
    requires AppIdsDistinct(pending) && forall j :: 0 <= j < |pending| ==> pending[j] in db.apps
    requires jobs == AppJobs(pending, db.commonEvents, db.events)
    modifies cloud`state, cloud`trace, db`events, db`lastId, set a | a in pending
    ensures db.Valid() && cloud.Valid()
    ensures var r := MaintainApps(old(cloud.state), jobs, ContextPlanner(cloud.project, db.atomics), ctxs, dryRun,
                                  cloud.failing);
      && outcome == r.outcome && handled == r.handled
      && cloud.trace == old(cloud.trace) + r.calls
    ensures EventsSoFar(db.events, old(db.events), pending, handled, db.commonEvents)
    ensures LinkedSoFar(db.events[|old(db.events)|..], old(db.events), pending, handled, db.commonEvents)
    ensures EachAddedFor(db.events[|old(db.events)|..], now)
    ensures AppsDone(pending, old(AppStamps(pending)), handled, now)
  {
    outcome := SetUpAllAppsInCloud(cloud, dryRun);
    assert AppStamps(pending) == old(AppStamps(pending));
    if outcome.Fail? {
      assert cloud.trace == old(cloud.trace) && db.events[..|db.events|] == db.events;
      return outcome, 0;
    }
    ghost var planner := ContextPlanner(cloud.project, db.atomics);
    ghost var trace := cloud.trace;
    outcome, handled := PassOverApps(db, cloud, pending, jobs, ctxs, db.atomics, dryRun, now, planner);
    ghost var pass := AppPass(old(cloud.state), jobs, planner, ctxs, dryRun, cloud.failing);
    assert cloud.trace == trace + pass.calls;
    assert MaintainApps(old(cloud.state), jobs, planner, ctxs, dryRun, cloud.failing)
        == if dryRun then pass else PassResult([SetUpAllApps] + pass.calls, pass.handled, pass.outcome);
    if dryRun {
      assert trace == old(cloud.trace);
    } else {
      CallsAppend(old(cloud.trace), [SetUpAllApps], pass.calls);
    }
  }

  /** `process_non_success`: the pass over the apps not yet `SUCCESS`, the only apps it may change.
      The apps it handled are `SUCCESS`, each with an event of every common event; the others are as
      they were; the events stored before stay, and every event added belongs to a handled app. */
  method ProcessNonSuccess(db: Database, cloud: Client, dryRun: bool, now: Timestamp)
    returns (outcome: Outcome, ghost handled: nat)
    requires db.Valid() && cloud.Valid()
    modifies cloud`state, cloud`trace, db`events, db`lastId, set a | a in db.apps && a.status != Success
    ensures db.Valid() && cloud.Valid()
    ensures var r := MaintainApps(old(cloud.state), AppJobs(old(PendingApps(db.apps)), db.commonEvents, old(db.events)),
                                  ContextPlanner(cloud.project, db.atomics), old(ContextJobs(db.contexts)), dryRun,
                                  cloud.failing);
      && outcome == r.outcome && handled == r.handled
      && cloud.trace == old(cloud.trace) + r.calls
    ensures EventsSoFar(db.events, old(db.events), old(PendingApps(db.apps)), handled, db.commonEvents)
    ensures LinkedSoFar(db.events[|old(db.events)|..], old(db.events), old(PendingApps(db.apps)), handled, db.commonEvents)
    ensures EachAddedFor(db.events[|old(db.events)|..], now)
    ensures AppsDone(old(PendingApps(db.apps)), old(AppStamps(PendingApps(db.apps))), handled, now)
  {
    var pending := PendingApps(db.apps);
    var jobs := AppJobs(pending, db.commonEvents, db.events);
    var ctxs := ContextJobs(db.contexts);
    if pending == [] {
      assert db.events[..|db.events|] == db.events;
      return Pass, 0;
    }
    outcome, handled := MaintainPendingApps(db, cloud, pending, jobs, ctxs, dryRun, now);
  }

  /** Once a pass has handled an app, a second pass adds no event to it. */
  lemma SecondPassAddsNothing(events: seq<Event>, before: seq<Event>, pending: seq<App>, n: nat,
                              commons: seq<CommonEvent>, j: nat)
    requires EventsSoFar(events, before, pending, n, commons) && j < n && j < |pending|
    ensures MissingCommons(commons, LinkedCommonIds(events, pending[j].id)) == []
  {
    NothingMissing(commons, LinkedCommonIds(events, pending[j].id));
  }
}
