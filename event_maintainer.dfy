/** The pass that sets up events (metadata/api/event/maintainer.py): every event not yet `SUCCESS`
    gets its warehouse tables and views and its registry documents, is marked `SUCCESS`, and sends
    its app, when that app is `SUCCESS`, back to `NEEDS_UPDATE` so that the app's views are rebuilt.
    Each event is committed on its own; the first call that raises ends the pass. */
module EventMaintainer {
  import opened Common
  import opened EntityStatus
  import opened AppIdentity
  import opened Schemas
  import opened Iglu
  import opened Events
  import opened Cloud
  import opened EventTables
  import opened Apps
  import opened Store
  import opened AppDomain

  /** The uploads of registry documents, one per document, in order. */
  function DocumentUploads(docs: seq<IgluSchema>): (r: seq<Effect>)
    ensures |r| == |docs| && forall i :: 0 <= i < |docs| ==> r[i] == Upload(docs[i].path, docs[i].schema)
  {
    seq(|docs|, i requires 0 <= i < |docs| => Upload(docs[i].path, docs[i].schema))
  }

  /** The events the pass takes up, in stored order: those whose status is not `SUCCESS`. */
  function Pending(all: seq<Event>): (r: seq<Event>)
    reads all
    ensures |r| <= |all|
    ensures forall i :: 0 <= i < |r| ==> r[i] in all && r[i].status != Success
    ensures forall i :: 0 <= i < |all| && all[i].status != Success ==> all[i] in r
  {
    if all == [] then []
    else
      assert forall i :: 1 <= i < |all| ==> all[i] == all[1..][i - 1];
      (if all[0].status != Success then [all[0]] else []) + Pending(all[1..])
  }

  /** What the pass needs of one event: its app, its merged schema and its registry documents. */
  datatype Job = Job(appId: AppId, view: SchemaView, docs: seq<IgluSchema>)

  function Jobs(events: seq<Event>): (r: seq<Job>)
    requires forall e :: e in events ==> e.Valid()
    reads EventsFootprint(events)
    ensures |r| == |events|
    ensures forall i :: 0 <= i < |events| ==>
      r[i] == Job(events[i].appId, events[i].GetSchema(), events[i].ToIgluSchemas())
  {
    seq(|events|, i requires 0 <= i < |events| reads EventsFootprint(events) =>
      Job(events[i].appId, events[i].GetSchema(), events[i].ToIgluSchemas()))
  }

  /** The calls one event's turn makes from state `s`: none in a dry run; otherwise the tables and
      views of `maintain_event_table`, then the upload of each of the event's documents. */
  function TurnCalls(s: State, project: string, job: Job, embedded: seq<SchemaView>, atomics: seq<AtomicParameter>,
                     dryRun: bool): (r: Result<seq<Effect>>)
    ensures dryRun ==> r == Ok([])
    ensures !dryRun ==> (r.Err? <==> EventColumns(job.view.parameters, embedded, atomics).Err?)
    ensures r.Ok? && !dryRun ==>
      |job.docs| <= |r.value| && r.value[|r.value| - |job.docs|..] == DocumentUploads(job.docs)
  {
    if dryRun then Ok([])
    else
      match MaintenancePlan(s, project, job.appId.value, job.view.name, job.view.parameters, embedded, atomics)
      case Err(e) => Err(e)
      case Ok(plan) =>
        var uploads := DocumentUploads(job.docs);
        assert (plan + uploads)[|plan|..] == uploads;
        Ok(plan + uploads)
  }

  /** How a pass plans each turn from the state it reached: `TurnCalls` with the pass's project,
      contexts, atomic parameters and mode fixed. */
  type Planner = (State, Job) -> Result<seq<Effect>>

  ghost predicate PlansTurns(planner: Planner, project: string, embedded: seq<SchemaView>, atomics: seq<AtomicParameter>,
                       dryRun: bool)
  {
    forall s, job {:trigger TurnCalls(s, project, job, embedded, atomics, dryRun)} ::
      planner(s, job) == TurnCalls(s, project, job, embedded, atomics, dryRun)
  }

  function TurnPlanner(project: string, embedded: seq<SchemaView>, atomics: seq<AtomicParameter>, dryRun: bool)
    : (r: Planner)
    ensures PlansTurns(r, project, embedded, atomics, dryRun)
  {
    (s, job) => TurnCalls(s, project, job, embedded, atomics, dryRun)
  }

  /** What a pass over some events leads to: the calls that went through, how many events were
      marked, and whether the pass got to the end. */
  datatype PassResult = PassResult(calls: seq<Effect>, handled: nat, outcome: Outcome)

  /** The pass from state `s`, event by event: a turn whose columns cannot be built, whose call
      raises, or whose app is not stored ends the pass there, and that event stays as it was. */
  function EventPass(s: State, jobs: seq<Job>, planner: Planner, appIds: set<AppId>, failing: set<Effect>)
    : (r: PassResult)
    ensures r.handled <= |jobs|
    ensures r.outcome.Pass? <==> r.handled == |jobs|
    decreases |jobs|
  {
    if jobs == [] then PassResult([], 0, Pass)
    else
      match planner(s, jobs[0])
      case Err(e) => PassResult([], 0, Fail(e))
      case Ok(c) =>
        var k := Reached(c, failing);
        if k < |c| then PassResult(c[..k], 0, Fail(CollaboratorFailure))
        else if jobs[0].appId !in appIds then PassResult(c, 0, Fail(NoResultFound))
        else
          var rest := EventPass(Replay(s, c), jobs[1..], planner, appIds, failing);
          PassResult(c + rest.calls, rest.handled + 1, rest.outcome)
  }

  /** In a dry run nothing is called, and the pass marks every event up to the first whose app is
      not stored. */
  lemma {:induction false} DryRunMarksUpToUnknownApp(s: State, jobs: seq<Job>, project: string,
                                                     embedded: seq<SchemaView>, atomics: seq<AtomicParameter>,
                                                     appIds: set<AppId>, failing: set<Effect>)
    ensures var r := EventPass(s, jobs, TurnPlanner(project, embedded, atomics, true), appIds, failing);
      && r.calls == []
      && (forall i :: 0 <= i < r.handled ==> jobs[i].appId in appIds)
      && (r.handled < |jobs| ==> jobs[r.handled].appId !in appIds && r.outcome == Fail(NoResultFound))
    decreases |jobs|
  {
    if jobs != [] {
      var planner := TurnPlanner(project, embedded, atomics, true);
      assert planner(s, jobs[0]) == Ok([]);
      assert Reached([], failing) == 0;
      DryRunMarksUpToUnknownApp(Replay(s, []), jobs[1..], project, embedded, atomics, appIds, failing);
      assert forall i :: 1 <= i < |jobs| ==> jobs[i] == jobs[1..][i - 1];
    }
  }

  /** A turn that can be planned uploads each of the event's documents. */
  lemma TurnUploadsDocument(s: State, project: string, job: Job, embedded: seq<SchemaView>,
                            atomics: seq<AtomicParameter>, d: nat)
    requires TurnCalls(s, project, job, embedded, atomics, false).Ok? && d < |job.docs|
    ensures Upload(job.docs[d].path, job.docs[d].schema) in TurnCalls(s, project, job, embedded, atomics, false).value
  {
    var c := TurnCalls(s, project, job, embedded, atomics, false).value;
    assert c[|c| - |job.docs| + d] == DocumentUploads(job.docs)[d];
  }

  /** A pass that gets to the end has uploaded every document of every event it took up, and every
      one of those events belongs to a stored app. */
  lemma {:induction false} CompletePassPublishesEveryDocument(s: State, jobs: seq<Job>, project: string,
                                                              embedded: seq<SchemaView>, atomics: seq<AtomicParameter>,
                                                              appIds: set<AppId>, failing: set<Effect>, i: nat, d: nat)
    requires EventPass(s, jobs, TurnPlanner(project, embedded, atomics, false), appIds, failing).outcome.Pass?
    requires i < |jobs| && d < |jobs[i].docs|
    ensures Upload(jobs[i].docs[d].path, jobs[i].docs[d].schema) in
      EventPass(s, jobs, TurnPlanner(project, embedded, atomics, false), appIds, failing).calls
    ensures jobs[i].appId in appIds
    decreases |jobs|
  {
    var planner := TurnPlanner(project, embedded, atomics, false);
    var c := planner(s, jobs[0]).value;
    var rest := EventPass(Replay(s, c), jobs[1..], planner, appIds, failing);
    assert EventPass(s, jobs, planner, appIds, failing).calls == c + rest.calls;
    if i == 0 {
      TurnUploadsDocument(s, project, jobs[0], embedded, atomics, d);
    } else {
      assert jobs[i] == jobs[1..][i - 1];
      CompletePassPublishesEveryDocument(Replay(s, c), jobs[1..], project, embedded, atomics, appIds, failing, i - 1, d);
    }
  }

  /** The pass from the current state over `jobs[i..]` with what it ends on: the whole pass is the
      turns so far followed by that. */
  predicate ContinuesAs(whole: PassResult, sofar: seq<Effect>, i: nat, rest: PassResult)
  {
    whole == PassResult(sofar + rest.calls, i + rest.handled, rest.outcome)
  }

  /** What the calls of one turn from state `s` did, as the planner has it: no call when the turn
      cannot be planned, otherwise the calls up to the first that raises. */
  ghost predicate Published(planner: Planner, s: State, job: Job, failing: set<Effect>, outcome: Outcome, calls: seq<Effect>)
  {
    var t := planner(s, job);
    && (t.Err? ==> outcome == Fail(t.error) && calls == [])
    && (t.Ok? ==> outcome == RunOutcome(t.value, failing) && calls == t.value[..Reached(t.value, failing)])
  }

  /** What one whole turn did: its calls as `Published` has them, and then the `.one()` on the
      event's app, which fails when no stored app has that id. */
  ghost predicate TurnResult(planner: Planner, s: State, job: Job, appIds: set<AppId>, failing: set<Effect>,
                             outcome: Outcome, calls: seq<Effect>)
  {
    exists published :: Published(planner, s, job, failing, published, calls) &&
      outcome == if published.Fail? then published else if job.appId in appIds then Pass else Fail(NoResultFound)
  }

  /** A turn moves the pass on by one event: a turn that fails is where the whole pass ends, and a
      passing one leaves the rest of the pass to run from the state its calls left. */
  lemma TurnAdvancesPass(whole: PassResult, sofar: seq<Effect>, s: State, jobs: seq<Job>, i: nat, planner: Planner,
                         appIds: set<AppId>, failing: set<Effect>, outcome: Outcome, calls: seq<Effect>)
    requires i < |jobs| && ContinuesAs(whole, sofar, i, EventPass(s, jobs[i..], planner, appIds, failing))
    requires TurnResult(planner, s, jobs[i], appIds, failing, outcome, calls)
    ensures outcome.Fail? ==> whole == PassResult(sofar + calls, i, outcome)
    ensures outcome.Pass? ==>
      ContinuesAs(whole, sofar + calls, i + 1, EventPass(Replay(s, calls), jobs[i + 1..], planner, appIds, failing))
  {
    assert jobs[i..][0] == jobs[i] && jobs[i..][1..] == jobs[i + 1..];
    var t := planner(s, jobs[i]);
    if t.Ok? {
      assert t.value[..|t.value|] == t.value;
    }
    if outcome.Pass? {
      var next := EventPass(Replay(s, calls), jobs[i + 1..], planner, appIds, failing);
      assert sofar + (calls + next.calls) == (sofar + calls) + next.calls;
    }
  }

  /** The app ids of the first `n` jobs. */
  function AppIdsOf(jobs: seq<Job>, n: nat): (r: set<AppId>)
    requires n <= |jobs|
    ensures forall id :: id in r <==> exists i :: 0 <= i < n && jobs[i].appId == id
  {
    if n == 0 then {} else AppIdsOf(jobs, n - 1) + {jobs[n - 1].appId}
  }

  /** The first `n` events, as a set. */
  function EventsUpTo(events: seq<Event>, n: nat): (r: set<Event>)
    requires n <= |events|
    ensures forall i :: 0 <= i < n ==> events[i] in r
    ensures forall e :: e in r ==> exists i :: 0 <= i < n && events[i] == e
  {
    if n == 0 then {} else EventsUpTo(events, n - 1) + {events[n - 1]}
  }

  /** The status an app has after the pass marked the events of `marked`: a `SUCCESS` app with a
      marked event goes back to `NEEDS_UPDATE`. */
  function AppStatusAfter(before: Status, id: AppId, marked: set<AppId>): (r: Status)
    ensures r != before <==> before == Success && id in marked
    ensures r != before ==> r == NeedsUpdate
  {
    if before == Success && id in marked then NeedsUpdate else before
  }

  /** Marking in two rounds is marking once with both rounds' apps: an app already sent back to
      `NEEDS_UPDATE` is not `SUCCESS` any more. */
  lemma AppStatusAfterTwice(before: Status, id: AppId, first: set<AppId>, second: set<AppId>)
    ensures AppStatusAfter(AppStatusAfter(before, id, first), id, second) == AppStatusAfter(before, id, first + second)
  {
  }

  /** The ids of the stored apps: the ids the `.one()` on an event's app finds. */
  function StoredAppIds(apps: seq<App>): (r: set<AppId>)
    ensures forall id :: id in r <==> AppWithId(apps, id).Some?
  {
    set i | 0 <= i < |apps| :: apps[i].id
  }

  /** A status and the time it was set. */
  datatype Stamp = Stamp(status: Status, at: Timestamp)

  function EventStamps(events: seq<Event>): (r: seq<Stamp>)
    reads set e | e in events
    ensures |r| == |events| && forall i :: 0 <= i < |events| ==> r[i] == Stamp(events[i].status, events[i].statusUpdatedAt)
  {
    seq(|events|, i requires 0 <= i < |events| reads set e | e in events => Stamp(events[i].status, events[i].statusUpdatedAt))
  }

  function AppStamps(apps: seq<App>): (r: seq<Stamp>)
    reads set a | a in apps
    ensures |r| == |apps| && forall i :: 0 <= i < |apps| ==> r[i] == Stamp(apps[i].status, apps[i].statusUpdatedAt)
  {
    seq(|apps|, i requires 0 <= i < |apps| reads set a | a in apps => Stamp(apps[i].status, apps[i].statusUpdatedAt))
  }

  /** The events after the first `n` of `pending` were marked, `before` holding what each had
      before the pass: a marked event is `SUCCESS` as of `now`, any other is as it was. */
  predicate EventsMarked(pending: seq<Event>, before: seq<Stamp>, n: nat, now: Timestamp)
    reads set e | e in pending
  {
    && |before| == |pending| && n <= |pending|
    && forall i :: 0 <= i < |pending| ==>
         Stamp(pending[i].status, pending[i].statusUpdatedAt)
           == if pending[i] in EventsUpTo(pending, n) then Stamp(Success, now) else before[i]
  }

  /** The apps after the events of the apps `marked` were marked, `before` holding what each had
      before the pass: each status is `AppStatusAfter`, with the time of the change when it changed. */
  predicate AppsMarked(apps: seq<App>, before: seq<Stamp>, marked: set<AppId>, now: Timestamp)
    reads set a | a in apps
  {
    && |before| == |apps|
    && forall i :: 0 <= i < |apps| ==>
         && apps[i].status == AppStatusAfter(before[i].status, apps[i].id, marked)
         && apps[i].statusUpdatedAt == if apps[i].status != before[i].status then now else before[i].at
  }

  /** The calls of one event's turn: in a dry run none; otherwise `maintain_event_table` and the
      uploads of the event's documents, made until the first that raises. */
  method Publish(cloud: Client, job: Job, embedded: seq<SchemaView>, atomics: seq<AtomicParameter>, dryRun: bool,
                 ghost planner: Planner)
    returns (outcome: Outcome, ghost calls: seq<Effect>)
    requires cloud.Valid() && PlansTurns(planner, cloud.project, embedded, atomics, dryRun)
    modifies cloud`state, cloud`trace
    ensures cloud.Valid()
    ensures Published(planner, old(cloud.state), job, cloud.failing, outcome, calls)
    ensures cloud.trace == old(cloud.trace) + calls && cloud.state == Replay(old(cloud.state), calls)
  {
    calls := [];
    ghost var s0 := cloud.state;
    assert planner(s0, job) == TurnCalls(s0, cloud.project, job, embedded, atomics, dryRun);
    if dryRun {
      outcome := Pass;
      return;
    }
    ghost var plan := MaintenancePlan(s0, cloud.project, job.appId.value, job.view.name, job.view.parameters, embedded, atomics);
    var uploads := DocumentUploads(job.docs);
    outcome := MaintainEventTable(cloud, job.appId.value, job.view.name, job.view.parameters, atomics, embedded);
    if outcome.Fail? {
      if plan.Ok? {
        calls := plan.value[..Reached(plan.value, cloud.failing)];
        RunStops(plan.value, uploads, cloud.failing);
      }
      return;
    }
    assert plan.value[..|plan.value|] == plan.value;
    outcome := cloud.Run(uploads);
    RunInSequence(s0, old(cloud.trace), plan.value, uploads, cloud.failing);
    calls := (plan.value + uploads)[..Reached(plan.value + uploads, cloud.failing)];
  }

  /** The `.one()` on the event's app, and the app sent back to `NEEDS_UPDATE` when it was
      `SUCCESS`: the apps of `marked` and `id` are then marked. `found` is false when no app has that
      id, and then nothing changes. */
  method MarkApp(apps: seq<App>, id: AppId, now: Timestamp, ghost before: seq<Stamp>, ghost marked: set<AppId>)
    returns (found: bool)
    requires AppIdsDistinct(apps) && AppsMarked(apps, before, marked, now)
    modifies set a | a in apps
    ensures found <==> AppWithId(apps, id).Some?
    ensures AppsMarked(apps, before, if found then marked + {id} else marked, now)
  {
    var app := AppWithId(apps, id);
    found := app.Some?;
    if app.Some? {
      var j :| 0 <= j < |apps| && apps[j] == app.value;
      if app.value.status == Success {
        app.value.SetStatus(NeedsUpdate, now);
      }
      forall k | 0 <= k < |apps|
        ensures apps[k].status == AppStatusAfter(before[k].status, apps[k].id, marked + {id})
      {
        AppStatusAfterTwice(before[k].status, apps[k].id, marked, {id});
      }
    }
  }

  /** The bookkeeping of the turn of `e`, the `i`th event, once its calls went through: the `.one()`
      on its app, then the event marked `SUCCESS` and the app sent back to `NEEDS_UPDATE`. The
      `.one()` that finds no app raises before the commit, so then nothing changes. */
  method MarkTurn(e: Event, pending: seq<Event>, jobs: seq<Job>, apps: seq<App>, i: nat, now: Timestamp,
                  ghost eventsBefore: seq<Stamp>, ghost appsBefore: seq<Stamp>)
    returns (found: bool)
    requires AppIdsDistinct(apps) && i < |pending| == |jobs| && e == pending[i] && jobs[i].appId == e.appId
    requires EventsMarked(pending, eventsBefore, i, now) && AppsMarked(apps, appsBefore, AppIdsOf(jobs, i), now)
    modifies e`status, e`statusUpdatedAt, set a | a in apps
    ensures found <==> jobs[i].appId in StoredAppIds(apps)
    ensures EventsMarked(pending, eventsBefore, if found then i + 1 else i, now)
    ensures AppsMarked(apps, appsBefore, AppIdsOf(jobs, if found then i + 1 else i), now)
  {
    found := MarkApp(apps, jobs[i].appId, now, appsBefore, AppIdsOf(jobs, i));
    assert EventsMarked(pending, eventsBefore, i, now);
    if found {
      ghost var marked := AppIdsOf(jobs, i) + {jobs[i].appId};
      assert AppsMarked(apps, appsBefore, marked, now);
      MarkEvent(pending, i, now, eventsBefore);
      assert AppsMarked(apps, appsBefore, marked, now);
      assert AppIdsOf(jobs, i + 1) == marked;
    }
  }

  /** `event.set_status(Status.SUCCESS)` on `pending[i]`, the next event of the pass. */
  method MarkEvent(pending: seq<Event>, i: nat, now: Timestamp, ghost before: seq<Stamp>)
    requires i < |pending| && EventsMarked(pending, before, i, now)
    modifies (pending[i] as Event)`status, (pending[i] as Event)`statusUpdatedAt
    ensures EventsMarked(pending, before, i + 1, now)
  {
    pending[i].SetStatus(Success, now);
    assert EventsUpTo(pending, i + 1) == EventsUpTo(pending, i) + {pending[i]};
  }

  /** The turn of `pending[i]`: its calls, then, when they all went through, its bookkeeping. */
  method Turn(cloud: Client, pending: seq<Event>, jobs: seq<Job>, apps: seq<App>, i: nat, embedded: seq<SchemaView>,
              atomics: seq<AtomicParameter>, dryRun: bool, now: Timestamp, ghost planner: Planner,
              ghost eventsBefore: seq<Stamp>, ghost appsBefore: seq<Stamp>)
    returns (outcome: Outcome, ghost calls: seq<Effect>)
    requires cloud.Valid() && AppIdsDistinct(apps) && PlansTurns(planner, cloud.project, embedded, atomics, dryRun)
    requires i < |pending| == |jobs| && jobs[i].appId == pending[i].appId
    requires EventsMarked(pending, eventsBefore, i, now) && AppsMarked(apps, appsBefore, AppIdsOf(jobs, i), now)
    modifies cloud`state, cloud`trace, (pending[i] as Event)`status, (pending[i] as Event)`statusUpdatedAt, set a | a in apps
    ensures cloud.Valid()
    ensures TurnResult(planner, old(cloud.state), jobs[i], StoredAppIds(apps), cloud.failing, outcome, calls)
    ensures cloud.trace == old(cloud.trace) + calls && cloud.state == Replay(old(cloud.state), calls)
    ensures EventsMarked(pending, eventsBefore, if outcome.Pass? then i + 1 else i, now)
    ensures AppsMarked(apps, appsBefore, AppIdsOf(jobs, if outcome.Pass? then i + 1 else i), now)
  {
    var published: Outcome;
    published, calls := Publish(cloud, jobs[i], embedded, atomics, dryRun, planner);
    outcome := published;
    if published.Pass? {
      var found := MarkTurn(pending[i], pending, jobs, apps, i, now, eventsBefore, appsBefore);
      if !found {
        outcome := Fail(NoResultFound);
      }
    }
  }

  /** The loop of `process_non_success` over the events it selected, `jobs` holding what the pass
      needs of each; `handled` counts the events it marked. */
  method PassOver(pending: seq<Event>, jobs: seq<Job>, apps: seq<App>, embedded: seq<SchemaView>,
                  atomics: seq<AtomicParameter>, cloud: Client, dryRun: bool, now: Timestamp, ghost planner: Planner)
    returns (outcome: Outcome, ghost handled: nat)
    requires cloud.Valid() && AppIdsDistinct(apps) && PlansTurns(planner, cloud.project, embedded, atomics, dryRun)
    requires |jobs| == |pending| && forall i :: 0 <= i < |pending| ==> jobs[i].appId == pending[i].appId
    modifies cloud`state, cloud`trace, set e | e in pending, set a | a in apps
    ensures cloud.Valid()
    ensures var r := EventPass(old(cloud.state), jobs, planner, StoredAppIds(apps), cloud.failing);
      && outcome == r.outcome && handled == r.handled
      && cloud.trace == old(cloud.trace) + r.calls
    ensures EventsMarked(pending, old(EventStamps(pending)), handled, now)
    ensures AppsMarked(apps, old(AppStamps(apps)), AppIdsOf(jobs, handled), now)
  {
    ghost var appIds := StoredAppIds(apps);
    ghost var whole := EventPass(cloud.state, jobs, planner, appIds, cloud.failing);
    ghost var eventsBefore := EventStamps(pending);
    ghost var appsBefore := AppStamps(apps);
    ghost var sofar: seq<Effect> := [];
    assert jobs[0..] == jobs;
    var i := 0;
    while i < |pending|
      invariant 0 <= i <= |pending| && cloud.Valid()
      invariant cloud.trace == old(cloud.trace) + sofar
      invariant ContinuesAs(whole, sofar, i, EventPass(cloud.state, jobs[i..], planner, appIds, cloud.failing))
      invariant EventsMarked(pending, eventsBefore, i, now)
      invariant AppsMarked(apps, appsBefore, AppIdsOf(jobs, i), now)
    {
      ghost var s := cloud.state;
      var turn: Outcome;
      ghost var calls: seq<Effect>;
      turn, calls := Turn(cloud, pending, jobs, apps, i, embedded, atomics, dryRun, now, planner, eventsBefore, appsBefore);
      TurnAdvancesPass(whole, sofar, s, jobs, i, planner, appIds, cloud.failing, turn, calls);
      CallsAppend(old(cloud.trace), sofar, calls);
      if turn.Fail? {
        outcome, handled := turn, i;
        return;
      }
      sofar := sofar + calls;
      i := i + 1;
    }
    outcome, handled := Pass, i;
    assert jobs[i..] == [];
  }

  /** The body of `process_non_success` once `pending` is selected: the pass over those events with
      the stored atomic parameters and the contexts embedded in events. */
  method MaintainPending(db: Database, pending: seq<Event>, cloud: Client, dryRun: bool, now: Timestamp)
    returns (outcome: Outcome, ghost handled: nat)
    requires cloud.Valid() && AppIdsDistinct(db.apps) && forall e :: e in pending ==> e.Valid()
    modifies cloud`state, cloud`trace, set e | e in pending, set a | a in db.apps
    ensures cloud.Valid()
    ensures var r := EventPass(old(cloud.state), old(Jobs(pending)),
                               TurnPlanner(cloud.project, old(ContextSchemas(ContextsEmbedded(db.contexts, true))),
                                           db.atomics, dryRun),
                               StoredAppIds(db.apps), cloud.failing);
      && outcome == r.outcome && handled == r.handled
      && cloud.trace == old(cloud.trace) + r.calls
    ensures EventsMarked(pending, old(EventStamps(pending)), handled, now)
    ensures AppsMarked(db.apps, old(AppStamps(db.apps)), AppIdsOf(old(Jobs(pending)), handled), now)
  {
    var jobs := Jobs(pending);
    var embedded := ContextSchemas(ContextsEmbedded(db.contexts, true));
    outcome, handled := PassOver(pending, jobs, db.apps, embedded, db.atomics, cloud, dryRun, now,
                                 TurnPlanner(cloud.project, embedded, db.atomics, dryRun));
  }

  /** `process_non_success`: the pass over the events not yet `SUCCESS`, the only events it may
      change. The events it marked are `SUCCESS`, every other event is as it was, and each `SUCCESS`
      app with a marked event is `NEEDS_UPDATE`; a pass that gets to the end leaves every event it
      took up `SUCCESS`. */
  method ProcessNonSuccess(db: Database, cloud: Client, dryRun: bool, now: Timestamp)
    returns (outcome: Outcome, ghost handled: nat)
    requires cloud.Valid() && AppIdsDistinct(db.apps) && forall e :: e in db.events ==> e.Valid()
    modifies cloud`state, cloud`trace, set e | e in db.events && e.status != Success, set a | a in db.apps
    ensures cloud.Valid()
    ensures var r := EventPass(old(cloud.state), old(Jobs(Pending(db.events))),
                               TurnPlanner(cloud.project, old(ContextSchemas(ContextsEmbedded(db.contexts, true))),
                                           db.atomics, dryRun),
                               StoredAppIds(db.apps), cloud.failing);
      && outcome == r.outcome && handled == r.handled
      && cloud.trace == old(cloud.trace) + r.calls
    ensures EventsMarked(old(Pending(db.events)), old(EventStamps(Pending(db.events))), handled, now)
    ensures AppsMarked(db.apps, old(AppStamps(db.apps)), AppIdsOf(old(Jobs(Pending(db.events))), handled), now)
    ensures outcome.Pass? ==> forall e :: e in old(Pending(db.events)) ==> e.status == Success
  {
    var pending := Pending(db.events);
    PendingSelected(db.events);
    outcome, handled := MaintainPending(db, pending, cloud, dryRun, now);
    if outcome.Pass? {
      EveryEventMarked(pending, old(EventStamps(pending)), now);
    }
  }

  /** The events `Pending` selects are stored events that are not `SUCCESS`. */
  lemma PendingSelected(all: seq<Event>)
    ensures forall e :: e in Pending(all) ==> e in all && e.status != Success
  {
    var pending := Pending(all);
    forall e | e in pending ensures e in all && e.status != Success {
      var k :| 0 <= k < |pending| && pending[k] == e;
    }
  }

  /** Once the pass has marked all of `pending`, each of them is `SUCCESS`. */
  lemma EveryEventMarked(pending: seq<Event>, before: seq<Stamp>, now: Timestamp)
    requires EventsMarked(pending, before, |pending|, now)
    ensures forall e :: e in pending ==> e.status == Success
  {
    forall e | e in pending ensures e.status == Success {
      var k :| 0 <= k < |pending| && pending[k] == e;
    }
  }
}
