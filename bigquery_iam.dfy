/** Sharing an app's warehouse datasets with its organization's project
    (metadata/api/app/internal/bigquery_iam.py): a view in the client project over every table of a
    dataset, each new one authorized on the source dataset. */
module BigQueryIam {
  import opened Common
  import opened Cloud
  import Apps

  /** `order` lists each member of `s` exactly once: an order in which a set may be iterated. */
  ghost predicate Enumerates(order: seq<string>, s: set<string>)
  {
    (forall t :: t in order <==> t in s) &&
    (forall i, j :: 0 <= i < j < |order| ==> order[i] != order[j])
  }

  /** Every set can be iterated. */
  ghost function EnumerationOf(s: set<string>): (r: seq<string>)
    ensures Enumerates(r, s)
    decreases s
  {
    if s == {} then []
    else
      var x :| x in s;
      var rest := EnumerationOf(s - {x});
      assert forall i :: 1 <= i < |[x] + rest| ==> ([x] + rest)[i] == rest[i - 1];
      [x] + rest
  }

  /** The view in the client project over one source table. */
  function MirrorView(project: string, clientProject: string, dataset: string, table: string): Effect
  {
    CreateOrReplaceView(TableRef(clientProject, dataset, table), SelectAll(TableRef(project, dataset, table)))
  }

  function MirrorViews(project: string, clientProject: string, dataset: string, order: seq<string>): (r: seq<Effect>)
    ensures |r| == |order| && forall i :: 0 <= i < |order| ==> r[i] == MirrorView(project, clientProject, dataset, order[i])
  {
    seq(|order|, i requires 0 <= i < |order| => MirrorView(project, clientProject, dataset, order[i]))
  }

  /** The access entries to add: one per table, in order, whose view the client project did not
      already have. */
  function NewEntries(clientProject: string, dataset: string, order: seq<string>, clientIds: set<string>): (r: seq<AccessEntry>)
    ensures forall e :: e in r <==> exists t :: t in order && t !in clientIds && e == ViewAccess(TableRef(clientProject, dataset, t))
  {
    if order == [] then []
    else
      var last := order[|order| - 1];
      var init := NewEntries(clientProject, dataset, order[..|order| - 1], clientIds);
      assert forall t :: t in order <==> t in order[..|order| - 1] || t == last;
      if last in clientIds then init else init + [ViewAccess(TableRef(clientProject, dataset, last))]
  }

  /** `create_authorized_views` for one iteration order of the source tables: a view per table,
      then one write of the source dataset's access list, the old entries followed by the new ones. */
  function AuthorizedViewsPlan(project: string, clientProject: string, dataset: string, order: seq<string>,
                               entries: seq<AccessEntry>, clientIds: set<string>): seq<Effect>
  {
    MirrorViews(project, clientProject, dataset, order) +
    [UpdateDatasetAccess(DatasetRef(project, dataset), entries + NewEntries(clientProject, dataset, order, clientIds))]
  }

  /** Whether the calls made are those of `plan` up to the first that fails. */
  ghost predicate RanAs(trace0: seq<Effect>, trace: seq<Effect>, plan: seq<Effect>, failing: set<Effect>, outcome: Outcome)
  {
    outcome == RunOutcome(plan, failing) && trace == trace0 + plan[..Reached(plan, failing)]
  }

  /** The calls made are those of `create_authorized_views` for some iteration order of the source
      tables, up to the first that fails. */
  ghost predicate AuthorizedAs(trace0: seq<Effect>, trace: seq<Effect>, outcome: Outcome, failing: set<Effect>,
                               project: string, clientProject: string, dataset: string, sourceTables: set<string>,
                               entries: seq<AccessEntry>, clientIds: set<string>)
  {
    exists order :: Enumerates(order, sourceTables) &&
      RanAs(trace0, trace, AuthorizedViewsPlan(project, clientProject, dataset, order, entries, clientIds), failing, outcome)
  }

  /** `create_authorized_views`: lists the tables of the dataset in the warehouse project and in the
      client project, then for each source table, in set order, replaces the client view over it and
      authorizes the views the client project did not have; last, writes the access list once. */
  method CreateAuthorizedViews(cloud: Client, dataset: string, app: Apps.App) returns (outcome: Outcome)
    requires cloud.Valid()
    modifies cloud`state, cloud`trace
    ensures cloud.Valid()
    ensures AuthorizedAs(old(cloud.trace), cloud.trace, outcome, cloud.failing,
                         cloud.project, app.organization.gcpProjectId, dataset,
                         TablesOf(old(cloud.state), DatasetRef(cloud.project, dataset)),
                         AccessIn(old(cloud.state), DatasetRef(cloud.project, dataset)),
                         TablesOf(old(cloud.state), DatasetRef(app.organization.gcpProjectId, dataset)))
  {
    var clientProject := app.organization.gcpProjectId;
    var source := DatasetRef(cloud.project, dataset);
    var sourceTables := cloud.TablesIn(source);
    var clientIds := cloud.TablesIn(DatasetRef(clientProject, dataset));
    var entries := cloud.AccessEntries(source);
    ghost var t0 := cloud.trace;
    var accessEntries;
    ghost var chosen;
    outcome, accessEntries, chosen := MirrorTables(cloud, dataset, clientProject, sourceTables, clientIds, entries);
    if outcome.Fail? {
      return;
    }
    outcome := cloud.Perform(UpdateDatasetAccess(source, accessEntries));
    EndsWithUpdate(cloud.project, clientProject, dataset, chosen, sourceTables, entries, clientIds, cloud.failing, t0,
                   cloud.trace, outcome);
  }

  /** The loop of `create_authorized_views`: a client view per source table, in set order, and the
      access entries of the views new to the client project. */
  method MirrorTables(cloud: Client, dataset: string, clientProject: string, sourceTables: set<string>,
                      clientIds: set<string>, entries: seq<AccessEntry>)
    returns (outcome: Outcome, accessEntries: seq<AccessEntry>, ghost chosen: seq<string>)
    requires cloud.Valid()
    modifies cloud`state, cloud`trace
    ensures cloud.Valid()
    ensures outcome.Fail? ==>
      AuthorizedAs(old(cloud.trace), cloud.trace, outcome, cloud.failing,
                   cloud.project, clientProject, dataset, sourceTables, entries, clientIds)
    ensures outcome.Pass? ==>
      Enumerates(chosen, sourceTables - {}) &&
      Passes(MirrorViews(cloud.project, clientProject, dataset, chosen), cloud.failing) &&
      cloud.trace == old(cloud.trace) + MirrorViews(cloud.project, clientProject, dataset, chosen) &&
      accessEntries == entries + NewEntries(clientProject, dataset, chosen, clientIds)
  {
    ghost var t0, failing := cloud.trace, cloud.failing;
    chosen := [];
    accessEntries := entries;
    outcome := Pass;
    var remaining := sourceTables;
    while remaining != {}
      invariant cloud.Valid() && cloud.failing == failing && outcome == Pass
      invariant Enumerates(chosen, sourceTables - remaining) && remaining <= sourceTables
      invariant Passes(MirrorViews(cloud.project, clientProject, dataset, chosen), failing)
      invariant cloud.trace == t0 + MirrorViews(cloud.project, clientProject, dataset, chosen)
      invariant accessEntries == entries + NewEntries(clientProject, dataset, chosen, clientIds)
      decreases remaining
    {
      var table :| table in remaining;
      var view := MirrorView(cloud.project, clientProject, dataset, table);
      outcome := cloud.Perform(view);
      if outcome.Fail? {
        StopsAtView(cloud.project, clientProject, dataset, chosen, table, remaining, sourceTables,
                    entries, clientIds, failing, t0);
        return;
      }
      ExtendChosen(cloud.project, clientProject, dataset, chosen, table, remaining, sourceTables, clientIds, failing);
      CallsAppend(t0, MirrorViews(cloud.project, clientProject, dataset, chosen), [view]);
      if table !in clientIds {
        accessEntries := accessEntries + [ViewAccess(TableRef(clientProject, dataset, table))];
      }
      chosen := chosen + [table];
      remaining := remaining - {table};
    }
  }

  lemma ExtendChosen(project: string, clientProject: string, dataset: string, chosen: seq<string>, table: string,
                     remaining: set<string>, sourceTables: set<string>, clientIds: set<string>, failing: set<Effect>)
    requires Enumerates(chosen, sourceTables - remaining) && remaining <= sourceTables && table in remaining
    requires Passes(MirrorViews(project, clientProject, dataset, chosen), failing)
    requires MirrorView(project, clientProject, dataset, table) !in failing
    ensures Enumerates(chosen + [table], sourceTables - (remaining - {table}))
    ensures MirrorViews(project, clientProject, dataset, chosen + [table])
         == MirrorViews(project, clientProject, dataset, chosen) + [MirrorView(project, clientProject, dataset, table)]
    ensures Passes(MirrorViews(project, clientProject, dataset, chosen + [table]), failing)
    ensures NewEntries(clientProject, dataset, chosen + [table], clientIds)
         == NewEntries(clientProject, dataset, chosen, clientIds) +
            (if table in clientIds then [] else [ViewAccess(TableRef(clientProject, dataset, table))])
  {
    assert (chosen + [table])[..|chosen|] == chosen;
    assert MirrorViews(project, clientProject, dataset, chosen + [table])
        == MirrorViews(project, clientProject, dataset, chosen) + [MirrorView(project, clientProject, dataset, table)];
  }

  /** A view that fails ends the run as if the remaining tables came after it. */
  lemma StopsAtView(project: string, clientProject: string, dataset: string, chosen: seq<string>, table: string,
                    remaining: set<string>, sourceTables: set<string>, entries: seq<AccessEntry>,
                    clientIds: set<string>, failing: set<Effect>, t0: seq<Effect>)
    requires Enumerates(chosen, sourceTables - remaining) && remaining <= sourceTables && table in remaining
    requires Passes(MirrorViews(project, clientProject, dataset, chosen), failing)
    requires MirrorView(project, clientProject, dataset, table) in failing
    ensures AuthorizedAs(t0, t0 + MirrorViews(project, clientProject, dataset, chosen), Fail(CollaboratorFailure), failing,
                         project, clientProject, dataset, sourceTables, entries, clientIds)
  {
    var order := chosen + [table] + EnumerationOf(remaining - {table});
    var plan := AuthorizedViewsPlan(project, clientProject, dataset, order, entries, clientIds);
    assert order[..|chosen|] == chosen;
    assert Enumerates(order, sourceTables) by {
      assert forall i :: |chosen| < i < |order| ==> order[i] in remaining - {table};
      assert forall i :: 0 <= i < |chosen| ==> order[i] == chosen[i];
    }
    assert plan[|chosen|] == MirrorView(project, clientProject, dataset, table);
    assert forall i :: 0 <= i < |chosen| ==> plan[i] == MirrorViews(project, clientProject, dataset, chosen)[i];
    ReachedIsFirstFailure(plan, failing, |chosen|);
    assert plan[..|chosen|] == MirrorViews(project, clientProject, dataset, chosen);
    assert RanAs(t0, t0 + MirrorViews(project, clientProject, dataset, chosen), plan, failing, Fail(CollaboratorFailure));
  }

  /** With every table done, the run ends with the one write of the access list. */
  lemma EndsWithUpdate(project: string, clientProject: string, dataset: string, chosen: seq<string>,
                       sourceTables: set<string>, entries: seq<AccessEntry>, clientIds: set<string>,
                       failing: set<Effect>, t0: seq<Effect>, trace: seq<Effect>, outcome: Outcome)
    requires Enumerates(chosen, sourceTables - {})
    requires Passes(MirrorViews(project, clientProject, dataset, chosen), failing)
    requires var update := [UpdateDatasetAccess(DatasetRef(project, dataset),
                                                entries + NewEntries(clientProject, dataset, chosen, clientIds))];
      outcome == RunOutcome(update, failing) &&
      trace == t0 + MirrorViews(project, clientProject, dataset, chosen) + update[..Reached(update, failing)]
    ensures AuthorizedAs(t0, trace, outcome, failing, project, clientProject, dataset, sourceTables, entries, clientIds)
  {
    var views := MirrorViews(project, clientProject, dataset, chosen);
    var plan := AuthorizedViewsPlan(project, clientProject, dataset, chosen, entries, clientIds);
    assert sourceTables - {} == sourceTables;
    assert plan[..|chosen|] == views;
    if outcome.Fail? {
      ReachedIsFirstFailure(plan, failing, |chosen|);
    } else {
      ReachedIsFirstFailure(plan, failing, |plan|);
      assert plan[..|plan|] == plan;
    }
    assert RanAs(t0, trace, plan, failing, outcome);
  }

  /** After a complete run every source table has its client view, the old access entries are kept,
      and each view that is new to the client project is authorized. */
  lemma AuthorizedViewsCoverSource(project: string, clientProject: string, dataset: string, order: seq<string>,
                                   entries: seq<AccessEntry>, clientIds: set<string>, s: State, t: string)
    requires t in order
    ensures var after := Replay(s, AuthorizedViewsPlan(project, clientProject, dataset, order, entries, clientIds));
      TableRef(clientProject, dataset, t) in after.tables &&
      after.tables[TableRef(clientProject, dataset, t)] == View(SelectAll(TableRef(project, dataset, t))) &&
      entries <= AccessIn(after, DatasetRef(project, dataset)) &&
      (t !in clientIds ==> ViewAccess(TableRef(clientProject, dataset, t)) in AccessIn(after, DatasetRef(project, dataset)))
  {
    var views := MirrorViews(project, clientProject, dataset, order);
    var plan := AuthorizedViewsPlan(project, clientProject, dataset, order, entries, clientIds);
    assert plan[..|plan| - 1] == views;
    MirrorViewsReplay(s, project, clientProject, dataset, order, t);
  }

  /** Each listed table ends up with its client view. */
  lemma {:induction false} MirrorViewsReplay(s: State, project: string, clientProject: string, dataset: string,
                                             order: seq<string>, t: string)
    requires t in order
    ensures var after := Replay(s, MirrorViews(project, clientProject, dataset, order));
      TableRef(clientProject, dataset, t) in after.tables &&
      after.tables[TableRef(clientProject, dataset, t)] == View(SelectAll(TableRef(project, dataset, t)))
    decreases |order|
  {
    var views := MirrorViews(project, clientProject, dataset, order);
    var init := order[..|order| - 1];
    assert views[..|views| - 1] == MirrorViews(project, clientProject, dataset, init);
    if order[|order| - 1] != t {
      assert t in init;
      MirrorViewsReplay(s, project, clientProject, dataset, init, t);
    }
  }

  const Monitoring: string := "gametuner_monitoring"

  /** `create_common_authorized_views` from state `s`: when the client project lacks the app's view
      of bad events, the view over the shared one filtered to the app, and its authorization. */
  function CommonViewsPlan(s: State, project: string, clientProject: string, appId: string): (r: seq<Effect>)
  {
    var ref := TableRef(clientProject, Monitoring, "v_enrich_bad_events_" + appId);
    if ref in s.tables then []
    else
      [CreateOrReplaceView(ref, SelectApp(TableRef(project, Monitoring, "v_enrich_bad_events"), appId)),
       UpdateDatasetAccess(DatasetRef(project, Monitoring),
                           AccessIn(s, DatasetRef(project, Monitoring)) + [ViewAccess(ref)])]
  }

  /** `create_common_authorized_views`. */
  method CreateCommonAuthorizedViews(cloud: Client, app: Apps.App) returns (outcome: Outcome)
    requires cloud.Valid()
    modifies cloud`state, cloud`trace
    ensures cloud.Valid()
    ensures RanAs(old(cloud.trace), cloud.trace,
                  CommonViewsPlan(old(cloud.state), cloud.project, app.organization.gcpProjectId, app.id.value),
                  cloud.failing, outcome)
  {
    var clientProject := app.organization.gcpProjectId;
    var entries := cloud.AccessEntries(DatasetRef(cloud.project, Monitoring));
    var ref := TableRef(clientProject, Monitoring, "v_enrich_bad_events_" + app.id.value);
    var existing := cloud.TableIfExists(ref);
    ghost var plan := CommonViewsPlan(cloud.state, cloud.project, clientProject, app.id.value);
    if existing.None? {
      outcome := cloud.Run([CreateOrReplaceView(ref, SelectApp(TableRef(cloud.project, Monitoring, "v_enrich_bad_events"), app.id.value)),
                            UpdateDatasetAccess(DatasetRef(cloud.project, Monitoring), entries + [ViewAccess(ref)])]);
    } else {
      outcome := Pass;
      assert plan[..Reached(plan, cloud.failing)] == [];
    }
  }
}
