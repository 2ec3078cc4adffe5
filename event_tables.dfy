/** The warehouse tables and views of one event or context (metadata/core/event_tables_creator.py):
    the column list compiled from its parameters, the atomic parameters and the embedded contexts;
    the same table in the app's `_load`, `_raw` and `_backfill` datasets, created day-partitioned on
    `date_` or widened when columns are new; and the two views over `_load` and `_raw`. */
module EventTables {
  import opened Common
  import opened Schemas
  import opened Cloud
  import Events
  import Text

  // ---------------------------------------------------------------------------------------------
  // Columns

  /** `convert_type`: the table from `ParameterType` values to warehouse types; any other string is
      missing from it (a KeyError). */
  function ConvertTypeName(s: string): Option<string>
  {
    if s == "integer" then Some("integer")
    else if s == "number" then Some("float")
    else if s == "boolean" then Some("boolean")
    else if s == "string" then Some("string")
    else if s == "date" then Some("date")
    else if s == "datetime" then Some("timestamp")
    else if s == "map<string,integer>" || s == "map<string,number>" || s == "map<string,boolean>"
            || s == "map<string,string>" || s == "map<string,date>" || s == "map<string,datetime>" then Some("record")
    else None
  }

  /** The warehouse type each parameter type is meant to have: numbers are floats, datetimes are
      timestamps, maps are records, and the other scalars keep their names. */
  function WarehouseType(t: ParameterType): string
  {
    match t
    case MapOf(_) => "record"
    case Simple(Number) => "float"
    case Simple(DateTime) => "timestamp"
    case Simple(v) => ScalarName(v)
  }

  /** The lookup has an entry for every member of `ParameterType`, and it is the intended type. */
  lemma ConvertTypeAgrees(t: ParameterType)
    ensures ConvertTypeName(TypeName(t)) == Some(WarehouseType(t))
  {
    match t
    case Simple(v) =>
    case MapOf(v) =>
      match v
      case Number => assert TypeName(t) == "map<string,number>";
      case Boolean => assert TypeName(t) == "map<string,boolean>";
      case Integer => assert TypeName(t) == "map<string,integer>";
      case Date => assert TypeName(t) == "map<string,date>";
      case DateTime => assert TypeName(t) == "map<string,datetime>";
      case String => assert TypeName(t) == "map<string,string>";
  }

  /** `convert_type(t.value)`, which never raises for a member of `ParameterType`. */
  function ConvertType(t: ParameterType): (r: string)
    ensures r == WarehouseType(t)
  {
    ConvertTypeAgrees(t);
    ConvertTypeName(TypeName(t)).value
  }

  /** A map is a record; every scalar has a warehouse type of its own. */
  lemma ConvertTypeMeaning(t: ParameterType, u: ParameterType)
    ensures ConvertType(t) == "record" <==> t.MapOf?
    ensures t.Simple? && u.Simple? && ConvertType(t) == ConvertType(u) ==> t == u
  {
  }

  /** `_get_mode_by_type`. */
  function ModeOf(typeName: string): string
  {
    if Text.StartsWith(typeName, "map") then "REPEATED" else "NULLABLE"
  }

  lemma ModeOfType(t: ParameterType)
    ensures ModeOf(TypeName(t)) == "REPEATED" <==> t.MapOf?
  {
    match t
    case Simple(v) =>
      assert TypeName(t)[0] != 'm' by {
        match v
        case Number => case Boolean => case Integer => case Date => case DateTime => case String =>
      }
    case MapOf(v) =>
      assert TypeName(t)[..3] == "map";
  }

  /** `_get_schema_fields_by_type`: a map's key and value columns; a scalar has none. */
  function MapSubfields(t: ParameterType): (r: seq<Field>)
    ensures t.Simple? <==> r == []
  {
    match t
    case Simple(_) => []
    case MapOf(v) =>
      [Field("key", ConvertType(Simple(String)), "NULLABLE", Some("Key of map object"), []),
       Field("value", ConvertType(Simple(v)), "NULLABLE", Some("Value of map object"), [])]
  }

  /** The column of one parameter. */
  function ParameterField(p: SchemaParameter): (f: Field)
    ensures f.name == p.name && f.description == p.description
    ensures f.mode == "REPEATED" <==> p.ptype.MapOf?
    ensures f.ftype == ConvertType(p.ptype)
  {
    ModeOfType(p.ptype);
    Field(p.name, ConvertType(p.ptype), ModeOf(TypeName(p.ptype)), p.description, MapSubfields(p.ptype))
  }

  function ParameterFields(ps: seq<SchemaParameter>): (r: seq<Field>)
    ensures |r| == |ps| && forall i :: 0 <= i < |ps| ==> r[i] == ParameterField(ps[i])
  {
    seq(|ps|, i requires 0 <= i < |ps| => ParameterField(ps[i]))
  }

  /** `_build_params_schema_field`: a `params` record holding a column per parameter, or nothing. */
  function ParamsField(ps: seq<SchemaParameter>): (r: Option<Field>)
    ensures r.None? <==> ps == []
    ensures r.Some? ==> r.value.name == "params" && r.value.ftype == "RECORD" && r.value.subfields == ParameterFields(ps)
  {
    if ps == [] then None else Some(Field("params", "RECORD", "NULLABLE", None, ParameterFields(ps)))
  }

  function AtomicField(a: Events.AtomicParameter): (f: Field)
    ensures f.name == a.name && f.ftype == ConvertType(a.ptype) && f.mode == "NULLABLE" && f.subfields == []
  {
    Field(a.name, ConvertType(a.ptype), "NULLABLE", None, [])
  }

  function AtomicFields(atomics: seq<Events.AtomicParameter>): (r: seq<Field>)
    ensures |r| == |atomics| && forall i :: 0 <= i < |atomics| ==> r[i] == AtomicField(atomics[i])
  {
    seq(|atomics|, i requires 0 <= i < |atomics| => AtomicField(atomics[i]))
  }

  /** The record column of an embedded context: its name, and its parameters' columns. */
  function ContextField(e: SchemaView): (f: Field)
    ensures f.name == e.name && f.ftype == "RECORD" && f.subfields == ParameterFields(e.parameters)
  {
    Field(e.name, "RECORD", "NULLABLE", None, ParameterFields(e.parameters))
  }

  function ContextFields(embedded: seq<SchemaView>): (r: seq<Field>)
    ensures |r| == |embedded| && forall i :: 0 <= i < |embedded| ==> r[i] == ContextField(embedded[i])
  {
    seq(|embedded|, i requires 0 <= i < |embedded| => ContextField(embedded[i]))
  }

  function OptionList(f: Option<Field>): (r: seq<Field>)
    ensures f.None? ==> r == []
    ensures f.Some? ==> r == [f.value]
  {
    if f.Some? then [f.value] else []
  }

  /** `_build_event_schema`: the atomic columns, then the `params` record when there are
      parameters, then a record per embedded context. An embedded context without parameters has no
      `params` record whose columns could be taken, which raises. */
  function EventColumns(ps: seq<SchemaParameter>, embedded: seq<SchemaView>,
                        atomics: seq<Events.AtomicParameter>): (r: Result<seq<Field>>)
    ensures r.Err? <==> exists i :: 0 <= i < |embedded| && embedded[i].parameters == []
    ensures r.Err? ==> r.error == AttributeError
  {
    if exists i :: 0 <= i < |embedded| && embedded[i].parameters == [] then Err(AttributeError)
    else Ok(AtomicFields(atomics) + OptionList(ParamsField(ps)) + ContextFields(embedded))
  }

  /** Every parameter, atomic parameter and embedded context has its column, under its own name,
      with its own type. */
  lemma EventColumnsHoldEverything(ps: seq<SchemaParameter>, embedded: seq<SchemaView>,
                                   atomics: seq<Events.AtomicParameter>)
    requires EventColumns(ps, embedded, atomics).Ok?
    ensures var cols := EventColumns(ps, embedded, atomics).value;
      |cols| == |atomics| + (if ps == [] then 0 else 1) + |embedded| &&
      (forall i :: 0 <= i < |atomics| ==> cols[i].name == atomics[i].name && cols[i].ftype == ConvertType(atomics[i].ptype)) &&
      (ps != [] ==>
        cols[|atomics|].name == "params" && |cols[|atomics|].subfields| == |ps| &&
        forall i :: 0 <= i < |ps| ==>
          cols[|atomics|].subfields[i].name == ps[i].name && cols[|atomics|].subfields[i].ftype == ConvertType(ps[i].ptype)) &&
      (forall i :: 0 <= i < |embedded| ==>
        cols[|cols| - |embedded| + i].name == embedded[i].name &&
        |cols[|cols| - |embedded| + i].subfields| == |embedded[i].parameters|)
  {
    var a, p, c := AtomicFields(atomics), OptionList(ParamsField(ps)), ContextFields(embedded);
    var cols := a + p + c;
    assert EventColumns(ps, embedded, atomics).value == cols;
    assert forall i :: 0 <= i < |atomics| ==> cols[i] == a[i];
    assert ps != [] ==> cols[|atomics|] == p[0];
    assert forall i :: 0 <= i < |embedded| ==> cols[|cols| - |embedded| + i] == c[i];
  }

  /** `_has_schema_diff`: the table has columns, and a new column is not among them. */
  predicate HasSchemaDiff(existing: seq<Field>, columns: seq<Field>)
  {
    existing != [] && exists f :: f in columns && f !in existing
  }

  /** A table that already has all the columns, or more, is left as it is. */
  lemma NoDiffWhenCovered(existing: seq<Field>, columns: seq<Field>)
    ensures (forall f :: f in columns ==> f in existing) ==> !HasSchemaDiff(existing, columns)
    ensures existing != [] && !HasSchemaDiff(existing, columns) ==> forall f :: f in columns ==> f in existing
  {
  }

  // ---------------------------------------------------------------------------------------------
  // Views

  /** `clean_up_context_name`: drop a leading `ctx_`, then a trailing `_context`, then add `_`. */
  function CleanContextName(name: string): string
  {
    var a := if Text.StartsWith(name, "ctx_") then name[4..] else name;
    var b := if Text.EndsWith(a, "_context") then a[..|a| - 8] else a;
    b + "_"
  }

  /** A wrapped context name `ctx_X_context` shows as `X_`; the shortest one, `ctx_context`, loses
      only its `ctx_` and shows as `context_`. */
  lemma CleanContextNameOfWrapped(x: string)
    ensures CleanContextName("ctx_" + x + "_context") == x + "_"
    ensures CleanContextName("ctx_context") == "context_"
  {
    var n := "ctx_" + x + "_context";
    assert n[..4] == "ctx_" && n[4..] == x + "_context";
    var a := n[4..];
    assert a[|a| - 8..] == "_context" && a[..|a| - 8] == x;
    var m := "ctx_context";
    assert m[..4] == "ctx_" && m[4..] == "context";
    assert !Text.EndsWith("context", "_context");
  }

  /** `clean_up_atomic_name`: add `_` unless the name already ends with one. */
  function CleanAtomicName(name: string): (r: string)
    ensures |r| >= 1 && r[|r| - 1] == '_'
    ensures Text.StartsWith(r, name)
  {
    if |name| >= 1 && name[|name| - 1] == '_' then name else name + "_"
  }

  /** The atomic columns every view lists first, whether or not they are among the atomics. */
  const ImportantAtomics: seq<string> := ["app_id", "date_", "event_tstamp", "user_id", "event_name"]

  /** The view's columns in order: the important atomics, each parameter from the `params` record
      under its own name, the other atomics, and the embedded contexts. */
  function ViewColumns(ps: seq<SchemaParameter>, embedded: seq<SchemaView>,
                       atomics: seq<Events.AtomicParameter>): (r: seq<Column>)
    ensures |r| >= |ImportantAtomics| + |ps| + |embedded|
    ensures forall i :: 0 <= i < |ImportantAtomics| ==> r[i] == Column(ImportantAtomics[i], CleanAtomicName(ImportantAtomics[i]))
    ensures forall i :: 0 <= i < |ps| ==> r[|ImportantAtomics| + i] == Column("params." + ps[i].name, ps[i].name)
    ensures forall i :: 0 <= i < |embedded| ==>
      r[|r| - |embedded| + i] == Column(embedded[i].name, CleanContextName(embedded[i].name))
  {
    var important := seq(|ImportantAtomics|, i requires 0 <= i < |ImportantAtomics| =>
      Column(ImportantAtomics[i], CleanAtomicName(ImportantAtomics[i])));
    var params := seq(|ps|, i requires 0 <= i < |ps| => Column("params." + ps[i].name, ps[i].name));
    var others := OtherAtomicColumns(atomics);
    var contexts := seq(|embedded|, i requires 0 <= i < |embedded| =>
      Column(embedded[i].name, CleanContextName(embedded[i].name)));
    important + params + others + contexts
  }

  /** The atomics not among the important ones, in order. */
  function OtherAtomicColumns(atomics: seq<Events.AtomicParameter>): (r: seq<Column>)
    ensures forall c :: c in r <==> exists a :: a in atomics && a.name !in ImportantAtomics
                                               && c == Column(a.name, CleanAtomicName(a.name))
  {
    if atomics == [] then []
    else
      var rest := OtherAtomicColumns(atomics[1..]);
      assert forall a :: a in atomics <==> a == atomics[0] || a in atomics[1..];
      if atomics[0].name in ImportantAtomics then rest
      else [Column(atomics[0].name, CleanAtomicName(atomics[0].name))] + rest
  }

  /** A parameter is exposed under its own name, which never ends in `_`; the atomics and the
      contexts always do. So no parameter column can be shadowed by another column. */
  lemma ParameterAliasesStandApart(ps: seq<SchemaParameter>, embedded: seq<SchemaView>,
                                   atomics: seq<Events.AtomicParameter>, i: nat, j: nat)
    requires forall k :: 0 <= k < |ps| ==> ValidName(ps[k].name)
    requires i < |ps| && j < |ViewColumns(ps, embedded, atomics)|
    requires j != |ImportantAtomics| + i
    requires DistinctNames(ps)
    ensures ViewColumns(ps, embedded, atomics)[j].alias != ps[i].name
  {
    var r := ViewColumns(ps, embedded, atomics);
    var n := ps[i].name;
    assert n[|n| - 1] == n[1..][|n[1..]| - 1];
    if |ImportantAtomics| <= j < |ImportantAtomics| + |ps| {
      var k := j - |ImportantAtomics|;
      assert r[j].alias == ps[k].name;
      assert k != i;
    } else if j < |ImportantAtomics| {
      assert r[j].alias[|r[j].alias| - 1] == '_';
    } else if j >= |r| - |embedded| {
      var k := j - (|r| - |embedded|);
      var c := CleanContextName(embedded[k].name);
      assert c[|c| - 1] == '_';
    } else {
      OtherColumnsEndInUnderscore(atomics, r[j]);
    }
  }

  lemma OtherColumnsEndInUnderscore(atomics: seq<Events.AtomicParameter>, c: Column)
    ensures c in OtherAtomicColumns(atomics) ==> |c.alias| >= 1 && c.alias[|c.alias| - 1] == '_'
  {
  }

  // ---------------------------------------------------------------------------------------------
  // Tables and views

  /** Partitions of the `_load` tables expire after thirty days. */
  const LoadPartitionExpirationMs: int := 30 * 24 * 60 * 60 * 1000

  /** `_process_event_table`'s write, given what a lookup found: a missing table is created with the
      columns, partitioned by day on `date_`; an existing one takes the columns only when some are
      new to it; a view found there is left alone. */
  function TableStep(existing: Option<Table>, ref: TableRef, columns: seq<Field>, expiry: Option<int>): (r: seq<Effect>)
    ensures |r| <= 1 && forall e :: e in r ==> Writes(e) == Some(ref)
    ensures r == [] <==> existing.Some? && (existing.value.View? || !HasSchemaDiff(existing.value.fields, columns))
  {
    match existing
    case None => [CreateTable(ref, columns, DayPartitioning("date_", expiry))]
    case Some(Table(fields, _)) => if HasSchemaDiff(fields, columns) then [UpdateTableSchema(ref, columns)] else []
    // Cannot happen as the maintainer runs it: views live only in the `_v_load`/`_v_raw` datasets,
    // never at a table's id.
    case Some(View(_)) => []
  }

  /** Once its write went through, a table needs no other: it holds exactly the columns. */
  lemma TableStepSettles(s: State, ref: TableRef, columns: seq<Field>, expiry: Option<int>)
    ensures var step := TableStep(TableIn(s, ref), ref, columns, expiry);
      TableStep(TableIn(Replay(s, step), ref), ref, columns, expiry) == []
  {
    var step := TableStep(TableIn(s, ref), ref, columns, expiry);
    if step != [] {
      assert step[..|step| - 1] == [];
      assert Replay(s, step) == Apply(s, step[0]);
      assert !HasSchemaDiff(columns, columns);
    }
  }

  function LoadTable(project: string, appId: string, name: string): TableRef { TableRef(project, appId + "_load", name) }
  function RawTable(project: string, appId: string, name: string): TableRef { TableRef(project, appId + "_raw", name) }
  function BackfillTable(project: string, appId: string, name: string): TableRef { TableRef(project, appId + "_backfill", name) }

  /** `_process_event_view`: the view in `view_dataset`, replaced every time, over the table of the
      same name in `table_dataset`. */
  function ViewStep(project: string, tableDataset: string, viewDataset: string, name: string,
                    ps: seq<SchemaParameter>, embedded: seq<SchemaView>, atomics: seq<Events.AtomicParameter>): Effect
  {
    CreateOrReplaceView(TableRef(project, viewDataset, name),
                        SelectColumns(TableRef(project, tableDataset, name), ViewColumns(ps, embedded, atomics)))
  }

  /** The two views: `_v_load` over `_load` and `_v_raw` over `_raw`. */
  function ViewSteps(project: string, appId: string, name: string, ps: seq<SchemaParameter>,
                     embedded: seq<SchemaView>, atomics: seq<Events.AtomicParameter>): (r: seq<Effect>)
    ensures forall e :: e in r ==> Writes(e) in {Some(TableRef(project, appId + "_v_load", name)),
                                                 Some(TableRef(project, appId + "_v_raw", name))}
  {
    [ViewStep(project, appId + "_load", appId + "_v_load", name, ps, embedded, atomics),
     ViewStep(project, appId + "_raw", appId + "_v_raw", name, ps, embedded, atomics)]
  }

  /** The calls from state `s` for three tables, in order, followed by `views`. */
  function TablesThen(s: State, load: TableRef, raw: TableRef, backfill: TableRef, columns: seq<Field>,
                      views: seq<Effect>): seq<Effect>
  {
    TableStep(TableIn(s, load), load, columns, Some(LoadPartitionExpirationMs)) +
    (TableStep(TableIn(s, raw), raw, columns, None) +
     (TableStep(TableIn(s, backfill), backfill, columns, None) + views))
  }

  /** `maintain_event_table` as the calls it makes from state `s`: the `_load`, `_raw` and
      `_backfill` tables in that order, then the two views. Columns that cannot be built raise before
      any call. */
  function MaintenancePlan(s: State, project: string, appId: string, name: string, ps: seq<SchemaParameter>,
                           embedded: seq<SchemaView>, atomics: seq<Events.AtomicParameter>): (r: Result<seq<Effect>>)
    ensures r.Err? <==> EventColumns(ps, embedded, atomics).Err?
    ensures r.Err? ==> r.error == AttributeError
  {
    match EventColumns(ps, embedded, atomics)
    case Err(e) => Err(e)
    case Ok(columns) =>
      Ok(TablesThen(s, LoadTable(project, appId, name), RawTable(project, appId, name), BackfillTable(project, appId, name),
                    columns, ViewSteps(project, appId, name, ps, embedded, atomics)))
  }

  /** The five tables and views of one app are five different ones. */
  lemma DatasetsDistinct(project: string, appId: string, name: string)
    ensures var load, raw, backfill := LoadTable(project, appId, name), RawTable(project, appId, name), BackfillTable(project, appId, name);
      var vload, vraw := TableRef(project, appId + "_v_load", name), TableRef(project, appId + "_v_raw", name);
      load != raw && load != backfill && raw != backfill &&
      vload != load && vload != raw && vload != backfill && vraw != load && vraw != raw && vraw != backfill
  {
  }

  /** After all of `TablesThen` went through, its three tables need no further write. */
  lemma TablesSettle(s: State, load: TableRef, raw: TableRef, backfill: TableRef, columns: seq<Field>, views: seq<Effect>)
    requires load != raw && load != backfill && raw != backfill
    requires Avoids(views, load) && Avoids(views, raw) && Avoids(views, backfill)
    ensures TablesThen(Replay(s, TablesThen(s, load, raw, backfill, columns, views)), load, raw, backfill, columns, views)
      == views
  {
    var l := TableStep(TableIn(s, load), load, columns, Some(LoadPartitionExpirationMs));
    var r := TableStep(TableIn(s, raw), raw, columns, None);
    var b := TableStep(TableIn(s, backfill), backfill, columns, None);
    ReplayAppend(s, l, r + (b + views));
    ReplayAppend(Replay(s, l), r, b + views);
    ReplayAppend(Replay(Replay(s, l), r), b, views);
    var s1 := Replay(s, l);
    var s2 := Replay(s1, r);
    var s3 := Replay(s2, b);
    var s4 := Replay(s3, views);
    assert Replay(s, TablesThen(s, load, raw, backfill, columns, views)) == s4;
    // `_load` is written only by its own step.
    ReplayUntouched(s1, r, load);
    ReplayUntouched(s2, b, load);
    ReplayUntouched(s3, views, load);
    TableStepSettles(s, load, columns, Some(LoadPartitionExpirationMs));
    assert TableIn(s4, load) == TableIn(s1, load);
    // `_raw`.
    ReplayUntouched(s, l, raw);
    ReplayUntouched(s2, b, raw);
    ReplayUntouched(s3, views, raw);
    TableStepSettles(s1, raw, columns, None);
    assert TableIn(s1, raw) == TableIn(s, raw);
    assert TableIn(s4, raw) == TableIn(s2, raw);
    // `_backfill`.
    ReplayUntouched(s, l, backfill);
    ReplayUntouched(s1, r, backfill);
    ReplayUntouched(s3, views, backfill);
    TableStepSettles(s2, backfill, columns, None);
    assert TableIn(s2, backfill) == TableIn(s, backfill);
    assert TableIn(s4, backfill) == TableIn(s3, backfill);
  }

  /** A second run right after a complete first run writes no table: only the views are replaced. */
  lemma MaintenanceSettles(s: State, project: string, appId: string, name: string, ps: seq<SchemaParameter>,
                           embedded: seq<SchemaView>, atomics: seq<Events.AtomicParameter>)
    requires MaintenancePlan(s, project, appId, name, ps, embedded, atomics).Ok?
    ensures var plan := MaintenancePlan(s, project, appId, name, ps, embedded, atomics).value;
      MaintenancePlan(Replay(s, plan), project, appId, name, ps, embedded, atomics)
        == Ok(ViewSteps(project, appId, name, ps, embedded, atomics))
  {
    DatasetsDistinct(project, appId, name);
    var views := ViewSteps(project, appId, name, ps, embedded, atomics);
    TablesSettle(s, LoadTable(project, appId, name), RawTable(project, appId, name), BackfillTable(project, appId, name),
                 EventColumns(ps, embedded, atomics).value, views);
  }

  /** `maintain_event_table`: looks each table up just before writing it, and stops at the first call
      that raises. */
  method MaintainEventTable(cloud: Client, appId: string, name: string, ps: seq<SchemaParameter>,
                            atomics: seq<Events.AtomicParameter>, embedded: seq<SchemaView>) returns (outcome: Outcome)
    requires cloud.Valid()
    modifies cloud`state, cloud`trace
    ensures cloud.Valid()
    ensures var plan := MaintenancePlan(old(cloud.state), cloud.project, appId, name, ps, embedded, atomics);
      if plan.Err? then outcome == Fail(plan.error) && cloud.trace == old(cloud.trace) && cloud.state == old(cloud.state)
      else outcome == RunOutcome(plan.value, cloud.failing) &&
           cloud.trace == old(cloud.trace) + plan.value[..Reached(plan.value, cloud.failing)] &&
           cloud.state == Replay(old(cloud.state), plan.value[..Reached(plan.value, cloud.failing)])
  {
    var columns := EventColumns(ps, embedded, atomics);
    if columns.Err? {
      return Fail(columns.error);
    }
    DatasetsDistinct(cloud.project, appId, name);
    outcome := ProcessTables(cloud, LoadTable(cloud.project, appId, name), RawTable(cloud.project, appId, name),
                             BackfillTable(cloud.project, appId, name), columns.value,
                             ViewSteps(cloud.project, appId, name, ps, embedded, atomics));
  }

  /** `_process_event_table`: looks the table up, then makes its write, if any. */
  method ProcessTable(cloud: Client, ref: TableRef, columns: seq<Field>, expiry: Option<int>) returns (outcome: Outcome)
    requires cloud.Valid()
    modifies cloud`state, cloud`trace
    ensures cloud.Valid()
    ensures var step := TableStep(TableIn(old(cloud.state), ref), ref, columns, expiry);
      outcome == RunOutcome(step, cloud.failing) &&
      cloud.trace == old(cloud.trace) + step[..Reached(step, cloud.failing)] &&
      cloud.state == Replay(old(cloud.state), step[..Reached(step, cloud.failing)])
  {
    var step := TableStep(cloud.TableIfExists(ref), ref, columns, expiry);
    outcome := cloud.Run(step);
  }

  /** The three `_process_event_table` calls and then the views, stopping at the first call that
      raises. */
  method ProcessTables(cloud: Client, load: TableRef, raw: TableRef, backfill: TableRef, columns: seq<Field>,
                       views: seq<Effect>) returns (outcome: Outcome)
    requires cloud.Valid()
    requires load != raw && load != backfill && raw != backfill
    modifies cloud`state, cloud`trace
    ensures cloud.Valid()
    ensures var plan := TablesThen(old(cloud.state), load, raw, backfill, columns, views);
      outcome == RunOutcome(plan, cloud.failing) &&
      cloud.trace == old(cloud.trace) + plan[..Reached(plan, cloud.failing)] &&
      cloud.state == Replay(old(cloud.state), plan[..Reached(plan, cloud.failing)])
  {
    ghost var s0, t0, failing := cloud.state, cloud.trace, cloud.failing;
    ghost var l := TableStep(TableIn(s0, load), load, columns, Some(LoadPartitionExpirationMs));
    ghost var r := TableStep(TableIn(s0, raw), raw, columns, None);
    ghost var b := TableStep(TableIn(s0, backfill), backfill, columns, None);

    outcome := ProcessTable(cloud, load, columns, Some(LoadPartitionExpirationMs));
    if outcome.Fail? {
      RunStops(l, r + (b + views), failing);
      return;
    }
    assert l[..|l|] == l;
    ghost var s1 := cloud.state;
    ReplayUntouched(s0, l, raw);
    ReplayUntouched(s0, l, backfill);

    outcome := ProcessTable(cloud, raw, columns, None);
    if outcome.Fail? {
      RunStops(r, b + views, failing);
      RunInSequence(s0, t0, l, r + (b + views), failing);
      return;
    }
    assert r[..|r|] == r;
    ReplayUntouched(s1, r, backfill);
    ghost var s2 := cloud.state;

    outcome := ProcessTable(cloud, backfill, columns, None);
    if outcome.Fail? {
      RunStops(b, views, failing);
      RunInSequence(s1, t0 + l, r, b + views, failing);
      RunInSequence(s0, t0, l, r + (b + views), failing);
      return;
    }
    assert b[..|b|] == b;

    outcome := cloud.Run(views);
    RunInSequence(s2, t0 + l + r, b, views, failing);
    RunInSequence(s1, t0 + l, r, b + views, failing);
    RunInSequence(s0, t0, l, r + (b + views), failing);
  }
}
