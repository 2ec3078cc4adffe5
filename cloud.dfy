/** The cloud the reconciliation passes drive: the registry bucket (metadata/core/gcs_iglu_uploader.py),
    the warehouse's tables and views, dataset access lists and project IAM policies. The services
    are not part of this model; what they hold is a value, every write is an effect that changes it,
    and a fixed set of effects fails, as a call that raises would. */
module Cloud {
  import opened Common
  import opened JsonValues

  /** A warehouse column: name, type, mode, description and nested columns. */
  datatype Field = Field(name: string, ftype: string, mode: string, description: Option<string>, subfields: seq<Field>)

  datatype TableRef = TableRef(project: string, dataset: string, table: string)

  datatype DatasetRef = DatasetRef(project: string, dataset: string)

  /** Day partitioning on a column, with an optional expiry of partitions in milliseconds. */
  datatype Partitioning = DayPartitioning(column: string, expirationMs: Option<int>)

  /** One output column of a view: a source expression and the name it is exposed under. */
  datatype Column = Column(source: string, alias: string)

  /** What a view selects; the SQL text itself is not modelled. */
  datatype ViewDef =
    | SelectAll(source: TableRef)
    | SelectApp(source: TableRef, appId: string)
    | SelectColumns(source: TableRef, columns: seq<Column>)

  /** A table with its columns and partitioning, or a view. */
  datatype Table =
    | Table(fields: seq<Field>, partitioning: Partitioning)
    | View(definition: ViewDef)

  datatype Binding = Binding(role: string, members: seq<string>)

  /** An entry of a dataset's access list: an authorized view, or any other grant. */
  datatype AccessEntry = ViewAccess(view: TableRef) | OtherAccess(entity: string)

  datatype Effect =
    | Upload(path: string, document: Json)
    | CreateTable(ref: TableRef, fields: seq<Field>, partitioning: Partitioning)
    | UpdateTableSchema(ref: TableRef, fields: seq<Field>)
    | CreateOrReplaceView(ref: TableRef, definition: ViewDef)
    | SetIamPolicy(resource: string, bindings: seq<Binding>)
    | UpdateDatasetAccess(dataset: DatasetRef, entries: seq<AccessEntry>)
    | SetUpAllApps
    | SetUpApp(appId: string)

  datatype State = State(
    documents: map<string, Json>,
    tables: map<TableRef, Table>,
    policies: map<string, seq<Binding>>,
    access: map<DatasetRef, seq<AccessEntry>>)

  /** What one successful effect does. A document is stored under `schemas/` followed by its path;
      a schema update leaves a view or a missing table alone; the app set-up passes are opaque. */
  function Apply(s: State, e: Effect): State
  {
    match e
    case Upload(path, document) => s.(documents := s.documents["schemas/" + path := document])
    case CreateTable(ref, fields, partitioning) => s.(tables := s.tables[ref := Table(fields, partitioning)])
    case UpdateTableSchema(ref, fields) =>
      if ref in s.tables && s.tables[ref].Table? then s.(tables := s.tables[ref := s.tables[ref].(fields := fields)])
      else s
    case CreateOrReplaceView(ref, definition) => s.(tables := s.tables[ref := View(definition)])
    case SetIamPolicy(resource, bindings) => s.(policies := s.policies[resource := bindings])
    case UpdateDatasetAccess(dataset, entries) => s.(access := s.access[dataset := entries])
    case SetUpAllApps => s
    case SetUpApp(_) => s
  }

  /** The state after a sequence of successful effects. */
  function Replay(s: State, trace: seq<Effect>): State
  {
    if trace == [] then s else Apply(Replay(s, trace[..|trace| - 1]), trace[|trace| - 1])
  }

  lemma {:induction false} ReplayAppend(s: State, a: seq<Effect>, b: seq<Effect>)
    ensures Replay(s, a + b) == Replay(Replay(s, a), b)
    decreases |b|
  {
    if b == [] {
      assert a + b == a;
    } else {
      assert (a + b)[..|a + b| - 1] == a + b[..|b| - 1];
      ReplayAppend(s, a, b[..|b| - 1]);
    }
  }

  /** Calls appended in two steps are the calls appended at once. */
  lemma CallsAppend(a: seq<Effect>, b: seq<Effect>, c: seq<Effect>)
    ensures a + b + c == a + (b + c)
  {
  }

  /** How far a sequence of calls gets: the index of the first call that fails, or its length. */
  function Reached(plan: seq<Effect>, failing: set<Effect>): (k: nat)
    ensures k <= |plan|
    ensures forall i :: 0 <= i < k ==> plan[i] !in failing
    ensures k < |plan| ==> plan[k] in failing
  {
    if plan == [] then 0
    else if plan[0] in failing then 0
    else
      var k := Reached(plan[1..], failing);
      assert forall i :: 1 <= i < |plan| ==> plan[i] == plan[1..][i - 1];
      k + 1
  }

  /** The outcome of running a sequence of calls: it passes when none of them fails. */
  function RunOutcome(plan: seq<Effect>, failing: set<Effect>): Outcome
  {
    if Reached(plan, failing) == |plan| then Pass else Fail(CollaboratorFailure)
  }

  /** Running `a` then `b` reaches into `b` only when all of `a` went through. */
  lemma {:induction false} ReachedAppend(a: seq<Effect>, b: seq<Effect>, failing: set<Effect>)
    ensures Reached(a + b, failing) == if Reached(a, failing) < |a| then Reached(a, failing)
                                       else |a| + Reached(b, failing)
    decreases |a|
  {
    if a != [] {
      assert (a + b)[0] == a[0];
      if a[0] !in failing {
        assert (a + b)[1..] == a[1..] + b;
        ReachedAppend(a[1..], b, failing);
      }
    } else {
      assert a + b == b;
    }
  }

  /** After `a` went through, running `b` continues where `a` stopped. */
  lemma RunThen(a: seq<Effect>, b: seq<Effect>, failing: set<Effect>)
    requires Reached(a, failing) == |a|
    ensures (a + b)[..Reached(a + b, failing)] == a + b[..Reached(b, failing)]
    ensures RunOutcome(a + b, failing) == RunOutcome(b, failing)
  {
    ReachedAppend(a, b, failing);
    assert (a + b)[..|a| + Reached(b, failing)] == a + b[..Reached(b, failing)];
  }

  /** Running `a` in full and then `b` from where it left off is running `a + b`. */
  lemma RunInSequence(s0: State, t0: seq<Effect>, a: seq<Effect>, b: seq<Effect>, failing: set<Effect>)
    requires Reached(a, failing) == |a|
    ensures t0 + a + b[..Reached(b, failing)] == t0 + (a + b)[..Reached(a + b, failing)]
    ensures Replay(Replay(s0, a), b[..Reached(b, failing)]) == Replay(s0, (a + b)[..Reached(a + b, failing)])
    ensures RunOutcome(a + b, failing) == RunOutcome(b, failing)
  {
    RunThen(a, b, failing);
    ReplayAppend(s0, a, b[..Reached(b, failing)]);
  }

  /** Once a call of `a` fails, nothing of `b` runs. */
  lemma RunStops(a: seq<Effect>, b: seq<Effect>, failing: set<Effect>)
    requires Reached(a, failing) < |a|
    ensures (a + b)[..Reached(a + b, failing)] == a[..Reached(a, failing)]
    ensures RunOutcome(a + b, failing) == Fail(CollaboratorFailure)
  {
    ReachedAppend(a, b, failing);
    assert (a + b)[..Reached(a, failing)] == a[..Reached(a, failing)];
  }

  /** A table or view as a lookup finds it. */
  function TableIn(s: State, ref: TableRef): (r: Option<Table>)
    ensures r.Some? <==> ref in s.tables
    ensures r.Some? ==> r.value == s.tables[ref]
  {
    if ref in s.tables then Some(s.tables[ref]) else None
  }

  /** The ids of a dataset's tables and views. */
  function TablesOf(s: State, dataset: DatasetRef): (r: set<string>)
    ensures forall t :: t in r <==> TableRef(dataset.project, dataset.dataset, t) in s.tables
  {
    set ref | ref in s.tables && ref.project == dataset.project && ref.dataset == dataset.dataset :: ref.table
  }

  /** A dataset's access entries; a dataset without a list has none. */
  function AccessIn(s: State, dataset: DatasetRef): (r: seq<AccessEntry>)
    ensures dataset !in s.access ==> r == []
  {
    if dataset in s.access then s.access[dataset] else []
  }

  /** A resource's IAM bindings; a resource without a policy has none. */
  function PolicyIn(s: State, resource: string): (r: seq<Binding>)
    ensures resource !in s.policies ==> r == []
  {
    if resource in s.policies then s.policies[resource] else []
  }

  /** The table or view an effect writes, if any. */
  function Writes(e: Effect): Option<TableRef>
  {
    match e
    case CreateTable(ref, _, _) => Some(ref)
    case UpdateTableSchema(ref, _) => Some(ref)
    case CreateOrReplaceView(ref, _) => Some(ref)
    case _ => None
  }

  /** No call of `calls` fails. */
  predicate Passes(calls: seq<Effect>, failing: set<Effect>)
  {
    forall e :: e in calls ==> e !in failing
  }

  /** No call of `trace` writes `ref`. */
  predicate Avoids(trace: seq<Effect>, ref: TableRef)
  {
    forall e :: e in trace ==> Writes(e) != Some(ref)
  }

  /** Calls that write other tables leave a table as it was. */
  lemma {:induction false} ReplayUntouched(s: State, trace: seq<Effect>, ref: TableRef)
    requires Avoids(trace, ref)
    ensures (ref in Replay(s, trace).tables) == (ref in s.tables)
    ensures ref in s.tables ==> Replay(s, trace).tables[ref] == s.tables[ref]
    decreases |trace|
  {
    if trace != [] {
      assert trace[|trace| - 1] in trace;
      ReplayUntouched(s, trace[..|trace| - 1], ref);
    }
  }

  class Client {
    /** The warehouse project the service account works in. */
    const project: string
    var state: State
    var trace: seq<Effect>
    /** The calls that raise. */
    const failing: set<Effect>
    ghost const start: State

    /** The state is always what the successful calls so far made of the starting state. */
    ghost predicate Valid()
      reads this
    {
      state == Replay(start, trace)
    }

    constructor (project: string, initial: State, failing: set<Effect>)
      ensures this.project == project && state == initial && trace == [] && this.failing == failing
      ensures start == initial && Valid()
    {
      this.project := project;
      state := initial;
      trace := [];
      this.failing := failing;
      start := initial;
    }

    /** Issues one call: a failing call raises and changes nothing; any other one is recorded and
        takes effect. */
    method Perform(e: Effect) returns (outcome: Outcome)
      requires Valid()
      modifies this`state, this`trace
      ensures Valid()
      ensures e in failing ==> outcome == Fail(CollaboratorFailure) && trace == old(trace) && state == old(state)
      ensures e !in failing ==> outcome == Pass && trace == old(trace) + [e] && state == Apply(old(state), e)
    {
      if e in failing {
        return Fail(CollaboratorFailure);
      }
      assert (trace + [e])[..|trace|] == trace;
      state := Apply(state, e);
      trace := trace + [e];
      return Pass;
    }

    /** Issues calls in order, stopping at the first that raises. */
    method Run(plan: seq<Effect>) returns (outcome: Outcome)
      requires Valid()
      modifies this`state, this`trace
      ensures Valid()
      ensures outcome == RunOutcome(plan, failing)
      ensures trace == old(trace) + plan[..Reached(plan, failing)]
      ensures state == Replay(old(state), plan[..Reached(plan, failing)])
    {
      var i := 0;
      while i < |plan|
        invariant 0 <= i <= |plan| && Valid()
        invariant forall j :: 0 <= j < i ==> plan[j] !in failing
        invariant trace == old(trace) + plan[..i]
        invariant state == Replay(old(state), plan[..i])
      {
        if plan[i] in failing {
          ReachedIsFirstFailure(plan, failing, i);
          return Fail(CollaboratorFailure);
        }
        assert plan[..i + 1] == plan[..i] + [plan[i]];
        assert plan[..i + 1][..i] == plan[..i];
        state := Apply(state, plan[i]);
        trace := trace + [plan[i]];
        assert (old(trace) + plan[..i + 1])[..|old(trace) + plan[..i]|] == old(trace) + plan[..i];
        i := i + 1;
      }
      ReachedIsFirstFailure(plan, failing, |plan|);
      assert plan[..|plan|] == plan;
      return Pass;
    }

    /** `get_table_if_exists`. */
    function TableIfExists(ref: TableRef): (r: Option<Table>)
      reads this
      ensures r.Some? <==> ref in state.tables
      ensures r.Some? ==> r.value == state.tables[ref]
    {
      TableIn(state, ref)
    }

    /** `list_tables`: the ids of a dataset's tables and views. */
    function TablesIn(dataset: DatasetRef): (r: set<string>)
      reads this
      ensures r == TablesOf(state, dataset)
    {
      set ref | ref in state.tables && ref.project == dataset.project && ref.dataset == dataset.dataset :: ref.table
    }

    /** `get_iam_policy`. */
    function Policy(resource: string): (r: seq<Binding>)
      reads this
      ensures r == PolicyIn(state, resource)
    {
      if resource in state.policies then state.policies[resource] else []
    }

    /** `get_dataset(...).access_entries`. */
    function AccessEntries(dataset: DatasetRef): (r: seq<AccessEntry>)
      reads this
      ensures r == AccessIn(state, dataset)
    {
      if dataset in state.access then state.access[dataset] else []
    }
  }

  /** `Reached` is the first index whose call fails. */
  lemma {:induction false} ReachedIsFirstFailure(plan: seq<Effect>, failing: set<Effect>, i: nat)
    requires i <= |plan|
    requires forall j :: 0 <= j < i ==> plan[j] !in failing
    requires i < |plan| ==> plan[i] in failing
    ensures Reached(plan, failing) == i
  {
  }
}
