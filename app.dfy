/** Organizations, apps and their datasources (metadata/core/domain/app.py). */
module Apps {
  import opened Common
  import opened EntityStatus
  import opened AppIdentity
  import Text

  /** A calendar date, ordered as Python orders `date` values. */
  datatype Date = Date(year: int, month: int, day: int)

  predicate Later(a: Date, b: Date)
  {
    a.year > b.year || (a.year == b.year && (a.month > b.month || (a.month == b.month && a.day > b.day)))
  }

  lemma LaterIsStrictTotalOrder(a: Date, b: Date, c: Date)
    ensures !Later(a, a)
    ensures Later(a, b) ==> !Later(b, a)
    ensures Later(a, b) && Later(b, c) ==> Later(a, c)
    ensures a != b ==> Later(a, b) || Later(b, a)
  {
  }

  /** `Timezone(name)`: accepted when `name` is one of the timezone database's names, which are a
      parameter here. */
  function NewTimezone(name: string, known: set<string>): (r: Result<string>)
    ensures r.Ok? <==> name in known
    ensures r.Ok? ==> r.value == name
  {
    if name in known then Ok(name) else Err(EntityError(InvalidTimezone))
  }

  // ---------------------------------------------------------------------------------------------
  // Datasources

  /** The "data up to" date after `update_data_freshness(d)`: the later of the current date and `d`,
      where an unset date counts as earlier than every date. */
  function FreshnessAfter(current: Option<Date>, d: Date): (r: Option<Date>)
    ensures r.Some?
    ensures r == current || r == Some(d)
    ensures !Later(d, r.value)
    ensures current.Some? ==> !Later(current.value, r.value)
  {
    if current.Some? && Later(current.value, d) then current else Some(d)
  }

  /** Applying two freshness updates in either order ends on the same date. */
  lemma FreshnessUpdatesCommute(current: Option<Date>, a: Date, b: Date)
    ensures FreshnessAfter(FreshnessAfter(current, a), b) == FreshnessAfter(FreshnessAfter(current, b), a)
  {
    LaterIsStrictTotalOrder(a, b, a);
    if current.Some? {
      var c := current.value;
      LaterIsStrictTotalOrder(c, a, b);
      LaterIsStrictTotalOrder(c, b, a);
      LaterIsStrictTotalOrder(a, c, b);
      LaterIsStrictTotalOrder(b, c, a);
      LaterIsStrictTotalOrder(a, b, c);
      LaterIsStrictTotalOrder(b, a, c);
    }
  }

  /** Updating with a date no later than the current one changes nothing. */
  lemma FreshnessNeverMovesBack(current: Date, d: Date)
    requires !Later(d, current)
    ensures FreshnessAfter(Some(current), d) == Some(current)
  {
    LaterIsStrictTotalOrder(current, d, current);
  }

  /** A materialized column as the generated `__eq__` of a datasource compares it: two columns are
      equal exactly when their values here are. The column's own fields are not part of this model. */
  type ColumnValue = nat

  /** The fields the generated `__eq__` of a datasource compares, as plain values. */
  datatype DatasourceRecord = DatasourceRecord(id: string, appId: AppId, hasDataFrom: Date, hasDataUpTo: Option<Date>,
                                               materializedColumns: Option<seq<ColumnValue>>)

  class Datasource {
    const id: string
    const appId: AppId
    const hasDataFrom: Date
    var hasDataUpTo: Option<Date>
    /** Not set by the constructor: a new datasource has `None` here. */
    const materializedColumns: Option<seq<ColumnValue>>

    constructor (id: string, appId: AppId, hasDataFrom: Date, hasDataUpTo: Option<Date>)
      ensures this.id == id && this.appId == appId && this.hasDataFrom == hasDataFrom
      ensures this.hasDataUpTo == hasDataUpTo && materializedColumns == None
    {
      this.id := id;
      this.appId := appId;
      this.hasDataFrom := hasDataFrom;
      this.hasDataUpTo := hasDataUpTo;
      materializedColumns := None;
    }

    function Record(): (r: DatasourceRecord)
      reads this
      ensures r.id == id && r.hasDataUpTo == hasDataUpTo
    {
      DatasourceRecord(id, appId, hasDataFrom, hasDataUpTo, materializedColumns)
    }

    /** `update_data_freshness`: the "data up to" date only moves forward. */
    method UpdateDataFreshness(d: Date)
      modifies this`hasDataUpTo
      ensures hasDataUpTo == FreshnessAfter(old(hasDataUpTo), d)
    {
      if hasDataUpTo.Some? && Later(hasDataUpTo.value, d) {
        return;
      }
      hasDataUpTo := Some(d);
    }
  }

  /** `datasource in self.datasources` as the code runs it: `@dataclass` generates a field-by-field
      `__eq__` that replaces `BaseEntity.__eq__`, so a datasource counts as present only when one
      with the same id, app, both dates and materialized columns is in the list. */
  predicate PresentAsWritten(existing: seq<DatasourceRecord>, d: DatasourceRecord)
  {
    d in existing
  }

  /** The intended membership test: `Datasource._identity()` is its id alone. */
  predicate PresentById(existing: seq<DatasourceRecord>, id: string)
  {
    exists i :: 0 <= i < |existing| && existing[i].id == id
  }

  /** What the id check of `add_datasource` is there to keep: no two datasources of an app share an id. */
  predicate DatasourceIdsDistinct(ds: seq<Datasource>)
  {
    forall i, j :: 0 <= i < j < |ds| ==> ds[i].id != ds[j].id
  }

  /** A second `user_history` datasource with a different start date is not caught as written, so the
      app would end up with two datasources of one id. */
  lemma SecondUserHistoryNotCaughtAsWritten(app: AppId, d1: Date, d2: Date)
    requires d1 != d2
    ensures !PresentAsWritten([DatasourceRecord("user_history", app, d1, None, None)],
                              DatasourceRecord("user_history", app, d2, None, None))
    ensures PresentById([DatasourceRecord("user_history", app, d1, None, None)], "user_history")
  {
    assert [DatasourceRecord("user_history", app, d1, None, None)][0].id == "user_history";
  }

  /** Anything present as written is present by id: the intended rule refuses every datasource the
      written one refuses, and more. */
  lemma PresentAsWrittenImpliesById(existing: seq<DatasourceRecord>, d: DatasourceRecord)
    requires PresentAsWritten(existing, d)
    ensures PresentById(existing, d.id)
  {
    var i :| 0 <= i < |existing| && existing[i] == d;
  }

  function Records(ds: seq<Datasource>): (r: seq<DatasourceRecord>)
    reads set i | 0 <= i < |ds| :: ds[i]
    ensures |r| == |ds|
    ensures forall i :: 0 <= i < |ds| ==> r[i] == ds[i].Record()
  {
    if ds == [] then [] else [ds[0].Record()] + Records(ds[1..])
  }

  /** The first datasource with the given id, as `get_datasource` returns it. */
  function FirstWithId(ds: seq<Datasource>, id: string): (r: Option<Datasource>)
    ensures r.None? <==> forall i :: 0 <= i < |ds| ==> ds[i].id != id
    ensures r.Some? ==> exists i :: (0 <= i < |ds| && ds[i] == r.value && r.value.id == id
      && forall j :: 0 <= j < i ==> ds[j].id != id)
  {
    if ds == [] then None
    else if ds[0].id == id then Some(ds[0])
    else
      var r := FirstWithId(ds[1..], id);
      assert forall j :: 1 <= j < |ds| ==> ds[j] == ds[1..][j - 1];
      r
  }

  // ---------------------------------------------------------------------------------------------
  // Organizations

  class Organization {
    var id: Option<int>
    const name: string
    const gcpProjectId: string
    var status: Status
    var statusUpdatedAt: Timestamp
    /** The principals granted on the organization's project, as the database holds them. */
    const principals: seq<string>

    /** A new organization is `NOT_READY` and has no principals. */
    constructor (name: string, gcpProjectId: string, now: Timestamp)
      ensures id == None && this.name == name && this.gcpProjectId == gcpProjectId
      ensures status == NotReady && statusUpdatedAt == now && principals == []
    {
      id := None;
      this.name := name;
      this.gcpProjectId := gcpProjectId;
      status := NotReady;
      statusUpdatedAt := now;
      principals := [];
    }

    /** An organization as a query loads it: its stored fields and its principal rows, in order. */
    constructor Loaded(id: int, name: string, gcpProjectId: string, status: Status, statusUpdatedAt: Timestamp,
                       principals: seq<string>)
      ensures this.id == Some(id) && this.name == name && this.gcpProjectId == gcpProjectId
      ensures this.status == status && this.statusUpdatedAt == statusUpdatedAt && this.principals == principals
    {
      this.id := Some(id);
      this.name := name;
      this.gcpProjectId := gcpProjectId;
      this.status := status;
      this.statusUpdatedAt := statusUpdatedAt;
      this.principals := principals;
    }

    /** Assigns any status, with no transition check, and stamps the time. */
    method SetStatus(s: Status, now: Timestamp)
      modifies this`status, this`statusUpdatedAt
      ensures status == s && statusUpdatedAt == now
    {
      status := s;
      statusUpdatedAt := now;
    }
  }

  // ---------------------------------------------------------------------------------------------
  // Apps

  const VendorPrefix: string := "com.algebraai.gametuner.gamespecific."

  /** `event_vendor`: the registry vendor of an app's own events. */
  function EventVendorOf(id: AppId): (r: string)
    ensures Text.StartsWith(r, VendorPrefix) && r[|VendorPrefix|..] == id.value
  {
    VendorPrefix + id.value
  }

  /** Distinct apps publish under distinct vendors. */
  lemma EventVendorInjective(a: AppId, b: AppId)
    requires EventVendorOf(a) == EventVendorOf(b)
    ensures a == b
  {
    assert a.value == EventVendorOf(a)[|VendorPrefix|..];
  }

  /** The character `random.choice(string.ascii_letters + string.digits)` yields for draw `k`. */
  function KeyChar(k: nat): (c: char)
    ensures Text.IsAsciiLetter(c) || Text.IsDigit(c)
  {
    var k := k % 62;
    if k < 26 then (97 + k) as char
    else if k < 52 then (65 + k - 26) as char
    else (48 + k - 52) as char
  }

  /** The api key drawn by sixteen independent random choices, which are a parameter here. */
  function ApiKey(draws: seq<nat>): (r: string)
    requires |draws| == 16
    ensures |r| == 16
    ensures forall i :: 0 <= i < |r| ==> Text.IsAsciiLetter(r[i]) || Text.IsDigit(r[i])
  {
    seq(16, i requires 0 <= i < 16 => KeyChar(draws[i]))
  }

  class App {
    const id: AppId
    const timezone: string
    const organization: Organization
    const apiKey: string
    var status: Status
    var statusUpdatedAt: Timestamp
    var datasources: seq<Datasource>

    /** A new app is `NOT_READY` with one datasource, `user_history`, whose data starts on the given
        date or, when none is given, on the creation date. Adding it to the empty list cannot fail. */
    constructor (id: AppId, timezone: string, organization: Organization, hasDataFrom: Option<Date>,
                 today: Date, now: Timestamp, draws: seq<nat>)
      requires |draws| == 16
      ensures this.id == id && this.timezone == timezone && this.organization == organization
      ensures apiKey == ApiKey(draws) && status == NotReady && statusUpdatedAt == now
      ensures |datasources| == 1 && fresh(datasources[0])
      ensures datasources[0].Record() ==
        DatasourceRecord("user_history", id, if hasDataFrom.Some? then hasDataFrom.value else today, None, None)
    {
      this.id := id;
      this.timezone := timezone;
      this.organization := organization;
      apiKey := ApiKey(draws);
      status := NotReady;
      statusUpdatedAt := now;
      var from := if hasDataFrom.Some? then hasDataFrom.value else today;
      var userHistory := new Datasource("user_history", id, from, None);
      datasources := [userHistory];
    }

    /** Assigns any status, with no transition check, and stamps the time. */
    method SetStatus(s: Status, now: Timestamp)
      modifies this`status, this`statusUpdatedAt
      ensures status == s && statusUpdatedAt == now
    {
      status := s;
      statusUpdatedAt := now;
    }

    /** `get_datasource`: the first datasource with that id, or None. */
    function GetDatasource(datasourceId: string): (r: Option<Datasource>)
      reads this
      ensures r.None? <==> forall i :: 0 <= i < |datasources| ==> datasources[i].id != datasourceId
      ensures r.Some? ==> r.value in datasources && r.value.id == datasourceId
    {
      FirstWithId(datasources, datasourceId)
    }

    /** `add_datasource` with identity by id: refuses a datasource whose id is already present,
        otherwise appends it at the end. */
    method AddDatasource(d: Datasource) returns (outcome: Outcome)
      modifies this`datasources
      ensures outcome == Fail(EntityError(DuplicateDatasource)) <==> old(GetDatasource(d.id)).Some?
      ensures outcome.Pass? <==> old(GetDatasource(d.id)).None?
      ensures outcome.Pass? ==> datasources == old(datasources) + [d]
      ensures outcome.Fail? ==> datasources == old(datasources)
      ensures DatasourceIdsDistinct(old(datasources)) ==> DatasourceIdsDistinct(datasources)
    {
      if GetDatasource(d.id).Some? {
        return Fail(EntityError(DuplicateDatasource));
      }
      datasources := datasources + [d];
      return Pass;
    }

    function EventVendor(): (r: string)
      ensures Text.StartsWith(r, VendorPrefix) && r[|VendorPrefix|..] == id.value
    {
      EventVendorOf(id)
    }
  }
}
