/** The event service (metadata/api/event/service.py): creating an event or updating one from a
    request, and reading one back. Each call runs in one database session that is committed only at
    the end, so whatever raises before the commit leaves the stored rows as they were. */
module EventService {
  import opened Common
  import opened EntityStatus
  import opened AppIdentity
  import opened Schemas
  import opened Events
  import opened Store
  import Apps
  import Text

  /** `UpdateParameterDTO`: what a request may change on a parameter the event already has. */
  datatype ParameterUpdate = ParameterUpdate(name: string, isGdpr: bool, alias: Option<string>, description: Option<string>)

  /** `CreateParameterDTO`. */
  datatype NewParameter = NewParameter(name: string, ptype: ParameterType, introducedAtVersion: int,
                                       alias: Option<string>, description: Option<string>, isGdpr: bool)

  /** `CreateOrUpdateEventDTO`. */
  datatype EventRequest = EventRequest(name: string, alias: Option<string>, description: Option<string>,
                                       existing: seq<ParameterUpdate>, newParameters: seq<NewParameter>)

  // ---------------------------------------------------------------------------------------------
  // Updates of existing parameters

  /** A parameter with the description, alias and GDPR flag of an update written over its own. */
  function Updated(p: SchemaParameter, u: ParameterUpdate): SchemaParameter
  {
    p.(description := u.description, alias := u.alias, isGdpr := u.isGdpr)
  }

  /** Two parameter lists that differ at most in the fields an update writes. */
  predicate SameShape(a: seq<SchemaParameter>, b: seq<SchemaParameter>)
  {
    |a| == |b| && forall i :: 0 <= i < |a| ==>
      a[i].name == b[i].name && a[i].ptype == b[i].ptype && a[i].introducedAtVersion == b[i].introducedAtVersion
  }

  lemma SameShapeSameNames(a: seq<SchemaParameter>, b: seq<SchemaParameter>)
    requires SameShape(a, b)
    ensures forall n :: HasName(a, n) <==> HasName(b, n)
  {
    forall n ensures HasName(a, n) <==> HasName(b, n) {
      if HasName(a, n) {
        var i :| 0 <= i < |a| && a[i].name == n;
        assert b[i].name == n;
      }
      if HasName(b, n) {
        var i :| 0 <= i < |b| && b[i].name == n;
        assert a[i].name == n;
      }
    }
  }

  /** The loop over `existing_parameters`: each update is written over the first parameter of its
      name, in request order; a name the list does not have raises. */
  function ApplyUpdates(ps: seq<SchemaParameter>, updates: seq<ParameterUpdate>): (r: Result<seq<SchemaParameter>>)
    ensures r.Err? <==> exists k :: 0 <= k < |updates| && !HasName(ps, updates[k].name)
    ensures r.Err? ==> r.error == EntityError(UnknownParameter)
    ensures r.Ok? ==> SameShape(ps, r.value)
    decreases |updates|
  {
    if updates == [] then Ok(ps)
    else
      match IndexOfName(ps, updates[0].name)
      case None => Err(EntityError(UnknownParameter))
      case Some(i) =>
        var next := ps[i := Updated(ps[i], updates[0])];
        SameShapeSameNames(ps, next);
        assert forall k :: 1 <= k < |updates| ==> updates[k] == updates[1..][k - 1];
        ApplyUpdates(next, updates[1..])
  }

  /** The last update of a request that names `name`. */
  function LastUpdateFor(updates: seq<ParameterUpdate>, name: string): (r: Option<ParameterUpdate>)
    ensures r.None? <==> forall k :: 0 <= k < |updates| ==> updates[k].name != name
    ensures r.Some? ==> exists k :: (0 <= k < |updates| && updates[k] == r.value && r.value.name == name
      && forall j :: k < j < |updates| ==> updates[j].name != name)
  {
    if updates == [] then None
    else
      assert forall k :: 1 <= k < |updates| ==> updates[k] == updates[1..][k - 1];
      match LastUpdateFor(updates[1..], name)
      case Some(u) =>
        var k :| 0 <= k < |updates[1..]| && updates[1..][k] == u && u.name == name
          && forall j :: k < j < |updates[1..]| ==> updates[1..][j].name != name;
        assert updates[k + 1] == u;
        Some(u)
      case None => if updates[0].name == name then Some(updates[0]) else None
  }

  /** No parameter before position `i` has the name of the one at `i`. */
  predicate FirstOfName(ps: seq<SchemaParameter>, i: nat)
    requires i < |ps|
  {
    forall j :: 0 <= j < i ==> ps[j].name != ps[i].name
  }

  /** What the updates leave at each position: the first parameter of a name carries the last update
      that names it, and every other parameter is as it was. */
  lemma {:induction false} ApplyUpdatesContents(ps: seq<SchemaParameter>, updates: seq<ParameterUpdate>, i: nat)
    requires ApplyUpdates(ps, updates).Ok? && i < |ps|
    ensures ApplyUpdates(ps, updates).value[i] ==
      if FirstOfName(ps, i) && LastUpdateFor(updates, ps[i].name).Some?
      then Updated(ps[i], LastUpdateFor(updates, ps[i].name).value)
      else ps[i]
    decreases |updates|
  {
    if updates != [] {
      var u := updates[0];
      var k := IndexOfName(ps, u.name).value;
      var next := ps[k := Updated(ps[k], u)];
      var rest := updates[1..];
      assert ApplyUpdates(ps, updates) == ApplyUpdates(next, rest);
      ApplyUpdatesContents(next, rest, i);
      assert FirstOfName(next, i) == FirstOfName(ps, i);
      var name := ps[i].name;
      assert LastUpdateFor(updates, name) ==
        if LastUpdateFor(rest, name).Some? then LastUpdateFor(rest, name)
        else if u.name == name then Some(u) else None;
    }
  }

  // ---------------------------------------------------------------------------------------------
  // New parameters

  /** The names of the atomic parameters. */
  function AtomicNames(atomics: seq<AtomicParameter>): (r: set<string>)
    ensures forall n :: n in r <==> exists i :: 0 <= i < |atomics| && atomics[i].name == n
  {
    set i | 0 <= i < |atomics| :: atomics[i].name
  }

  /** The parameter a `CreateParameterDTO` describes. */
  function ParameterOf(n: NewParameter): SchemaParameter
  {
    SchemaParameter(n.name, n.ptype, n.introducedAtVersion, n.alias, n.description, n.isGdpr)
  }

  /** The list comprehension building `SchemaParameter`s, each of which checks its name. */
  function Construct(news: seq<NewParameter>): (r: Result<seq<SchemaParameter>>)
    ensures r.Ok? <==> forall k :: 0 <= k < |news| ==> ValidName(news[k].name)
    ensures r.Err? ==> r.error == EntityError(InvalidParameterName)
    ensures r.Ok? ==> |r.value| == |news| && forall k :: 0 <= k < |news| ==> r.value[k] == ParameterOf(news[k])
  {
    if forall k :: 0 <= k < |news| ==> ValidName(news[k].name)
    then Ok(seq(|news|, k requires 0 <= k < |news| => ParameterOf(news[k])))
    else Err(EntityError(InvalidParameterName))
  }

  /** The own parameters after the new ones of a request: an empty list changes nothing; otherwise
      an atomic name is refused first, then an invalid name, then `Event.add_parameters` runs. */
  function AddedParameters(id: Option<int>, own: seq<SchemaParameter>, isCommon: bool, news: seq<NewParameter>,
                           atomicNames: set<string>): (r: Result<seq<SchemaParameter>>)
  {
    if news == [] then Ok(own)
    else if exists k :: 0 <= k < |news| && news[k].name in atomicNames then Err(EntityError(AtomicNameCollision))
    else
      match Construct(news)
      case Err(e) => Err(e)
      case Ok(batch) =>
        match BatchCheck(batch, NextExpectedVersionOf(id, own), isCommon)
        case Fail(e) => Err(e)
        case Pass =>
          var added := AppendDistinct(own, batch);
          if added.1.Pass? then Ok(added.0) else Err(added.1.error)
  }

  /** A non-empty list of new parameters is accepted exactly when no name is an atomic parameter's,
      every name is valid, every parameter carries the schema's next expected version (and on a
      common-derived event the `custom_` prefix), and the names are new and pairwise distinct. The
      first rule broken decides the error. */
  lemma RequestAcceptedIff(id: Option<int>, own: seq<SchemaParameter>, isCommon: bool, news: seq<NewParameter>,
                           atomicNames: set<string>)
    requires news != [] && DistinctNames(own)
    ensures var r := AddedParameters(id, own, isCommon, news, atomicNames);
      r.Ok? <==>
        && (forall k :: 0 <= k < |news| ==> news[k].name !in atomicNames)
        && (forall k :: 0 <= k < |news| ==> ValidName(news[k].name))
        && (forall k :: 0 <= k < |news| ==> news[k].introducedAtVersion == NextExpectedVersionOf(id, own)
                                             && (isCommon ==> Text.StartsWith(news[k].name, CustomPrefix)))
        && (forall j, k :: 0 <= j < k < |news| ==> news[j].name != news[k].name)
        && (forall k :: 0 <= k < |news| ==> !HasName(own, news[k].name))
    ensures var r := AddedParameters(id, own, isCommon, news, atomicNames);
      (exists k :: 0 <= k < |news| && news[k].name in atomicNames) ==> r == Err(EntityError(AtomicNameCollision))
  {
    var batch := Construct(news);
    if batch.Ok? {
      BatchCheckPassesIff(batch.value, NextExpectedVersionOf(id, own), isCommon);
      AppendDistinctPassesIff(own, batch.value);
    }
  }

  /** An accepted batch is appended after the own parameters, in request order; when the schema was
      saved before, or had no parameters, its version becomes the schema's current version. */
  lemma NewParametersBecomeCurrentVersion(id: Option<int>, own: seq<SchemaParameter>, isCommon: bool,
                                          news: seq<NewParameter>, atomicNames: set<string>)
    requires news != [] && AddedParameters(id, own, isCommon, news, atomicNames).Ok?
    requires Saved(id) || own == []
    ensures var r := AddedParameters(id, own, isCommon, news, atomicNames).value;
      && |r| == |own| + |news| && r[..|own|] == own
      && (forall k :: 0 <= k < |news| ==> r[|own| + k] == ParameterOf(news[k]))
      && CurrentVersionOf(r) == NextExpectedVersionOf(id, own)
  {
    var batch := Construct(news).value;
    BatchCheckPassesIff(batch, NextExpectedVersionOf(id, own), isCommon);
    AppendDistinctIsPrefix(own, batch);
    assert batch[..|batch|] == batch;
    AcceptedBatchBecomesCurrentVersion(own, id, batch);
  }

  /** The status after a request: adding parameters sends a `SUCCESS` event back to `NEEDS_UPDATE`;
      every other status stays. */
  function StatusAfter(s: Status, news: seq<NewParameter>): (r: Status)
    ensures r != s <==> news != [] && s == Success
    ensures r != s ==> r == NeedsUpdate
  {
    if news != [] && s == Success then NeedsUpdate else s
  }

  // ---------------------------------------------------------------------------------------------
  // Updating an event

  /** The parameters an event's merged schema lists ahead of its own: none for a game-specific
      event. */
  function InheritedOf(e: Event): (r: seq<SchemaParameter>)
    requires e.Valid()
    reads e, e.schema, if e.parent.Some? then {e.parent.value, e.parent.value.schema} else {}
    ensures e.GetSchema().parameters == r + e.schema.parameters
    ensures !e.IsCommon() ==> r == []
  {
    if e.parent.Some? then Inherited(e.parent.value.schema.parameters, e.parentVersion.value) else []
  }

  /** The own parameters after the updates: the updates go over the merged list, and only its own
      tail is stored, so what was written over an inherited parameter is lost. */
  function OwnAfterUpdates(inherited: seq<SchemaParameter>, own: seq<SchemaParameter>, updates: seq<ParameterUpdate>)
    : (r: Result<seq<SchemaParameter>>)
    ensures r.Err? <==> exists k :: 0 <= k < |updates| && !HasName(inherited + own, updates[k].name)
    ensures r.Err? ==> r.error == EntityError(UnknownParameter)
    ensures r.Ok? ==> SameShape(own, r.value)
  {
    match ApplyUpdates(inherited + own, updates)
    case Err(e) => Err(e)
    case Ok(all) =>
      assert forall i :: 0 <= i < |own| ==> all[|inherited|..][i] == all[|inherited| + i] && own[i] == (inherited + own)[|inherited| + i];
      Ok(all[|inherited|..])
  }

  /** Updates of a game-specific event whose parameter names are distinct: every parameter some
      update names carries the last such update, and every other one is as it was. */
  lemma OwnUpdatesApply(own: seq<SchemaParameter>, updates: seq<ParameterUpdate>, i: nat)
    requires DistinctNames(own) && OwnAfterUpdates([], own, updates).Ok? && i < |own|
    ensures OwnAfterUpdates([], own, updates).value[i] ==
      if LastUpdateFor(updates, own[i].name).Some? then Updated(own[i], LastUpdateFor(updates, own[i].name).value)
      else own[i]
  {
    assert [] + own == own;
    ApplyUpdatesContents(own, updates, i);
  }

  /** On a common-derived event, updates that name only inherited parameters store nothing. */
  lemma InheritedUpdatesLost(inherited: seq<SchemaParameter>, own: seq<SchemaParameter>, updates: seq<ParameterUpdate>)
    requires forall k :: 0 <= k < |updates| ==> HasName(inherited, updates[k].name)
    ensures OwnAfterUpdates(inherited, own, updates) == Ok(own)
  {
    var merged := inherited + own;
    forall k | 0 <= k < |updates| ensures HasName(merged, updates[k].name) {
      var i :| 0 <= i < |inherited| && inherited[i].name == updates[k].name;
      assert merged[i] == inherited[i];
    }
    var all := ApplyUpdates(merged, updates).value;
    forall j | 0 <= j < |own| ensures all[|inherited| + j] == own[j] {
      var i := |inherited| + j;
      ApplyUpdatesContents(merged, updates, i);
      assert merged[i] == own[j];
      if LastUpdateFor(updates, own[j].name).Some? {
        var k :| 0 <= k < |updates| && updates[k].name == own[j].name;
        var m :| 0 <= m < |inherited| && inherited[m].name == own[j].name;
        assert merged[m] == inherited[m];
        assert !FirstOfName(merged, i);
      }
    }
    assert all[|inherited|..] == own;
  }

  /** Everything a request leaves of an event's own parameters, or the first error it raises. */
  function OwnParametersAfter(inherited: seq<SchemaParameter>, id: Option<int>, own: seq<SchemaParameter>,
                              isCommon: bool, request: EventRequest, atomicNames: set<string>)
    : (r: Result<seq<SchemaParameter>>)
    ensures request.newParameters == [] ==> r == OwnAfterUpdates(inherited, own, request.existing)
  {
    match OwnAfterUpdates(inherited, own, request.existing)
    case Err(e) => Err(e)
    case Ok(updated) => AddedParameters(id, updated, isCommon, request.newParameters, atomicNames)
  }

  /** The new parameters of a request: the atomic names are checked one by one, then the batch is
      built and handed to `Event.add_parameters`, and a `SUCCESS` event goes to `NEEDS_UPDATE`. On
      an error the status is untouched; the caller drops whatever was appended. */
  method AddNewParameters(e: Event, news: seq<NewParameter>, atomicNames: set<string>, now: Timestamp)
    returns (outcome: Outcome)
    requires news != []
    modifies e.schema`parameters, e`status, e`statusUpdatedAt
    ensures var r := AddedParameters(old(e.schema.id), old(e.schema.parameters), e.IsCommon(), news, atomicNames);
      && (r.Err? ==> (outcome == Fail(r.error) && e.status == old(e.status) && e.statusUpdatedAt == old(e.statusUpdatedAt)))
      && (r.Ok? ==> (outcome == Pass && e.schema.parameters == r.value && e.status == StatusAfter(old(e.status), news)
            && e.statusUpdatedAt == if old(e.status) == Success then now else old(e.statusUpdatedAt)))
  {
    var j := 0;
    while j < |news|
      invariant 0 <= j <= |news|
      invariant forall k :: 0 <= k < j ==> news[k].name !in atomicNames
    {
      if news[j].name in atomicNames {
        return Fail(EntityError(AtomicNameCollision));
      }
      j := j + 1;
    }
    var batch := Construct(news);
    if batch.Err? {
      return Fail(batch.error);
    }
    outcome := e.AddParameters(batch.value);
    if outcome.Pass? && e.status == Success {
      e.SetStatus(NeedsUpdate, now);
    }
  }

  /** The update branch of `create_or_update_event` for an event that exists. The description is
      written on the schema `get_schema` returned, which for a common-derived event is a copy, so it
      lands only on a game-specific event. Any error rolls the event back. */
  method UpdateEvent(e: Event, request: EventRequest, atomicNames: set<string>, now: Timestamp) returns (outcome: Outcome)
    requires e.Valid()
    modifies e.schema`parameters, e.schema`description, e`status, e`statusUpdatedAt
    ensures var r := OwnParametersAfter(old(InheritedOf(e)), old(e.schema.id), old(e.schema.parameters), e.IsCommon(),
                                        request, atomicNames);
      && (r.Err? ==> (outcome == Fail(r.error) && e.schema.parameters == old(e.schema.parameters)
            && e.schema.description == old(e.schema.description)
            && e.status == old(e.status) && e.statusUpdatedAt == old(e.statusUpdatedAt)))
      && (r.Ok? ==> (outcome == Pass && e.schema.parameters == r.value
            && e.schema.description == (if e.IsCommon() then old(e.schema.description) else request.description)
            && e.status == StatusAfter(old(e.status), request.newParameters)
            && e.statusUpdatedAt == if e.status != old(e.status) then now else old(e.statusUpdatedAt)))
  {
    var inherited := InheritedOf(e);
    var savedParameters, savedDescription := e.schema.parameters, e.schema.description;
    var merged := inherited + e.schema.parameters;
    var i := 0;
    while i < |request.existing|
      invariant 0 <= i <= |request.existing|
      invariant ApplyUpdates(inherited + savedParameters, request.existing) == ApplyUpdates(merged, request.existing[i..])
    {
      assert request.existing[i..][1..] == request.existing[i + 1..];
      var k := IndexOfName(merged, request.existing[i].name);
      if k.None? {
        return Fail(EntityError(UnknownParameter));
      }
      merged := merged[k.value := Updated(merged[k.value], request.existing[i])];
      i := i + 1;
    }
    assert request.existing[i..] == [];
    if !e.IsCommon() {
      e.schema.description := request.description;
    }
    e.schema.parameters := merged[|inherited|..];
    outcome := Pass;
    if request.newParameters != [] {
      outcome := AddNewParameters(e, request.newParameters, atomicNames, now);
      if outcome.Fail? {
        e.schema.parameters, e.schema.description := savedParameters, savedDescription;
      }
    }
  }

  // ---------------------------------------------------------------------------------------------
  // Creating an event

  /** What creating an event from a request leads to: the event's name is checked, then the new
      parameters at version 0 (an unsaved schema expects version 0), then the commit, which the
      foreign key on the app id refuses for an app that is not stored. */
  function CreationOutcome(apps: seq<Apps.App>, appId: AppId, request: EventRequest, atomicNames: set<string>)
    : (r: Result<seq<SchemaParameter>>)
    ensures r.Ok? ==> ValidName(request.name) && !LooksLikeContext(request.name) && AppWithId(apps, appId).Some?
    ensures r.Ok? ==> r == AddedParameters(None, [], false, request.newParameters, atomicNames)
  {
    if !ValidName(request.name) then Err(EntityError(InvalidSchemaName))
    else if LooksLikeContext(request.name) then Err(EntityError(EventNameLooksLikeContext))
    else
      match AddedParameters(None, [], false, request.newParameters, atomicNames)
      case Err(e) => Err(e)
      case Ok(ps) => if AppWithId(apps, appId).None? then Err(EntityError(CommitRefused)) else Ok(ps)
  }

  /** The create branch of `create_or_update_event`: a new game-specific event of the app, with the
      request's name, description and alias and the new parameters, `NOT_READY`, and stored with
      fresh ids when the commit goes through. */
  method CreateEvent(db: Database, appId: AppId, request: EventRequest, atomicNames: set<string>, now: Timestamp)
    returns (r: Result<Event>)
    requires db.Valid() && EventNamed(db.events, appId, request.name).None?
    modifies db`events, db`lastId
    ensures db.Valid()
    ensures var c := CreationOutcome(old(db.apps), appId, request, atomicNames);
      && (c.Err? ==> (r == Err(c.error) && db.events == old(db.events) && db.lastId == old(db.lastId)))
      && (c.Ok? ==> (r.Ok? && fresh(r.value) && fresh(r.value.schema) && db.events == old(db.events) + [r.value]
            && r.value.appId == appId && r.value.parent == None && r.value.status == NotReady
            && r.value.schema.vendor == Apps.EventVendorOf(appId) && r.value.schema.name == request.name
            && r.value.schema.alias == request.alias && r.value.schema.description == request.description
            && r.value.schema.parameters == c.value
            && r.value.schema.id == Some(old(db.lastId) + 1) && r.value.id == Some(old(db.lastId) + 2)
            && db.lastId == old(db.lastId) + 2))
  {
    var created := CreateGameSpecific(appId, request.name, request.description, request.alias, now);
    if created.Err? {
      return Err(created.error);
    }
    var e := created.value;
    if request.newParameters != [] {
      var outcome := AddNewParameters(e, request.newParameters, atomicNames, now);
      if outcome.Fail? {
        return Err(outcome.error);
      }
    }
    if AppWithId(db.apps, appId).None? {
      return Err(EntityError(CommitRefused));
    }
    StoreEvent(db, e);
    r := Ok(e);
  }

  // ---------------------------------------------------------------------------------------------
  // The service call

  /** The objects an update of the event of `appId` called `name` may write. */
  function Touched(events: seq<Event>, appId: AppId, name: string): (r: set<object>)
    ensures EventNamed(events, appId, name).Some? ==>
      r == {EventNamed(events, appId, name).value, EventNamed(events, appId, name).value.schema}
  {
    match EventNamed(events, appId, name)
    case None => {}
    case Some(e) => {e, e.schema}
  }

  /** `create_or_update_event`: the event of the app with the request's name is updated when it
      exists and created otherwise; the stored rows keep their constraints either way. */
  method CreateOrUpdateEvent(db: Database, appId: AppId, request: EventRequest, now: Timestamp) returns (r: Result<Event>)
    requires db.Valid()
    modifies db`events, db`lastId, Touched(db.events, appId, request.name)
    ensures db.Valid()
    ensures old(EventNamed(db.events, appId, request.name)).Some? ==>
      var e := old(EventNamed(db.events, appId, request.name)).value;
      var after := OwnParametersAfter(old(InheritedOf(e)), old(e.schema.id), old(e.schema.parameters), e.IsCommon(),
                                      request, AtomicNames(db.atomics));
      && db.events == old(db.events) && db.lastId == old(db.lastId)
      && e.id == old(e.id) && e.schema.id == old(e.schema.id)
      && (after.Err? ==> (r == Err(after.error) && e.schema.parameters == old(e.schema.parameters)
            && e.schema.description == old(e.schema.description)
            && e.status == old(e.status) && e.statusUpdatedAt == old(e.statusUpdatedAt)))
      && (after.Ok? ==> (r == Ok(e) && e.schema.parameters == after.value
            && e.schema.description == (if e.IsCommon() then old(e.schema.description) else request.description)
            && e.status == StatusAfter(old(e.status), request.newParameters)
            && e.statusUpdatedAt == if e.status != old(e.status) then now else old(e.statusUpdatedAt)))
    ensures old(EventNamed(db.events, appId, request.name)).None? ==>
      var c := CreationOutcome(old(db.apps), appId, request, AtomicNames(db.atomics));
      && (c.Err? ==> (r == Err(c.error) && db.events == old(db.events) && db.lastId == old(db.lastId)))
      && (c.Ok? ==> (r.Ok? && fresh(r.value) && fresh(r.value.schema) && db.events == old(db.events) + [r.value]
            && r.value.appId == appId && r.value.parent == None && r.value.status == NotReady
            && r.value.schema.name == request.name && r.value.schema.alias == request.alias
            && r.value.schema.description == request.description && r.value.schema.parameters == c.value
            && r.value.schema.id == Some(old(db.lastId) + 1) && r.value.id == Some(old(db.lastId) + 2)))
  {
    var atomicNames := AtomicNames(db.atomics);
    var found := EventNamed(db.events, appId, request.name);
    if found.Some? {
      var e := found.value;
      var outcome := UpdateEvent(e, request, atomicNames, now);
      r := if outcome.Pass? then Ok(e) else Err(outcome.error);
    } else {
      r := CreateEvent(db, appId, request, atomicNames, now);
    }
  }

  // ---------------------------------------------------------------------------------------------
  // The service's scenarios

  /** A new event `event` of a stored app with a `STRING` parameter `param` at version 0 is created
      with that one parameter. */
  lemma NewEventWithVersionZero(apps: seq<Apps.App>, appId: AppId, atomicNames: set<string>)
    requires AppWithId(apps, appId).Some? && "param" !in atomicNames
    ensures var param := NewParameter("param", Simple(String), 0, None, None, false);
      CreationOutcome(apps, appId, EventRequest("event", None, None, [], [param]), atomicNames) == Ok([ParameterOf(param)])
  {
    var param := NewParameter("param", Simple(String), 0, None, None, false);
    FirstParameterAccepted(None, param, false, atomicNames);
    EventNameAccepted();
  }

  /** `event` is a valid event name. */
  lemma EventNameAccepted()
    ensures ValidName("event") && !LooksLikeContext("event")
  {
    EventNamesAccepted();
    NameIsValidMeansValidName("event");
    assert !Text.StartsWith("event", "ctx_") && !Text.EndsWith("event", "_context");
  }

  /** A single new parameter with a valid name that is not an atomic one, on a schema with no
      parameters, at the version the schema expects, goes in alone. */
  lemma FirstParameterAccepted(id: Option<int>, param: NewParameter, isCommon: bool, atomicNames: set<string>)
    requires param.name == "param" && param.name !in atomicNames && !isCommon
    requires param.introducedAtVersion == NextExpectedVersionOf(id, [])
    ensures AddedParameters(id, [], isCommon, [param], atomicNames) == Ok([ParameterOf(param)])
  {
    ParameterNamesAccepted();
    NameIsValidMeansValidName("param");
    var p := ParameterOf(param);
    assert [param][0] == param && ValidName(param.name);
    var c := Construct([param]);
    assert c.Ok? && |c.value| == 1 && c.value[0] == p;
    assert c.value == [p];
    assert [p][1..] == [];
    assert BatchCheck([p], NextExpectedVersionOf(id, []), isCommon) == Pass;
    assert !HasName([], param.name);
    assert [] + [p] == [p];
    assert AppendDistinct([], [p]) == AppendDistinct([p], []);
  }

  /** Once the event is stored with `param` at version 0, a `BOOLEAN` GDPR parameter `param1` at
      version 1 is added after it. */
  lemma VersionOneAfterVersionZero(schemaId: int, atomicNames: set<string>)
    requires schemaId > 0 && "param1" !in atomicNames
    ensures var own := [SchemaParameter("param", Simple(String), 0, None, None, false)];
      var param1 := NewParameter("param1", Simple(Boolean), 1, None, None, true);
      OwnParametersAfter([], Some(schemaId), own, false, EventRequest("event", None, None, [], [param1]), atomicNames)
        == Ok(own + [ParameterOf(param1)])
  {
    ParameterNamesAccepted();
    NameIsValidMeansValidName("param1");
    var own := [SchemaParameter("param", Simple(String), 0, None, None, false)];
    var param1 := NewParameter("param1", Simple(Boolean), 1, None, None, true);
    var p1 := ParameterOf(param1);
    assert [] + own == own;
    assert OwnAfterUpdates([], own, []) == Ok(own);
    assert CurrentVersionOf(own) == 0;
    assert NextExpectedVersionOf(Some(schemaId), own) == 1;
    assert [param1][0] == param1 && ValidName(param1.name);
    var c := Construct([param1]);
    assert c.Ok? && |c.value| == 1 && c.value[0] == p1;
    assert c.value == [p1];
    assert [p1][1..] == [];
    assert BatchCheck([p1], 1, false) == Pass;
    assert !HasName(own, "param1") by {
      assert own[0].name == "param" != "param1";
    }
    assert AppendDistinct(own, [p1]) == AppendDistinct(own + [p1], []);
  }

  /** A new parameter named like the atomic `sandbox_mode` is refused. */
  lemma AtomicNameRefused(apps: seq<Apps.App>, appId: AppId)
    ensures var param := NewParameter("sandbox_mode", Simple(String), 0, None, None, false);
      CreationOutcome(apps, appId, EventRequest("event", None, None, [], [param]), {"sandbox_mode"})
        == Err(EntityError(AtomicNameCollision))
  {
    var param := NewParameter("sandbox_mode", Simple(String), 0, None, None, false);
    EventNameAccepted();
    assert [param][0].name in {"sandbox_mode"};
  }

  /** An update of `param` writes its GDPR flag and description, keeps its name, type and version,
      and the event's description is the request's. */
  lemma UpdatingEventMetadata(atomicNames: set<string>)
    ensures var own := [SchemaParameter("param", Simple(String), 0, None, None, false)];
      var request := EventRequest("event", None, Some("desc_event"),
                                  [ParameterUpdate("param", true, None, Some("desc_param"))], []);
      OwnParametersAfter([], Some(1), own, false, request, atomicNames)
        == Ok([SchemaParameter("param", Simple(String), 0, None, Some("desc_param"), true)])
  {
    var own := [SchemaParameter("param", Simple(String), 0, None, None, false)];
    var u := ParameterUpdate("param", true, None, Some("desc_param"));
    var next := [SchemaParameter("param", Simple(String), 0, None, Some("desc_param"), true)];
    assert [] + own == own;
    assert IndexOfName(own, "param") == Some(0);
    assert own[0 := Updated(own[0], u)] == next;
    assert [u][1..] == [];
    assert ApplyUpdates(own, [u]) == ApplyUpdates(next, []) == Ok(next);
    assert next[0..] == next;
  }

  // ---------------------------------------------------------------------------------------------
  // Reading an event back

  datatype PublicParameter = PublicParameter(name: string, alias: string, description: Option<string>,
                                             ptype: ParameterType, isGdpr: bool, introducedAtVersion: int)

  datatype PublicEvent = PublicEvent(name: string, alias: string, datasourceId: string, description: Option<string>,
                                     status: Status, isCommon: bool, parameters: seq<PublicParameter>)

  function PublicParameterOf(p: SchemaParameter): (r: PublicParameter)
    ensures r.name == p.name && r.alias == GetAlias(p.name, p.alias) && r.introducedAtVersion == p.introducedAtVersion
    ensures r.description == p.description && r.ptype == p.ptype && r.isGdpr == p.isGdpr
  {
    PublicParameter(p.name, GetAlias(p.name, p.alias), p.description, p.ptype, p.isGdpr, p.introducedAtVersion)
  }

  /** `get_event_by_name`: the app's event of that name as the public view shows it, with the
      parameters of its merged schema in order; no such event is `EntityNotFound`. */
  function GetEventByName(events: seq<Event>, appId: AppId, name: string): (r: Result<PublicEvent>)
    requires forall e :: e in events ==> e.Valid()
    reads EventsFootprint(events)
    ensures r.Err? <==> forall i :: 0 <= i < |events| ==> events[i].appId != appId || events[i].schema.name != name
    ensures r.Err? ==> r.error == EntityNotFound
    ensures r.Ok? ==> var e := EventNamed(events, appId, name).value;
      && r.value.name == name && r.value.datasourceId == "events_" + name
      && r.value.alias == GetAlias(e.GetSchema().name, e.GetSchema().alias)
      && r.value.description == e.GetSchema().description
      && r.value.status == e.status && r.value.isCommon == e.IsCommon()
      && |r.value.parameters| == |e.GetSchema().parameters|
      && forall i :: 0 <= i < |r.value.parameters| ==> r.value.parameters[i] == PublicParameterOf(e.GetSchema().parameters[i])
  {
    match EventNamed(events, appId, name)
    case None => Err(EntityNotFound)
    case Some(e) =>
      var schema := e.GetSchema();
      Ok(PublicEvent(schema.name, GetAlias(schema.name, schema.alias), e.DatasourceId(), schema.description,
                     e.status, e.IsCommon(),
                     seq(|schema.parameters|, i requires 0 <= i < |schema.parameters| => PublicParameterOf(schema.parameters[i]))))
  }

  // ---------------------------------------------------------------------------------------------
  // The advisory lock key

  /** The string the lock key is hashed from: the app id formats as its dataclass `repr`. */
  function LockKey(appId: AppId, name: string): string
  {
    "AppId(value='" + appId.value + "')." + name
  }

  /** Different events of valid apps lock under different strings. */
  lemma LockKeysDistinct(a: AppId, n: string, b: AppId, m: string)
    requires ValidAppId(a.value) && ValidAppId(b.value)
    requires LockKey(a, n) == LockKey(b, m)
    ensures a == b && n == m
  {
    var prefix := "AppId(value='";
    var ka, kb := LockKey(a, n), LockKey(b, m);
    assert ka[|prefix|..] == a.value + "')." + n;
    assert kb[|prefix|..] == b.value + "')." + m;
    var x, y := a.value + "')." + n, b.value + "')." + m;
    assert x == y;
    assert x[|a.value|] == '\'' && y[|b.value|] == '\'';
    assert forall k :: 0 <= k < |a.value| ==> x[k] == a.value[k] && Text.IsAsciiLower(x[k]);
    assert forall k :: 0 <= k < |b.value| ==> y[k] == b.value[k] && Text.IsAsciiLower(y[k]);
    assert |a.value| == |b.value|;
    assert a.value == x[..|a.value|] == y[..|b.value|] == b.value;
    assert n == x[|a.value| + 3..] == y[|b.value| + 3..] == m;
  }

  /** The unsigned big-endian value of four bytes. */
  function BigEndian4(b: seq<bv8>): (r: nat)
    requires |b| == 4
    ensures r < 0x1_0000_0000
  {
    ((b[0] as nat * 256 + b[1] as nat) * 256 + b[2] as nat) * 256 + b[3] as nat
  }

  /** `get_hash_int32` over the key's MD5 digest: the first four bytes, reduced modulo 2^31 - 1,
      then moved below zero when above 0x7fffffff. */
  function HashInt32(digest: seq<bv8>): (r: int)
    requires |digest| == 16
    ensures 0 <= r <= 2147483646
  {
    var h := BigEndian4(digest[..4]) % 2147483647;
    if h > 0x7fff_ffff then h - 0x1_0000_0000 else h
  }

  /** The sign adjustment never applies: the hash is the reduced value itself. */
  lemma HashInt32IsTheRemainder(digest: seq<bv8>)
    requires |digest| == 16
    ensures HashInt32(digest) == BigEndian4(digest[..4]) % 2147483647
  {
  }
}
