# GameTuner metadata service, modelled in Dafny

The metadata service keeps the telemetry event schemas of GameTuner apps in a database, and drives
the schema registry bucket, the BigQuery event tables and views, and the IAM policies of the cloud
project towards them. This project models its core, one module per source file:

- **Domain model** (`Common`, `AppIdentity`, `EntityStatus`, `Schemas`, `Apps`, `Events`):
  - identity equality of entities;
  - app id and name validation;
  - append-only schema versions with `add_parameters`, `current_version`, `next_expected_version`
    and `get_parameters_for_version`;
  - events derived from common events, whose schemas merge the parent's parameters up to a frozen
    version;
  - event contexts;
  - datasource freshness;
  - the three-valued status.

  Entities whose fields the source updates in place are classes. Parameters and app ids are values.
- **Schema compilers** (`Iglu`, `EventTables`):
  - the Iglu self-describing JSON Schema document of a schema at a version: its path, `self` block
    and type mapping;
  - the BigQuery field list of an event table: the type and mode mapping, the `params` record and
    the embedded-context records;
  - the "does the table need an update" diff;
  - the view aliases;
  - the table-and-view sequence of `maintain_event_table`.
- **Services** (`AppDomain`, `AppService`, `EventService`, with the shared tables in `Store`):
  - `create_or_update_event`, `get_event_by_name` and the advisory-lock key range;
  - `register`, `get_all_success` and `update_datasource_freshness`;
  - the `EventsByApp` grouping with its GDPR name lists.

  The database is a class with one sequence per table, kept valid under the table constraints.
- **Reconciliation passes** (`RawSchemaMaintainer`, `OrganizationMaintainer`, `EventMaintainer`,
  `AppMaintainer`, with `ProjectIam` and `BigQueryIam`):
  - Each pass loops over the entities not `SUCCESS`.
  - For each one, it makes its cloud calls, marks it `SUCCESS` and commits it.
  - A call that raises ends the pass there.

  The cloud is a `Cloud.Client` object:
  - Its `trace` records every call made, and its `state` (documents, tables, IAM policies, dataset
    access entries) is always the replay of that trace.
  - Which calls raise is a set fixed for the run, `failing`.
  - Each pass is proved against a function that computes its calls, its outcome and how many
    entities it handled.

`Text` and `JsonValues` hold the string and JSON helpers these need.

Where the code and its documentation differ, the model follows the code:
- `get_all_success_events_by_app` fills `event_contexts` with the same non-embedded query as
  `non_embedded_event_contexts` (metadata/api/app/service.py:68-69).
- `EventsByApp.get_events` on an app with no events returns `[]`, because the grouping is a
  `defaultdict` (metadata/api/app/service.py:73-75).
- For an event derived from a common event, `get_schema` returns a new schema. It holds copies of
  the inherited parameters followed by the event's own parameter objects, which are shared, not
  copied. The event service writes its updates onto that schema, so the description and the updates
  to inherited parameters are lost, while updates to the event's own parameters persist
  (metadata/api/event/service.py:34-40, metadata/core/domain/event.py:138-148).
- Every entity is a `@dataclass`, whose generated field-wise `__eq__` takes the place of the
  identity equality of `BaseEntity`. `BaseEntity.__eq__`/`__hash__` are modelled as written in
  `Common`.

In two places the model follows the evidently intended behaviour rather than the code; the two
Findings rows below give both halves:
- Name validation: `Schemas.ValidName` refuses a name ending in a newline, which the code's
  `re.match` accepts. `Schemas.NewSchema`, `Schemas.NewSchemaParameter`,
  `Schemas.Schema.constructor`, `Events.CreateGameSpecific` and `EventService.Construct` all use
  this corrected rule.
- `Apps.App.AddDatasource` refuses a datasource whose id is already present. The code's `in` test
  compares datasources field by field (id, app, both dates and materialized columns), through the
  `__eq__` that `@dataclass` generates.

The behaviour as written is stated only by `Schemas.TrailingNewlineAccepted` (with
`Schemas.AsWrittenDiffersOnlyByNewline`) and by `Apps.SecondUserHistoryNotCaughtAsWritten` (with
`Apps.PresentAsWrittenImpliesById`).

## Model

| member | source | states |
|---|---|---|
| Common.Hash | metadata/core/domain/common.py:41-44 | hashing an entity whose identity is None or empty fails with `ValueError`; otherwise the hash is the tuple hash of the identity |
| Common.DifferentKindsNeverEqual | metadata/core/domain/common.py:35-39 | entities of different concrete classes never compare equal |
| Common.EqualsIsPartialEquivalence | metadata/core/domain/common.py:35-39 | among entities with a truthy identity, `==` is equality of class and identity tuple: symmetric, transitive, and reflexive exactly where the identity is truthy |
| Common.FalsyIdentityEqualsNothing | metadata/core/domain/common.py:35-39 | an entity with a None or empty identity equals nothing, itself included, even though only the left operand's identity is called |
| Common.UnsavedEntitiesCompareEqual | metadata/core/domain/common.py:35-39 | two unsaved entities of one class, whose identity is `(None,)`, compare equal |
| Common.HashRespectsEquals | metadata/core/domain/common.py:35-44 | equal entities are both hashable and hash alike |
| AppIdentity.AllLowerMeansEveryCharacter | metadata/core/domain/app_id.py:25 | the character-by-character check holds exactly when every character is a lowercase letter (ASCII only, see Left out) |
| AppIdentity.NewAppId | metadata/core/domain/app_id.py:22-26 | an empty value is refused with "must set", a value with any non-lowercase character with "must be lowercase" (ASCII 'a'..'z' only, see Left out), and every other value is accepted unchanged |
| AppIdentity.AppIdExamples | metadata/core/domain/app_id.py:22-26 | concrete ids the tests use are accepted; ids with a digit, `_` or an upper-case letter are refused |
| Schemas.ParseType | metadata/core/domain/schema.py:25-38 | `ParameterType(s)` returns only a member whose value is `s` |
| Schemas.ParseTypeName | metadata/core/domain/schema.py:25-41 | every type is parsed back from its value |
| Schemas.TypeNameInjective | metadata/core/domain/schema.py:25-38 | no two members share a value |
| Schemas.WordsIffFlat | metadata/core/domain/schema.py:78 | the regex tail `[a-z0-9]+(_[a-z0-9]+)*` matches exactly the strings of letters, digits and single inner underscores that neither start nor end with `_` |
| Schemas.NameIsValidMeansValidName | metadata/core/domain/schema.py:109-114 | the intended `_valid_name` accepts exactly names of 2 to 50 characters starting with a lowercase letter, made of lowercase letters, digits and single underscores, not ending in `_` |
| Schemas.TrailingNewlineAccepted | metadata/core/domain/schema.py:77-82 | as written (`re.match` with `$`), `"event\n"` is accepted, while the intended rule refuses it |
| Schemas.AsWrittenDiffersOnlyByNewline | metadata/core/domain/schema.py:109-114 | every name the intended check accepts is accepted as written, and a string accepted only as written ends in a newline |
| Schemas.EventNamesAccepted | metadata/core/domain/schema.py:109-114 | event names used by the tests are valid |
| Schemas.MoreEventNamesAccepted | metadata/core/domain/schema.py:109-114 | names with a digit after the first letter are valid |
| Schemas.CtxSuffixAccepted | metadata/core/domain/schema.py:109-114 | a name ending in `_ctx` is valid |
| Schemas.ParameterNamesAccepted | metadata/core/domain/schema.py:77-82 | parameter names used by the tests are valid |
| Schemas.NamesRefused | metadata/core/domain/schema.py:109-114 | one-letter names, names with upper case, leading digits, double or trailing underscores, or over 50 characters are refused |
| Schemas.NewSchemaParameter | metadata/core/domain/schema.py:84-88 | a parameter is built exactly when its name is valid, with the given fields; otherwise `EntityError` |
| Schemas.GetAlias | metadata/core/domain/schema.py:93-96 | a non-empty explicit alias is returned as is; otherwise the alias derived from the name |
| Schemas.DerivedAliasOfValidName | metadata/core/domain/schema.py:93-96 | for a valid name, `name.replace('_', ' ').title()` has the name's length, a space for every `_`, an upper-case first letter of every word, and lowers back to the name with spaces |
| Schemas.AppendDistinctIsPrefix | metadata/core/domain/schema.py:124-128 | after `add_parameters` the list is the old list followed by a prefix of the batch; it passes exactly when that prefix is the whole batch, and otherwise the next parameter's name was already present |
| Schemas.AppendDistinctPassesIff | metadata/core/domain/schema.py:124-128 | `add_parameters` passes exactly when the batch's names are pairwise distinct and new; distinct names stay distinct, pass or fail |
| Schemas.CurrentVersionOf | metadata/core/domain/schema.py:139-143 | 0 without parameters; otherwise the version of some parameter, and no parameter's version is greater |
| Schemas.NextExpectedVersionOf | metadata/core/domain/schema.py:145-149 | 0 for an unsaved schema; otherwise one more than the current version, so greater than every version present |
| Schemas.ParametersForVersion | metadata/core/domain/schema.py:136-137 | the result holds exactly the parameters introduced at or before the version, in list order |
| Schemas.ParametersForVersionAppend | metadata/core/domain/schema.py:136-137 | the filter of a concatenation is the concatenation of the filters |
| Schemas.ParametersForVersionKeepsAll | metadata/core/domain/schema.py:136-143 | at or above every version present nothing is filtered out |
| Schemas.ParametersForCurrentVersion | metadata/core/domain/schema.py:136-143 | the parameters for the current version are all the parameters |
| Schemas.ParametersForVersionNested | metadata/core/domain/schema.py:136-137 | filtering at `w` then at `v` is filtering at the smaller of the two |
| Schemas.GetParameterByName | metadata/core/domain/schema.py:130-134 | the first parameter with that name when there is one; `EntityError` exactly when none has it |
| Schemas.Schema.constructor | metadata/core/domain/schema.py:99-107 | a schema holds the given fields and no id |
| Schemas.Schema.AddParameters | metadata/core/domain/schema.py:124-128 | the new parameter list is the old one followed by the batch up to the first name already present; the outcome is `EntityError` exactly then |
| Schemas.Schema.CurrentVersion | metadata/core/domain/schema.py:139-143 | the greatest version of the schema's parameters, 0 without parameters |
| Schemas.Schema.NextExpectedVersion | metadata/core/domain/schema.py:145-149 | 0 before the first commit, then one past the current version |
| Schemas.Schema.Alias | metadata/core/domain/schema.py:151-154 | the explicit alias when non-empty, else the derived one |
| Schemas.NewSchema | metadata/core/domain/schema.py:116-119 | refuses an invalid name with `EntityError`; otherwise a fresh unsaved schema with the given fields |
| Schemas.RawSchema.constructor | metadata/core/domain/schema.py:52-55 | a new raw schema is `NOT_READY`, stamped now |
| Schemas.RawSchema.SetStatus | metadata/core/domain/schema.py:60-62 | sets the status and stamps the time, nothing else |
| Text.TitleAt | metadata/core/domain/schema.py:96 | `title()` keeps the length, upper-cases the letters that start a word, lower-cases other letters and keeps other characters |
| Apps.LaterIsStrictTotalOrder | metadata/core/domain/app.py:110-113 | the order on dates that `update_data_freshness` compares with is a strict total order |
| Apps.NewTimezone | metadata/core/domain/app.py:120-122 | a timezone name is accepted exactly when it is a known name; otherwise `EntityError` |
| Apps.FreshnessAfter | metadata/core/domain/app.py:110-113 | the new "data up to" date is the given one unless the current one is later, so it is never earlier than either |
| Apps.FreshnessUpdatesCommute | metadata/core/domain/app.py:110-113 | two freshness updates in either order end on the same date |
| Apps.FreshnessNeverMovesBack | metadata/core/domain/app.py:110-113 | an update with an earlier or equal date leaves the date as it was |
| Apps.Datasource.constructor | metadata/core/domain/app.py:99-105 | a datasource with the given id, app and dates, and no materialized columns (`None`) |
| Apps.Datasource.UpdateDataFreshness | metadata/core/domain/app.py:110-113 | the "data up to" date becomes `FreshnessAfter` of the old one; every other field is unchanged |
| Apps.SecondUserHistoryNotCaughtAsWritten | metadata/core/domain/app.py:193-196 | with dataclass equality, a second `user_history` datasource with another start date passes the `in` test, so two datasources share one id |
| Apps.PresentAsWrittenImpliesById | metadata/core/domain/app.py:193-196 | whatever the written test refuses, the identity-based test refuses too |
| Apps.Records | metadata/core/domain/app.py:193-196 | the field tuples the generated dataclass `__eq__` compares (id, app, both dates, materialized columns), one per datasource, in list order |
| Apps.FirstWithId | metadata/core/domain/app.py:190-191 | the first datasource with the id, or None exactly when none has it |
| Apps.Organization.constructor | metadata/core/domain/app.py:141-145 | a new organization is `NOT_READY`, stamped now, with no principals |
| Apps.Organization.SetStatus | metadata/core/domain/app.py:147-149 | sets the status and stamps the time, nothing else |
| Apps.EventVendorOf | metadata/core/domain/app.py:198-200 | the vendor is `com.algebraai.gametuner.gamespecific.` followed by the app id |
| Apps.EventVendorInjective | metadata/core/domain/app.py:198-200 | distinct apps get distinct vendors |
| Apps.KeyChar | metadata/core/domain/app.py:171 | every draw yields an ASCII letter or digit |
| Apps.ApiKey | metadata/core/domain/app.py:171 | sixteen draws give a key of sixteen letters and digits |
| Apps.App.constructor | metadata/core/domain/app.py:170-181 | a new app is `NOT_READY` with a sixteen-character key and one datasource, `user_history`, starting on the given date or on the creation date |
| Apps.App.SetStatus | metadata/core/domain/app.py:186-188 | sets the status and stamps the time, nothing else |
| Apps.App.GetDatasource | metadata/core/domain/app.py:190-191 | the first datasource with that id, or None exactly when none has it |
| Apps.App.AddDatasource | metadata/core/domain/app.py:193-196 | a datasource whose id is present is refused with `EntityError` and the list is unchanged; otherwise it is appended at the end; either way, distinct datasource ids stay distinct |
| Apps.App.EventVendor | metadata/core/domain/app.py:198-200 | the app's vendor, distinct from every other app's |
| Apps.Organization.Loaded | metadata/core/domain/app.py:128-136 | a loaded organization holds its stored fields and principal rows |
| Events.EventAndContextNamesDisjoint | metadata/core/domain/event.py:83-87 | a name an event context must have (`ctx_` … `_context`) is one an event may not have (event.py:113-117) |
| Events.CommonEvent.constructor | metadata/core/domain/event.py:33-36 | an unsaved common event holding the schema |
| Events.CommonEvent.Loaded | metadata/core/domain/event.py:33-36 | a common event with its stored id and schema |
| Events.CommonEvent.GetAppSchema | metadata/core/domain/event.py:45-47 | a fresh empty schema under the app's vendor, with the common event's name and description and no alias |
| Events.NewCommonEvent | metadata/core/domain/event.py:38-40 | refused with `EntityError` exactly when the name starts with `ctx_` or ends with `_context` |
| Events.VersionsOf | metadata/core/domain/event.py:63-66 | `{0}` without parameters, otherwise exactly the versions the parameters carry; never empty |
| Events.CurrentVersionIsAVersion | metadata/core/domain/event.py:63-66 | the current version is one of the versions and no version exceeds it |
| Events.LowestVersionOf | metadata/core/domain/event.py:63-66 | the least version a parameter carries, 0 without parameters |
| Events.Ascending | metadata/core/domain/event.py:63-66 | the versions, each once, in strictly ascending order |
| Events.DocumentsOf | metadata/core/domain/event.py:68-72 | one registry document per version, each built from the parameters for that version under the URL name override |
| Events.DocumentPathsDistinct | metadata/core/domain/event.py:68-72 | the documents of one schema have pairwise distinct paths |
| Events.DocumentForEveryVersion | metadata/core/domain/event.py:68-72 | every version gets a document at its path, holding the parameters for that version |
| Events.DocumentOnlyForVersions | metadata/core/domain/event.py:68-72 | every document is for one of the versions |
| Events.LatestDocumentHoldsAll | metadata/core/domain/event.py:68-72 | the document for the current version holds every parameter |
| Events.EventContext.constructor | metadata/core/domain/event.py:83-85 | a new context is `NOT_READY`, stamped now, with the given schema and embedding |
| Events.EventContext.OverrideUrlName | metadata/core/domain/event.py:92-93 | the URL name is the schema name without `ctx_` |
| Events.EventContext.Alias | metadata/core/domain/event.py:98-99 | the alias is derived from the URL name, not from the schema name |
| Events.EventContext.ToIgluSchemas | metadata/core/domain/event.py:68-72 | one document per version of the context's schema, under its URL name |
| Events.EventContext.SetStatus | metadata/core/domain/event.py:76-81 | sets the status and stamps the time |
| Events.NewEventContext | metadata/core/domain/event.py:83-87 | refused with `EntityError` exactly when the name does not start with `ctx_` and end with `_context` |
| Events.ShortestContextName | metadata/core/domain/event.py:86-93 | `ctx_context` is accepted and its URL name is `context` |
| Events.Inherited | metadata/core/domain/event.py:140-144 | the inherited parameters are at version 0 and are exactly the common parameters introduced up to the frozen version, re-tagged |
| Events.InheritedIsFrozenVersionRetagged | metadata/core/domain/event.py:140-144 | inheriting is filtering at the frozen version and re-tagging, one for one, in order |
| Events.MergedParameters | metadata/core/domain/event.py:139-146 | the merged list ends in the event's own parameters and starts with inherited ones at version 0 |
| Events.MergedForVersion | metadata/core/domain/event.py:138-148 | the parameters of a merged list for version `v` are all inherited ones followed by the own ones up to `v` |
| Events.Event.constructor | metadata/core/domain/event.py:113-115 | a new event is `NOT_READY`, stamped now, with the given app, schema and parent |
| Events.Event.DatasourceId | metadata/core/domain/event.py:169-171 | `events_` followed by the schema name |
| Events.Event.GetSchema | metadata/core/domain/event.py:138-148 | the own schema for a game-specific event; for a common-derived one the same fields with the merged parameters |
| Events.Event.ToIgluSchemas | metadata/core/domain/event.py:68-72 | one document per version of the merged parameters, under the event's own name |
| Events.Event.AddParameters | metadata/core/domain/event.py:150-159 | an empty batch passes and changes nothing; a failed check changes nothing; otherwise the outcome and parameters are those of the schema's `add_parameters` |
| Events.Event.SetStatus | metadata/core/domain/event.py:161-163 | sets the status and stamps the time |
| Events.BatchCheckPassesIff | metadata/core/domain/event.py:154-158 | the checks pass exactly when every parameter has the expected version and, on a common-derived event, the `custom_` prefix |
| Events.AcceptedBatchBecomesCurrentVersion | metadata/core/domain/event.py:153-159 | after a non-empty batch at the next expected version, the current version is that version |
| Events.CurrentVersionIsLeastBound | metadata/core/domain/schema.py:139-143 | a version that bounds all versions and is attained is the current version |
| Events.CreateGameSpecific | metadata/core/domain/event.py:125-136 | an invalid name is refused first, then a context-like name; otherwise a fresh `NOT_READY` event of the app with an empty schema under the app's vendor |
| Iglu.ConvertSimpleType | metadata/core/domain/iglu.py:21-29 | defined exactly for the six scalar names; `date` and `datetime` become `string`, the others keep their name |
| Iglu.ScalarJsonType | metadata/core/domain/iglu.py:21-29 | the lookup never fails for a scalar's value |
| Iglu.MapValueName | metadata/core/domain/iglu.py:50 | `type.value.split(",")[1][:-1]` of a map type is its value scalar's name |
| Iglu.BuildProperty | metadata/core/domain/iglu.py:41-59 | a scalar parameter gives `type` and `description`; a map parameter an array whose items are key/value objects; the description is `""` when missing |
| Iglu.ScalarDoesNotStartWithMap | metadata/core/domain/iglu.py:42 | no scalar type's value starts with `map<`, so only map types take the array branch |
| Iglu.PropertiesOf | metadata/core/domain/iglu.py:63-65 | the properties dict is a well-formed object |
| Iglu.PropertiesOfValues | metadata/core/domain/iglu.py:63-65 | each key holds the property built from the last parameter of that name |
| Iglu.PropertiesOfKeys | metadata/core/domain/iglu.py:63-65 | the keys are exactly the parameter names |
| Iglu.Document | metadata/core/domain/iglu.py:70-82 | the document's keys are `$schema`, `description`, `self`, `type`, `properties`, `additionalProperties`, in that order |
| Iglu.DocumentFields | metadata/core/domain/iglu.py:70-82 | the document is a closed object under the self-describing meta-schema and holds the given description, `self` block and properties |
| Iglu.FromSchema | metadata/core/domain/iglu.py:62-82 | the document carries the schema's description, the parameters' properties and a `self` block naming vendor, URL name and version; the path says the same |
| Iglu.VersionHasNoSlash | metadata/core/domain/iglu.py:69 | a version string has no `/` |
| Iglu.PathSegments | metadata/core/domain/iglu.py:69 | splitting a path at `/` gives vendor, name, `jsonschema` and the version, when vendor and name have no `/` |
| Iglu.PathAgreesWithSelf | metadata/core/domain/iglu.py:69-78 | the path's segments are the `self` block's vendor, name, format and version |
| Iglu.PathEndsInVersion | metadata/core/domain/iglu.py:69 | a path is `vendor/name/jsonschema/1-0-` followed by the version's decimal digits |
| Iglu.DistinctVersionsDistinctPaths | metadata/core/domain/iglu.py:69 | two versions of one schema are published under different paths |
| AppDomain.NewEventsByApp | metadata/api/app/internal/domain.py:32-35 | refused with `InternalError` exactly when events are grouped under an app id with no app; otherwise holds the given fields |
| AppDomain.GetEvents | metadata/api/app/internal/domain.py:37-38 | the events grouped under the app, or none for an app without events |
| AppDomain.GdprNames | metadata/api/app/internal/domain.py:43-47 | exactly the names of the GDPR parameters |
| AppDomain.GdprNamesAppend | metadata/api/app/internal/domain.py:43-47 | the names of a concatenation are the names of its parts, in order |
| AppDomain.Collected | metadata/api/app/internal/domain.py:40-48 | non-empty exactly when some schema of that name has a GDPR parameter |
| AppDomain.GdprByNameIsCollected | metadata/api/app/internal/domain.py:40-48 | a name is a key exactly when some schema of that name has a GDPR parameter, and lists their names in order |
| AppDomain.GdprByNameOfDistinct | metadata/api/app/internal/domain.py:40-48 | with distinct schema names, each key lists exactly its own schema's GDPR parameter names |
| AppDomain.CollectedOfDistinct | metadata/api/app/internal/domain.py:40-48 | with distinct names, what is collected for a schema's name is its own GDPR names |
| AppDomain.CollectedOfOthers | metadata/api/app/internal/domain.py:40-48 | nothing is collected for a name no schema has |
| AppDomain.ContextSchemas | metadata/api/app/internal/domain.py:42-43 | one schema per context, in order |
| AppDomain.EventSchemas | metadata/api/app/internal/domain.py:52-53 | one merged schema per event, in order |
| AppDomain.GdprContextParameterNames | metadata/api/app/internal/domain.py:40-48 | over the embedded contexts only: the keys are the context names with GDPR parameters, each listing those names |
| AppDomain.GdprEventParameterNames | metadata/api/app/internal/domain.py:50-58 | over the app's events and their merged parameters: the keys are the event names with GDPR parameters, each listing those names |
| AppDomain.GdprAtomicNames | metadata/api/app/internal/domain.py:60-61 | exactly the names of the GDPR atomic parameters |
| AppDomain.GdprAtomicNamesAppend | metadata/api/app/internal/domain.py:60-61 | the names of a concatenation are the names of its parts, in order |
| AppService.Registration | metadata/api/app/service.py:21-31 | registration passes exactly when one organization has the name and the app id is valid; no organization is `NoResultFound`, several `MultipleResultsFound`, an id already stored `EntityError` |
| AppService.AppendAppKeepsConstraints | metadata/api/app/service.py:25-30 | storing an app under a new id keeps the primary key and the events' foreign key |
| AppService.KnownAppsStayKnown | metadata/api/app/service.py:25-30 | apps stored later never break the events' foreign key: every event's app is still found |
| AppService.Register | metadata/api/app/service.py:21-31 | on refusal nothing is stored; otherwise a fresh `NOT_READY` app of the organization, with the one `user_history` datasource starting on the given date or today, is stored after the others |
| AppService.DuplicateRegistrationRefused | tests/api/app/test_app.py:51-57 | registering an id that is already stored fails |
| AppService.GetAllSuccess | metadata/api/app/service.py:33-35 | exactly the apps whose status is not `NOT_READY` |
| AppService.GetByAppId | metadata/api/app/service.py:37-42 | the app with the id, or `EntityNotFound` exactly when there is none |
| AppService.RegisteredAppIsFound | tests/api/app/test_app.py:26-38 | an app stored under a new id is found under it |
| AppService.UpdateDatasourceFreshness | metadata/api/app/service.py:44-58 | an unknown app is `EntityNotFound`; a datasource the app lacks is appended with data from and up to the date; an existing one moves its "data up to" date forward; the app's list is otherwise kept and its status and status time are unchanged |
| AppService.FreshnessScenario | tests/api/app/test_app.py:70-79 | after updates on 14 and then 15 June the datasource reaches 15 June, and an earlier update after it would not move it back |
| AppService.SuccessApps | metadata/api/app/service.py:62 | exactly the `SUCCESS` apps, in stored order |
| AppService.AppsById | metadata/api/app/service.py:63 | the keys are exactly the apps' ids, each mapped to an app with that id |
| AppService.AppsByIdOfDistinct | metadata/api/app/service.py:63 | with distinct ids every app is found under its own id |
| AppService.LiveEventsOf | metadata/api/app/service.py:64-66 | exactly the events that are not `NOT_READY` and belong to one of the given apps |
| AppService.EventsOfApp | metadata/api/app/service.py:73-75 | the events of the app, from the list |
| AppService.EventsOfAppAppend | metadata/api/app/service.py:73-75 | an app's events in two lists joined are its events in the first followed by those in the second |
| AppService.EventsOfAppOfOneApp | metadata/api/app/service.py:73-75 | a list holding only the app's events is all its own |
| AppService.EventsOfOtherApps | metadata/api/app/service.py:73-75 | a list holding only other apps' events has none of the app's |
| AppService.GroupedIsEventsOfApp | metadata/api/app/service.py:73-75 | an app is a key exactly when one of the events is its, and its list is that app's events in input order |
| AppService.GroupedKeys | metadata/api/app/service.py:63-75 | grouping events of known apps makes keys of known apps only, so the read model's own check passes |
| AppService.GroupByApp | metadata/api/app/service.py:73-75 | the loop builds the grouping |
| AppService.GetAllSuccessEventsByApp | metadata/api/app/service.py:60-84 | the `SUCCESS` apps by id, their live events grouped by app, all atomic parameters, the non-embedded contexts (twice) and the embedded contexts |
| EventService.SameShapeSameNames | metadata/api/event/service.py:36-40 | updating parameters never changes which names are present |
| EventService.ApplyUpdates | metadata/api/event/service.py:36-40 | fails with `EntityError` exactly when an update names a parameter that is not there; otherwise only descriptions, aliases and GDPR flags change |
| EventService.LastUpdateFor | metadata/api/event/service.py:36-40 | the last update naming the parameter, or None when none does |
| EventService.ApplyUpdatesContents | metadata/api/event/service.py:36-40 | the first parameter of a name carries the last update naming it; every other parameter is unchanged |
| EventService.AtomicNames | metadata/api/event/service.py:45 | exactly the names of the atomic parameters |
| EventService.Construct | metadata/api/event/service.py:50-57 | the batch is built, one parameter per request entry, exactly when every name is valid; otherwise `EntityError` |
| EventService.RequestAcceptedIff | metadata/api/event/service.py:46-57 | new parameters are accepted exactly when no name is atomic, every name is valid, every version is the next expected one (and common-derived events use `custom_`), and the names are new and distinct; the first broken rule is the error |
| EventService.NewParametersBecomeCurrentVersion | metadata/api/event/service.py:46-57 | an accepted batch is appended in request order and its version becomes the current version |
| EventService.StatusAfter | metadata/api/event/service.py:59-60 | the status changes exactly when parameters were added to a `SUCCESS` event, and then to `NEEDS_UPDATE` |
| EventService.InheritedOf | metadata/core/domain/event.py:138-148 | the merged schema lists these ahead of the own parameters; none for a game-specific event |
| EventService.OwnAfterUpdates | metadata/api/event/service.py:34-40 | updates are checked against the merged list and fail for an unknown name; only the own parameters keep what was written |
| EventService.OwnUpdatesApply | metadata/api/event/service.py:34-40 | on a game-specific event with distinct names each parameter carries its last update |
| EventService.InheritedUpdatesLost | metadata/api/event/service.py:34-40 | on a common-derived event, updates naming only inherited parameters leave the stored parameters unchanged |
| EventService.OwnParametersAfter | metadata/api/event/service.py:34-57 | without new parameters the result is that of the updates alone |
| EventService.AddNewParameters | metadata/api/event/service.py:45-60 | the own parameters and the status end as `AddedParameters` and `StatusAfter` say; on an error the status is untouched |
| EventService.UpdateEvent | metadata/api/event/service.py:33-60 | an error leaves the event as it was; otherwise the parameters are those of the updates and the new batch, the description is the request's on a game-specific event only, and the status follows `StatusAfter` |
| EventService.CreationOutcome | metadata/api/event/service.py:41-65 | a creation goes through only for a valid, non-context name of a stored app whose new parameters are accepted at version 0 |
| EventService.CreateEvent | metadata/api/event/service.py:41-65 | on an error nothing is stored; otherwise a fresh `NOT_READY` game-specific event with the request's name, alias, description and parameters is stored last with fresh ids |
| EventService.CreateOrUpdateEvent | metadata/api/event/service.py:20-66 | the app's event of that name is updated in place when it exists, and created otherwise, as `UpdateEvent` and `CreateEvent` state; the stored rows keep their constraints |
| EventService.NewEventWithVersionZero | tests/api/event/test_event.py:22-39 | a new event with one `STRING` parameter at version 0 is created with that parameter |
| EventService.EventNameAccepted | tests/api/event/test_event.py:22-39 | `event` is a valid event name |
| EventService.FirstParameterAccepted | tests/core/test_event_create.py:68-76 | one valid non-atomic parameter at the expected version goes in alone |
| EventService.VersionOneAfterVersionZero | tests/api/event/test_event.py:41-73 | after the event is stored, a GDPR `BOOLEAN` parameter `param1` at version 1 is appended after `param` |
| EventService.AtomicNameRefused | tests/api/event/test_event.py:75-87 | a new parameter named `sandbox_mode` is refused |
| EventService.UpdatingEventMetadata | tests/api/event/test_event.py:89-117 | an update writes the parameter's GDPR flag and description and keeps its name, type and version; the event takes the request's description |
| EventService.PublicParameterOf | metadata/api/event/service.py:85-92 | the public parameter has the parameter's name, version and derived alias |
| EventService.GetEventByName | metadata/api/event/service.py:68-95 | `EntityNotFound` exactly when the app has no event of that name; otherwise the name, the alias (explicit or derived) and the description of its merged schema, its datasource id, status and common flag, and the parameters of the merged schema in order |
| EventService.LockKeysDistinct | metadata/api/event/service.py:24 | different events of valid apps lock under different strings |
| EventService.BigEndian4 | metadata/api/event/service.py:129-130 | four bytes read big-endian fit in 32 bits |
| EventService.HashInt32 | metadata/api/event/service.py:126-137 | the lock key lies in 0 .. 2^31 - 2, a valid signed 32-bit value |
| EventService.HashInt32IsTheRemainder | metadata/api/event/service.py:132-135 | the sign adjustment never applies: the key is the first four digest bytes modulo 2^31 - 1 |
| EventTables.ConvertTypeAgrees | metadata/core/event_tables_creator.py:26-40 | the lookup has an entry for every member of `ParameterType`: numbers are `float`, datetimes `timestamp`, maps `record`, other scalars their own name |
| EventTables.ConvertType | metadata/core/event_tables_creator.py:26-40 | `convert_type` of a member's value is its intended warehouse type and never raises |
| EventTables.ConvertTypeMeaning | metadata/core/event_tables_creator.py:26-40 | a type converts to `record` exactly when it is a map; distinct scalars convert to distinct types |
| EventTables.ModeOfType | metadata/core/event_tables_creator.py:59-60 | a column is `REPEATED` exactly when its type is a map |
| EventTables.MapSubfields | metadata/core/event_tables_creator.py:62-73 | a map has key and value sub-columns; a scalar has none |
| EventTables.ParameterField | metadata/core/event_tables_creator.py:77-78 | a parameter's column has its name, description and converted type, and is repeated exactly for a map |
| EventTables.ParameterFields | metadata/core/event_tables_creator.py:77-79 | one column per parameter, in order |
| EventTables.ParamsField | metadata/core/event_tables_creator.py:75-81 | no `params` record exactly when there are no parameters; otherwise a `RECORD` holding their columns |
| EventTables.AtomicField | metadata/core/event_tables_creator.py:86 | an atomic column has the atomic's name and converted type |
| EventTables.AtomicFields | metadata/core/event_tables_creator.py:86 | one column per atomic parameter, in order |
| EventTables.ContextField | metadata/core/event_tables_creator.py:89-91 | a context's record column has its name and its parameters' columns |
| EventTables.ContextFields | metadata/core/event_tables_creator.py:88-91 | one record per embedded context, in order |
| EventTables.EventColumns | metadata/core/event_tables_creator.py:83-93 | building the columns raises (`AttributeError` on `None.fields`) exactly when an embedded context has no parameters |
| EventTables.EventColumnsHoldEverything | metadata/core/event_tables_creator.py:83-93 | the columns are the atomics, then `params` when there are parameters, then a record per context, each under its own name and type |
| EventTables.NoDiffWhenCovered | metadata/core/event_tables_creator.py:96-101 | a table already holding every new column is not updated; a non-empty table that is not updated holds every new column |
| EventTables.CleanContextNameOfWrapped | metadata/core/event_tables_creator.py:124-131 | `ctx_X_context` shows as `X_`, and `ctx_context` as `context_` |
| EventTables.CleanAtomicName | metadata/core/event_tables_creator.py:132-136 | the alias starts with the name and ends in `_` |
| EventTables.ViewColumns | metadata/core/event_tables_creator.py:138-152 | the important atomics come first, then each parameter from `params` under its own name, then the other atomics and the contexts |
| EventTables.OtherAtomicColumns | metadata/core/event_tables_creator.py:142 | exactly the atomics that are not among the important five |
| EventTables.ParameterAliasesStandApart | metadata/core/event_tables_creator.py:138-152 | no other view column has a parameter's name as its alias |
| EventTables.OtherColumnsEndInUnderscore | metadata/core/event_tables_creator.py:142 | every other-atomic alias ends in `_` |
| EventTables.TableStep | metadata/core/event_tables_creator.py:103-120 | at most one write, to the table itself; none exactly when it exists as a view or has no new column |
| EventTables.TableStepSettles | metadata/core/event_tables_creator.py:103-120 | once its write went through, the table needs no further write |
| EventTables.ViewSteps | metadata/core/event_tables_creator.py:168-169 | the calls write only the `_v_load` and `_v_raw` views |
| EventTables.MaintenancePlan | metadata/core/event_tables_creator.py:157-169 | the plan fails with `AttributeError` exactly when the columns cannot be built |
| EventTables.DatasetsDistinct | metadata/core/event_tables_creator.py:157-169 | the `_load`, `_raw` and `_backfill` tables and the two views are five different tables |
| EventTables.TablesSettle | metadata/core/event_tables_creator.py:157-167 | after all three table writes went through, the tables need none |
| EventTables.MaintenanceSettles | metadata/core/event_tables_creator.py:157-169 | a second run right after a complete one writes no table, only the views |
| EventTables.MaintainEventTable | metadata/core/event_tables_creator.py:157-169 | a column error makes no call; otherwise the calls made and the new state are the plan up to its first failing call, and the outcome says whether one failed |
| EventTables.ProcessTable | metadata/core/event_tables_creator.py:103-120 | the table's write, if any, is made and takes effect unless it fails |
| EventTables.ProcessTables | metadata/core/event_tables_creator.py:159-169 | the three tables then the views, stopping at the first call that fails |
| Cloud.ReplayUntouched | metadata/core/event_tables_creator.py:103-120 | calls that write other tables leave a table as it was |
| Cloud.ReachedIsFirstFailure | metadata/api/event/maintainer.py:44-63 | a run gets exactly as far as the first call that raises |
| Cloud.Client.constructor | metadata/core/event_tables_creator.py:47-50 | a client of a project starts with no calls made |
| Cloud.Client.Perform | metadata/core/gcs_iglu_uploader.py:24-26 | a call that raises changes nothing; any other is recorded and takes effect |
| Cloud.Client.Run | metadata/core/event_tables_creator.py:157-169 | the calls are made in order up to the first that raises, and take effect |
| Cloud.Client.TableIfExists | metadata/core/event_tables_creator.py:52-57 | the table or view found, or None when there is none |
| Cloud.Client.TablesIn | metadata/api/app/internal/bigquery_iam.py:24-25 | the ids of the dataset's tables and views |
| Cloud.Client.Policy | metadata/api/organization/internal/gcp_project_iam.py:23-25 | the project's current bindings |
| Cloud.Client.AccessEntries | metadata/api/app/internal/bigquery_iam.py:27 | the dataset's current access entries |
| ProjectIam.FirstWithRole | metadata/api/organization/internal/gcp_project_iam.py:26 | the first binding for the role, or None when no binding has it |
| ProjectIam.WithRoleMembersReplacesFirst | metadata/api/organization/internal/gcp_project_iam.py:26-35 | the role's first binding takes the members and nothing else changes, or a binding for the role is appended |
| ProjectIam.WithRoleMembersIdempotent | metadata/api/organization/internal/gcp_project_iam.py:26-35 | setting the same members twice is setting them once |
| ProjectIam.RoleHoldsMembers | metadata/api/organization/internal/gcp_project_iam.py:26-35 | afterwards the role's first binding holds exactly the members and other roles are untouched |
| ProjectIam.SetRoleMembers | metadata/api/organization/internal/gcp_project_iam.py:21-40 | one policy write with the role's members replaced; a failure changes nothing |
| ProjectIam.SetRoleMembersGrants | metadata/api/organization/internal/gcp_project_iam.py:21-40 | after the call the project's role has exactly the members |
| BigQueryIam.EnumerationOf | metadata/api/app/internal/bigquery_iam.py:29 | every set of tables has an iteration order listing each once |
| BigQueryIam.MirrorViews | metadata/api/app/internal/bigquery_iam.py:29-31 | one client view per table, in order |
| BigQueryIam.NewEntries | metadata/api/app/internal/bigquery_iam.py:32-34 | exactly the view entries for tables the client project did not have |
| BigQueryIam.CreateAuthorizedViews | metadata/api/app/internal/bigquery_iam.py:20-37 | the calls made are a view per source table in some set order, then one access-list write with the old entries and the new views' entries, up to the first that raises |
| BigQueryIam.MirrorTables | metadata/api/app/internal/bigquery_iam.py:29-34 | the loop makes each table's view in the chosen order and collects the entries of views new to the client |
| BigQueryIam.StopsAtView | metadata/api/app/internal/bigquery_iam.py:29-31 | a failing view ends the run as if the remaining tables came after it |
| BigQueryIam.EndsWithUpdate | metadata/api/app/internal/bigquery_iam.py:36-37 | with every table done, the run ends with the one access-list write |
| BigQueryIam.AuthorizedViewsCoverSource | metadata/api/app/internal/bigquery_iam.py:20-37 | after a complete run every source table has its client view, the old entries remain and every new view is authorized |
| BigQueryIam.MirrorViewsReplay | metadata/api/app/internal/bigquery_iam.py:29-31 | every listed table ends up with its client view |
| BigQueryIam.CreateCommonAuthorizedViews | metadata/api/app/internal/bigquery_iam.py:39-55 | when the client lacks the app's bad-events view, the view and its authorization are made, up to the first call that raises; otherwise nothing |
| RawSchemaMaintainer.Pending | metadata/api/raw_schema/maintainer.py:36 | only stored raw schemas that are not `SUCCESS` |
| RawSchemaMaintainer.PendingIsTheUnfinished | metadata/api/raw_schema/maintainer.py:36 | a raw schema is taken up exactly when it is stored and not `SUCCESS` |
| RawSchemaMaintainer.Uploads | metadata/api/raw_schema/maintainer.py:41-46 | one upload per raw schema, of its document under its own path |
| RawSchemaMaintainer.IssuedNext | metadata/api/raw_schema/maintainer.py:39-49 | a turn that went through adds its upload, which did not fail |
| RawSchemaMaintainer.Calls | metadata/api/raw_schema/maintainer.py:41-46 | no upload in a dry run, one per pending raw schema otherwise |
| RawSchemaMaintainer.Handled | metadata/api/raw_schema/maintainer.py:39-49 | never more than the pending raw schemas |
| RawSchemaMaintainer.StopsAt | metadata/api/raw_schema/maintainer.py:39-49 | an upload failing at turn `i` is the first failure of the pass, which fails |
| RawSchemaMaintainer.RanThrough | metadata/api/raw_schema/maintainer.py:39-49 | when every turn went through, every raw schema is handled and the pass passes |
| RawSchemaMaintainer.Turn | metadata/api/raw_schema/maintainer.py:40-49 | the upload unless in a dry run; when it goes through, the raw schema is marked `SUCCESS`; when it raises, nothing changes |
| RawSchemaMaintainer.ProcessAll | metadata/api/raw_schema/maintainer.py:39-49 | the loop marks a prefix of the pending raw schemas; it stops early only at a failing upload outside a dry run; every upload made went through; the rest are unchanged |
| RawSchemaMaintainer.HandledIsWhereItStopped | metadata/api/raw_schema/maintainer.py:39-49 | where the loop stopped is `Handled`, and its outcome is that of the whole plan |
| RawSchemaMaintainer.ProcessNonSuccess | metadata/api/raw_schema/maintainer.py:32-51 | the outcome is that of the uploads; the raw schemas before the first failing upload (all in a dry run) become `SUCCESS`, and every other raw schema is as it was |
| OrganizationMaintainer.Pending | metadata/api/organization/maintainer.py:34 | only stored organizations that are not `SUCCESS` |
| OrganizationMaintainer.PendingIsTheUnfinished | metadata/api/organization/maintainer.py:34 | an organization is taken up exactly when it is stored and not `SUCCESS` |
| OrganizationMaintainer.RoleCalls | metadata/api/organization/maintainer.py:37-44 | one policy write per organization |
| OrganizationMaintainer.RoleCallsNext | metadata/api/organization/maintainer.py:37-44 | the writes for one more organization are the earlier ones and its own |
| OrganizationMaintainer.RoleCallsPrefix | metadata/api/organization/maintainer.py:37-44 | the writes of a longer pass begin with those of a shorter one |
| OrganizationMaintainer.RoleCallGrants | metadata/api/organization/maintainer.py:40-42 | the `i`-th write leaves that organization's project with the client-admin role held by exactly its principals, in order |
| OrganizationMaintainer.Granted | metadata/api/organization/maintainer.py:37-44 | the writes before it all went through, and the next one raises |
| OrganizationMaintainer.NextCallIssued | metadata/api/organization/maintainer.py:37-44 | the write for an earlier organization is among those of a longer pass |
| OrganizationMaintainer.GrantedIsFirstRefusal | metadata/api/organization/maintainer.py:37-44 | `Granted` is the first organization whose write raises |
| OrganizationMaintainer.Handled | metadata/api/organization/maintainer.py:37-44 | never more than the pending organizations |
| OrganizationMaintainer.StateBefore | metadata/api/organization/maintainer.py:37-44 | before turn `i` the cloud holds what the writes for the earlier organizations made of it |
| OrganizationMaintainer.TraceAfter | metadata/api/organization/maintainer.py:37-44 | after a write at turn `i` went through, the trace holds the writes for one more organization, all of which went through |
| OrganizationMaintainer.Turn | metadata/api/organization/maintainer.py:38-44 | the role grant unless in a dry run; when it goes through the organization is marked `SUCCESS`; when it raises nothing changes |
| OrganizationMaintainer.ProcessAll | metadata/api/organization/maintainer.py:37-44 | the loop marks a prefix of the pending organizations; it stops early only at a failing write outside a dry run; every write made went through; the rest are unchanged |
| OrganizationMaintainer.HandledIsWhereItStopped | metadata/api/organization/maintainer.py:37-44 | where the loop stopped is `Handled` |
| OrganizationMaintainer.ProcessNonSuccess | metadata/api/organization/maintainer.py:31-45 | the organizations before the first failing write (all in a dry run) become `SUCCESS` with their role granted, and every other one is as it was |
| EventMaintainer.DocumentUploads | metadata/api/event/maintainer.py:53-55 | one upload per document, of its JSON under its path, in order |
| EventMaintainer.Pending | metadata/api/event/maintainer.py:37 | exactly the stored events that are not `SUCCESS` |
| EventMaintainer.Jobs | metadata/api/event/maintainer.py:44-55 | for each event its app, its merged schema and its documents |
| EventMaintainer.TurnCalls | metadata/api/event/maintainer.py:48-55 | no call in a dry run; otherwise the turn cannot be planned exactly when the columns cannot be built, and else it is the table maintenance followed by the document uploads |
| EventMaintainer.TurnPlanner | metadata/api/event/maintainer.py:41-55 | every turn is planned by `TurnCalls` with the pass's project, contexts, atomics and mode |
| EventMaintainer.EventPass | metadata/api/event/maintainer.py:44-63 | the pass marks at most every event, and gets to the end exactly when it marks them all |
| EventMaintainer.DryRunMarksUpToUnknownApp | metadata/api/event/maintainer.py:44-63 | in a dry run nothing is called and every event up to the first whose app is not stored is marked |
| EventMaintainer.TurnUploadsDocument | metadata/api/event/maintainer.py:53-55 | a turn that can be planned uploads every document of its event |
| EventMaintainer.CompletePassPublishesEveryDocument | metadata/api/event/maintainer.py:44-63 | a complete pass uploaded every document of every event it took up, each of which belongs to a stored app |
| EventMaintainer.TurnAdvancesPass | metadata/api/event/maintainer.py:44-63 | a failing turn is where the pass ends; a passing one leaves the rest of the pass to run from the state its calls left |
| EventMaintainer.AppIdsOf | metadata/api/event/maintainer.py:60 | exactly the app ids of the first `n` events |
| EventMaintainer.EventsUpTo | metadata/api/event/maintainer.py:44 | exactly the first `n` events |
| EventMaintainer.AppStatusAfter | metadata/api/event/maintainer.py:59-62 | an app's status changes exactly when it was `SUCCESS` and one of its events was marked, and then to `NEEDS_UPDATE` |
| EventMaintainer.AppStatusAfterTwice | metadata/api/event/maintainer.py:59-62 | marking in two rounds is marking once with both rounds' apps |
| EventMaintainer.StoredAppIds | metadata/api/event/maintainer.py:60 | exactly the ids for which the `.one()` finds an app |
| EventMaintainer.EventStamps | metadata/core/domain/event.py:161-163 | each event's status and status time, in order |
| EventMaintainer.AppStamps | metadata/core/domain/app.py:186-188 | each app's status and status time, in order |
| EventMaintainer.Publish | metadata/api/event/maintainer.py:48-55 | the calls of the turn up to the first that raises, none when it cannot be planned; the state is what they made of it |
| EventMaintainer.MarkApp | metadata/api/event/maintainer.py:60-62 | the app is found exactly when one is stored with the id, and then it is sent back to `NEEDS_UPDATE` if it was `SUCCESS`; otherwise nothing changes |
| EventMaintainer.MarkTurn | metadata/api/event/maintainer.py:57-63 | when the app is found the event is `SUCCESS` and its app marked; when not, nothing changes |
| EventMaintainer.MarkEvent | metadata/api/event/maintainer.py:57 | the next event is marked `SUCCESS` as of now |
| EventMaintainer.Turn | metadata/api/event/maintainer.py:44-63 | the turn's calls as planned, then its bookkeeping exactly when they all went through |
| EventMaintainer.PassOver | metadata/api/event/maintainer.py:44-63 | the calls, the outcome and the number of events marked are those of `EventPass`; the marked events are `SUCCESS`, their `SUCCESS` apps `NEEDS_UPDATE`, and the rest as they were |
| EventMaintainer.MaintainPending | metadata/api/event/maintainer.py:40-63 | the pass runs with the stored atomics and the contexts embedded in events, as `EventPass` says |
| EventMaintainer.ProcessNonSuccess | metadata/api/event/maintainer.py:32-66 | the events taken up are those not `SUCCESS`; the marked ones become `SUCCESS` and their `SUCCESS` apps `NEEDS_UPDATE`; a pass that gets to the end leaves every one of them `SUCCESS` |
| EventMaintainer.PendingSelected | metadata/api/event/maintainer.py:37 | every event taken up is stored and not `SUCCESS` |
| EventMaintainer.EveryEventMarked | metadata/api/event/maintainer.py:44-63 | once all pending events are marked, each is `SUCCESS` |
| AppMaintainer.PendingApps | metadata/api/app/maintainer.py:25 | exactly the stored apps that are not `SUCCESS`; their ids stay distinct |
| AppMaintainer.LinkedCommonIds | metadata/api/app/maintainer.py:58 | exactly the ids of the common events some event of the app derives from |
| AppMaintainer.MissingCommons | metadata/api/app/maintainer.py:59-61 | exactly the common events whose id is not linked, in stored order |
| AppMaintainer.LinkedEvent | metadata/api/app/maintainer.py:63-70 | a fresh unsaved event of the app derived from the common event, with its app schema, frozen at the common schema's current version |
| AppMaintainer.AddMissingCommonEvents | metadata/api/app/maintainer.py:57-71 | one new event per common event the app has no event of, in order, each as `LinkedEvent` makes it |
| AppMaintainer.AddNext | metadata/api/app/maintainer.py:62-71 | the event for the next missing common event extends the events added so far |
| AppMaintainer.AddedForEachAppend | metadata/api/app/maintainer.py:59-71 | one more event for one more common event keeps the added events matched one to one |
| AppMaintainer.EveryCommonLinked | metadata/api/app/maintainer.py:57-71 | once the new events are stored, the app has an event of every common event and nothing is missing |
| AppMaintainer.NothingMissing | metadata/api/app/maintainer.py:59-61 | when every common event is linked, none is missing |
| AppMaintainer.OtherAppsEvents | metadata/api/app/maintainer.py:58 | other apps' events neither link an app to a common event nor take one of its names |
| AppMaintainer.EventNamedAppendOthers | metadata/api/app/maintainer.py:58 | storing other apps' events does not change which event of an app has a name |
| AppMaintainer.LinksStay | metadata/api/app/maintainer.py:58 | a link, once stored, stays when more events are stored |
| AppMaintainer.StoreAdded | metadata/api/app/maintainer.py:47 | the commit stores the new events after the others, two fresh ids each, keeping the constraints; each stays `NOT_READY` as of now, frozen at its common event's current version (`AddedForEach`) |
| AppMaintainer.StoreNext | metadata/api/app/maintainer.py:47 | one new event is stored, the later ones' names stay free, and the new events stay as `AddedForEach` says |
| AppMaintainer.AppWithIdIsStored | metadata/api/app/maintainer.py:25 | a stored app is the one found under its id |
| AppMaintainer.ContextJobs | metadata/api/app/maintainer.py:50-55 | one job per context, in order: its schema view and its registry documents |
| AppMaintainer.ContextPlanner | metadata/api/app/maintainer.py:52 | each context's turn is planned as the event maintainer's turn with no embedded contexts and calls made, and so always plans |
| AppMaintainer.ContextCallsUploadEveryDocument | metadata/api/app/maintainer.py:50-55 | every document of every context is uploaded |
| AppMaintainer.AppCalls | metadata/api/app/maintainer.py:44-45 | the app's single-app set-up comes first, then the contexts' calls |
| AppMaintainer.SetUpContexts | metadata/api/app/maintainer.py:50-55 | the contexts' calls are made up to the first that raises, and take effect |
| AppMaintainer.SetUpContext | metadata/api/app/maintainer.py:51-55 | one context's table maintenance and uploads, up to the first call that raises |
| AppMaintainer.AppTurnCalls | metadata/api/app/maintainer.py:43-45 | no call in a dry run; otherwise the app's set-up first |
| AppMaintainer.AppTurn | metadata/api/app/maintainer.py:40-47 | the calls up to the first that raises; one new event per common event the app was missing, `NOT_READY` as of now and frozen at its common event's current version, stored only when the turn passes; events earlier turns added stay as `EachAddedFor` says |
| AppMaintainer.CloudTurn | metadata/api/app/maintainer.py:41-43 | no call in a dry run; otherwise the app's set-up and contexts up to the first call that raises, which fails the turn; earlier turns' events stay as `EachAddedFor` says |
| AppMaintainer.Commit | metadata/api/app/maintainer.py:47 | the commit is refused, with nothing written, exactly when a new event's unique name clashes; otherwise the new events are stored after the others with two fresh ids each |
| AppMaintainer.SetUpAppInCloud | metadata/api/app/maintainer.py:44-45 | the set-up and context calls up to the first that raises |
| AppMaintainer.AppJobs | metadata/api/app/maintainer.py:39-47 | for each pending app its id and whether its commit goes through against the stored events |
| AppMaintainer.AppPass | metadata/api/app/maintainer.py:39-47 | the pass handles at most every app, and gets to the end exactly when it handles them all |
| AppMaintainer.MaintainApps | metadata/api/app/maintainer.py:21-48 | nothing when no app is pending; a failing shared set-up ends the pass before any app; otherwise the pass over the apps |
| AppMaintainer.DryRunHandlesUpToRefusedCommit | metadata/api/app/maintainer.py:39-47 | in a dry run nothing is called and every app up to the first refused commit is handled |
| AppMaintainer.CompletePassSetsUpEveryApp | metadata/api/app/maintainer.py:39-47 | a complete pass set up every app, uploaded every context document, and every commit went through |
| AppMaintainer.AppTurnAdvancesPass | metadata/api/app/maintainer.py:39-47 | a failing turn is where the pass ends; a passing one leaves the rest to run from the state its calls left |
| AppMaintainer.IdsBefore | metadata/api/app/maintainer.py:39 | exactly the ids of the first `n` pending apps |
| AppMaintainer.CommitUnaffectedByOthers | metadata/api/app/maintainer.py:57-71 | events other apps added change neither what an app is missing nor whether its commit goes through |
| AppMaintainer.AppStep | metadata/api/app/maintainer.py:40-47 | the turn does what `AppTurnResult` says; the events stay as `EventsSoFar` describes, and those added in the pass are one per missing common event of each handled app, `NOT_READY` as of now at their common event's current version (`LinkedSoFar`, `EachAddedFor`) |
| AppMaintainer.MarkedStep | metadata/api/app/maintainer.py:40-47 | the turn moves the pass on by one app when it passes, marking it `SUCCESS`, and ends it otherwise; the added events stay as `LinkedSoFar` and `EachAddedFor` say |
| AppMaintainer.MarkDone | metadata/api/app/maintainer.py:46 | the next app is `SUCCESS` as of now, and the events added so far stay as `EachAddedFor` says |
| AppMaintainer.JobStillHolds | metadata/api/app/maintainer.py:39-47 | a job worked out before the pass still says what the app's commit does after earlier apps added events |
| AppMaintainer.EventsAdvance | metadata/api/app/maintainer.py:40-47 | a passing turn's stored events move the pass on by one app |
| AppMaintainer.AddedAdvance | metadata/api/app/maintainer.py:57-71 | once the next app's turn stores its new events, each handled app's added events are still one per common event it was missing, and every added event is `NOT_READY` at its parent's current version |
| AppMaintainer.EachAddedForAppend | metadata/api/app/maintainer.py:62-71 | the events one turn adds join those added before as events derived from their common event, `NOT_READY` as of now |
| AppMaintainer.AddedOfOneApp | metadata/api/app/maintainer.py:58-71 | after the next app's turn, an earlier app's added events are unchanged and the next app's are exactly those the turn added |
| AppMaintainer.PassOverApps | metadata/api/app/maintainer.py:39-47 | the calls, outcome and number of apps handled are those of `AppPass`; handled apps are `SUCCESS` with their events stored, one per missing common event, `NOT_READY` as of now at its common event's current version; the rest are as they were |
| AppMaintainer.SetUpAllAppsInCloud | metadata/api/app/maintainer.py:28-34 | skipped in a dry run; otherwise the shared set-up call, which fails exactly when it raises |
| AppMaintainer.MaintainPendingApps | metadata/api/app/maintainer.py:27-47 | the shared set-up and then the pass, as `MaintainApps` says; the events it adds are as `LinkedSoFar` and `EachAddedFor` say |
| AppMaintainer.ProcessNonSuccess | metadata/api/app/maintainer.py:21-48 | over the apps not `SUCCESS` and every context: the calls, outcome and number of apps handled are those `MaintainApps` gives; the apps handled are `SUCCESS` as of `now` with an event of every common event, the others as they were; stored events stay, and every event added belongs to a handled app, one per common event it missed, `NOT_READY` as of `now` at its common event's current version |
| AppMaintainer.SecondPassAddsNothing | metadata/api/app/maintainer.py:57-71 | once a pass has handled an app, a second pass finds no common event missing for it |
| Store.EventNamed | metadata/api/event/service.py:27-31 | none exactly when no stored event of the app has that name; otherwise a stored event of the app with that name |
| Store.EventNamedIsTheOnly | metadata/api/event/service.py:71-75 | with names distinct per app, the event found is the one event of that app and name |
| Store.EventNamedAfterAppend | metadata/api/event/service.py:62-65 | storing an event keeps what was found, and otherwise finds the new event exactly when it has that app and name |
| Store.AppendEventKeepsConstraints | metadata/core/database/orm.py:176-188 | an event of a stored app with a name new for that app keeps names distinct per app and every event's app stored |
| Store.StoreEvent | metadata/api/event/service.py:62-65 | the event is stored last, it and its schema take the next two ids, and the constraints still hold |
| Store.AppWithId | metadata/api/app/service.py:40 | none exactly when no stored app has the id; otherwise a stored app with that id |
| Store.AppWithIdIsTheOnly | metadata/api/app/service.py:40 | with app ids distinct, the app found is the one app with that id |
| Store.One | metadata/api/app/service.py:40 | the only row when there is exactly one; `NoResultFound` for none and `MultipleResultsFound` for several |
| Store.ContextsEmbedded | metadata/api/app/service.py:68-70 | exactly the stored contexts with that embedded flag, each from the stored ones |
| Store.OrganizationsNamed | metadata/api/app/service.py:23 | exactly the stored organizations with that name, each from the stored ones |

## Left out

- The Postgres advisory locks (`maintainer_lock` and the event service's `pg_try_advisory_xact_lock`) are left out. They only serialise concurrent sessions, which the model does not have. The lock key and its hash range are modelled.
- MD5 is not modelled. `EventService.HashInt32` takes the 16-byte digest as a parameter.
- `datetime.utcnow()` and `date.today()` are not modelled. They become `now`/`today` parameters, and one reading stands for every call within one service call or pass.
- `random.choice` is not modelled. The sixteen draws of an api key are a parameter, and only the key's length and alphabet follow from them.
- pytz is not modelled. The set of known timezone names is a parameter of `Apps.NewTimezone`.
- `json.dumps` and `json.loads` are not modelled. Documents are `JsonValues.Json` trees, and a raw schema's stored text is uploaded as the value the model holds.
- The SQL text of the views is left out, including the bad-events monitoring view. A view is the datatype `Cloud.ViewDef`: its source table, the `app_id` filter, or its aliased columns.
- `bigquery_single_app`, `bigquery_all_apps` and `bigquery_ddl` are left out. They are cloud orchestration with no computed result, so each is one opaque effect in the trace: `SetUpApp` or `SetUpAllApps`.
- The `gcs_iglu_uploader` bucket is not modelled. An upload stores its document under `schemas/` followed by its path in one document store.
- Cloud reads never fail in the model: getting a table, a dataset or a policy is a function of the state. Only calls that change something can raise, namely those in `Client.failing`.
- Errors raised inside a collaborator are one `CollaboratorFailure`, and the exception types of the cloud libraries are not distinguished.
- A transaction rollback is modelled by validating before writing. Each service and maintainer step checks what would make its commit fail, then writes only if the commit goes through. So the database never holds a half-applied change.
- The tables' separate autoincrement sequences are modelled as one id counter, `Store.Database.lastId`, shared by all tables.
- The unique constraint of `schema` on (vendor, name) is modelled as distinct names among one app's events (`Store.EventNamesDistinct`). All schemas of an app's events carry that app's vendor. Uniqueness against common events' and contexts' schemas is not tracked.
- The unique constraint on (`app_id`, `parent_common_event_id`) of `event` is not part of `Store.Database.Valid`. The app pass adds at most one event per common event that is not yet linked, so it is not needed for the properties proved here.
- The driver thread in metadata/status_maintainer.py is left out: its infinite loop, sleep and error counter are concurrency and timing.
- The HTTP layer, request and response DTOs, logging, tracing, monitoring and configuration are left out, as are the migrations and seed data. None of them holds logic of the core.
- `AtomicParameter.get_alias` (metadata/core/domain/event.py:28-29) is not modelled: nothing in the core calls it.
- `Schemas.NewSchema`, `Schemas.NewSchemaParameter`, `Schemas.Schema.constructor`, `Events.CreateGameSpecific` and `EventService.Construct`: they refuse a name ending in `\n`, which the code accepts (first Findings row). The code's acceptance of such a name is stated only by `Schemas.TrailingNewlineAccepted`.
- `Apps.App.AddDatasource`: it refuses a datasource whose id is present, where the code refuses only a field-by-field equal one (second Findings row). The code's behaviour is stated only by `Apps.SecondUserHistoryNotCaughtAsWritten`.
- `AppIdentity.NewAppId`: only the ASCII letters 'a'..'z' are modelled as lowercase. Python's `str.islower` (metadata/core/domain/app_id.py:25) also accepts other Unicode lowercase letters, such as `é` or `ß`; the model refuses an id holding one, because the Unicode case tables are not modelled. `AppIdentity.AllLower` and `AppIdentity.ValidAppId` share this restriction.
- `Apps.ColumnValue`: a datasource's materialized columns take part in its generated `__eq__`, but their own fields are not modelled; each column is one value, and columns compare equal exactly when their values do. The core never builds a datasource with columns, so every modelled datasource has `None` there.
- `AppDomain.GdprContextParameterNames` and `AppDomain.GdprEventParameterNames`: the source builds Python dicts, whose key insertion order the response keeps; a Dafny `map` has no key order, so that order is not modelled.
- `Events.Ascending`: the documents are listed in ascending version order. The source iterates a Python `set` of versions, which CPython yields in ascending order for small non-negative integers; the model assumes that order.
- `AppMaintainer.AppTurn`: for the events it adds when the turn passes, the link to their common event, app and schema, their `NOT_READY` stamp and their parent version are stated (`AddedForEach`), not the ids the commit gives them.
- `AppMaintainer.StoreAdded`: does not state which id each new event and schema gets, only that two fresh ids per event are used and the counter moves on by that many.
- `EventMaintainer.ProcessNonSuccess`: the owning app is looked up before the event's status is set, not after. When the lookup fails, the source raises and rolls back after setting the status; the model leaves the event unchanged, which is the same final state.
- `Cloud.Client`: the calls of a pass are stated up to the first that raises. What a half-finished collaborator call leaves behind in the cloud is not modelled.

## Findings

| source | as written | input that shows it | evidently intended | confidence | as-written member | corrected member |
|---|---|---|---|---|---|---|
| metadata/core/domain/schema.py:77-82 | `re.match(r'^[a-z][a-z0-9]+(_[a-z0-9]+)*$', name)`: in Python, `$` also matches just before a final newline, so a name ending in `\n` is accepted (the same pattern is used at schema.py:109-114) | the schema or parameter name `"event\n"` | only names that match the pattern to their very end: lowercase letters, digits and single inner underscores, 2 to 50 characters | high (not executed) | Schemas.TrailingNewlineAccepted | Schemas.NameIsValidMeansValidName |
| metadata/core/domain/app.py:193-196 | `datasource in self.datasources` uses the field-by-field `__eq__` that `@dataclass` generates, not the id identity of `BaseEntity`, so the duplicate check compares id, app, both dates and the materialized columns | an app with `user_history` starting on one date, given a second `user_history` datasource starting on another date: it is appended, and the app has two datasources with one id | refuse a datasource whose id is already present, keeping datasource ids distinct | medium (not executed) | Apps.SecondUserHistoryNotCaughtAsWritten | Apps.App.AddDatasource |
