/** Versioned schemas (metadata/core/domain/schema.py): parameter types, the name rule shared by
    schemas and parameters, the append-only parameter list of a schema and the raw schema records
    that are uploaded verbatim. */
module Schemas {
  import opened Common
  import opened EntityStatus
  import opened JsonValues
  import Text

  // ---------------------------------------------------------------------------------------------
  // Parameter types

  datatype Scalar = Number | Boolean | Integer | Date | DateTime | String

  /** The twelve members of `ParameterType`: six scalars and a string-keyed map of each. */
  datatype ParameterType = Simple(scalar: Scalar) | MapOf(values: Scalar)

  function ScalarName(s: Scalar): string
  {
    match s
    case Number => "number"
    case Boolean => "boolean"
    case Integer => "integer"
    case Date => "date"
    case DateTime => "datetime"
    case String => "string"
  }

  /** The enum member's value. */
  function TypeName(t: ParameterType): string
  {
    match t
    case Simple(s) => ScalarName(s)
    case MapOf(s) => "map<string," + ScalarName(s) + ">"
  }

  function ParseScalar(s: string): (r: Option<Scalar>)
    ensures r.Some? ==> ScalarName(r.value) == s
  {
    if s == "number" then Some(Number)
    else if s == "boolean" then Some(Boolean)
    else if s == "integer" then Some(Integer)
    else if s == "date" then Some(Date)
    else if s == "datetime" then Some(DateTime)
    else if s == "string" then Some(String)
    else None
  }

  /** `ParameterType(s)`: the member whose value is `s`, if any. */
  function ParseType(s: string): (r: Option<ParameterType>)
    ensures r.Some? ==> TypeName(r.value) == s
  {
    var prefix := "map<string,";
    if |s| > |prefix| && s[..|prefix|] == prefix && s[|s| - 1] == '>' then
      match ParseScalar(s[|prefix|..|s| - 1])
      case Some(v) =>
        assert s == prefix + s[|prefix|..|s| - 1] + ">";
        Some(MapOf(v))
      case None => None
    else
      match ParseScalar(s)
      case Some(v) => Some(Simple(v))
      case None => None
  }

  /** Every type is recovered from its value, so two types with the same value are the same type. */
  lemma ParseTypeName(t: ParameterType)
    ensures ParseType(TypeName(t)) == Some(t)
  {
    var prefix := "map<string,";
    match t
    case Simple(v) =>
      var n := TypeName(t);
      assert n[..] != [] && n[|n| - 1] != '>';
    case MapOf(v) =>
      var n := TypeName(t);
      assert n[..|prefix|] == prefix;
      assert n[|prefix|..|n| - 1] == ScalarName(v);
  }

  lemma TypeNameInjective(a: ParameterType, b: ParameterType)
    requires TypeName(a) == TypeName(b)
    ensures a == b
  {
    ParseTypeName(a);
    ParseTypeName(b);
  }

  // ---------------------------------------------------------------------------------------------
  // Names

  predicate IsLowerAlnum(c: char) { Text.IsAsciiLower(c) || Text.IsDigit(c) }

  /** `[a-z0-9]+(_[a-z0-9]+)*` matched against all of `t`, read as the regex engine reads it: a run
      of letters and digits, then either the end, more of the run, or '_' and a new run. */
  predicate Words(t: string)
    decreases |t|
  {
    |t| >= 1 && IsLowerAlnum(t[0]) &&
    (|t| == 1 || Words(t[1..]) || (t[1] == '_' && Words(t[2..])))
  }

  /** `^[a-z][a-z0-9]+(_[a-z0-9]+)*$` with `$` at the very end of the string. */
  predicate Pattern(s: string)
  {
    |s| >= 2 && Text.IsAsciiLower(s[0]) && Words(s[1..])
  }

  /** The same language described character by character. */
  predicate FlatWords(t: string)
  {
    |t| >= 1 &&
    (forall i :: 0 <= i < |t| ==> IsLowerAlnum(t[i]) || t[i] == '_') &&
    t[0] != '_' && t[|t| - 1] != '_' &&
    (forall i :: 0 <= i < |t| - 1 ==> !(t[i] == '_' && t[i + 1] == '_'))
  }

  lemma {:induction false} WordsIffFlat(t: string)
    ensures Words(t) <==> FlatWords(t)
    decreases |t|
  {
    if |t| >= 2 {
      WordsIffFlat(t[1..]);
      if |t| >= 3 {
        WordsIffFlat(t[2..]);
      } else {
        assert !Words(t[2..]) && !FlatWords(t[2..]);
      }
      if FlatWords(t) {
        if t[1] == '_' {
          assert forall i :: 0 <= i < |t[2..]| ==> t[2..][i] == t[i + 2];
          assert FlatWords(t[2..]);
        } else {
          assert forall i :: 0 <= i < |t[1..]| ==> t[1..][i] == t[i + 1];
          assert FlatWords(t[1..]);
        }
      }
      if Words(t) {
        if Words(t[1..]) {
          assert forall i :: 1 <= i < |t| ==> t[i] == t[1..][i - 1];
        } else {
          assert forall i :: 2 <= i < |t| ==> t[i] == t[2..][i - 2];
        }
      }
    }
  }

  /** A name of the schema name rule, stated outright: at least two characters, a lowercase first
      letter, then lowercase letters, digits and single underscores, never ending in '_', and at most
      fifty characters. */
  predicate ValidName(s: string)
  {
    |s| >= 2 && |s| <= 50 && Text.IsAsciiLower(s[0]) && FlatWords(s[1..])
  }

  /** `_valid_name` as the regex engine runs it: `$` also matches just before a final newline, and the
      length cap counts that newline. */
  function ValidNameAsWritten(s: string): bool
  {
    (Pattern(s) || (|s| >= 1 && s[|s| - 1] == '\n' && Pattern(s[..|s| - 1]))) && |s| <= 50
  }

  /** The intended `_valid_name`: the whole string matches the pattern and has at most fifty characters. */
  function NameIsValid(s: string): bool
  {
    Pattern(s) && |s| <= 50
  }

  /** The check accepts exactly the names of the rule. */
  lemma NameIsValidMeansValidName(s: string)
    ensures NameIsValid(s) <==> ValidName(s)
  {
    if |s| >= 2 {
      WordsIffFlat(s[1..]);
    }
  }

  /** As written, a name with a trailing newline is accepted; the intended rule refuses it. */
  lemma TrailingNewlineAccepted()
    ensures ValidNameAsWritten("event\n")
    ensures !NameIsValid("event\n")
  {
    assert Pattern("event");
    assert "event\n"[..5] == "event";
    assert "event\n"[1..][4] == '\n';
  }

  /** Apart from that newline the two rules agree. */
  lemma AsWrittenDiffersOnlyByNewline(s: string)
    ensures ValidNameAsWritten(s) && !NameIsValid(s) ==> |s| >= 1 && s[|s| - 1] == '\n'
    ensures NameIsValid(s) ==> ValidNameAsWritten(s)
  {
  }

  /** Event names the tests accept. */
  lemma EventNamesAccepted()
    ensures NameIsValid("event") && NameIsValid("eve_nt") && NameIsValid("event_ctx")
  {
  }

  /** More event names the tests accept: a digit after the first letter. */
  lemma MoreEventNamesAccepted()
    ensures NameIsValid("eve1nt") && NameIsValid("event1")
  {
  }

  /** An event name may end in `_ctx`. */
  lemma CtxSuffixAccepted()
    ensures NameIsValid("context_ctx")
  {
    WordsIffFlat("ontext_ctx");
  }

  /** Parameter names the tests accept. */
  lemma ParameterNamesAccepted()
    ensures NameIsValid("param") && NameIsValid("param1") && NameIsValid("par_am")
  {
  }

  /** Names the event tests refuse. */
  lemma NamesRefused()
    ensures !NameIsValid("") && !NameIsValid("_") && !NameIsValid("e")
    ensures !NameIsValid("_event") && !NameIsValid("event_") && !NameIsValid("ev__ent")
    ensures !NameIsValid("1event") && !NameIsValid("Event") && !NameIsValid("eve-nt")
    ensures !NameIsValid("eve nt") && !NameIsValid("e\nvent")
  {
  }

  // ---------------------------------------------------------------------------------------------
  // Parameters

  /** A schema parameter. Its database id and timestamps are left out: the core reads them only
      through `BaseEntity` equality, which `Common` models. */
  datatype SchemaParameter = SchemaParameter(
    name: string,
    ptype: ParameterType,
    introducedAtVersion: int,
    alias: Option<string>,
    description: Option<string>,
    isGdpr: bool)

  /** `SchemaParameter(...)`, refusing an invalid name. */
  function NewSchemaParameter(name: string, ptype: ParameterType, version: int,
                              alias: Option<string>, description: Option<string>, isGdpr: bool)
    : (r: Result<SchemaParameter>)
    ensures r.Ok? <==> ValidName(name)
    ensures r.Err? ==> r.error == EntityError(InvalidParameterName)
    ensures r.Ok? ==> r.value.name == name && r.value.introducedAtVersion == version
                      && r.value.ptype == ptype && r.value.isGdpr == isGdpr
                      && r.value.alias == alias && r.value.description == description
  {
    NameIsValidMeansValidName(name);
    if NameIsValid(name) then Ok(SchemaParameter(name, ptype, version, alias, description, isGdpr))
    else Err(EntityError(InvalidParameterName))
  }

  /** A Python string is truthy when it is neither None nor empty. */
  predicate Nonblank(s: Option<string>)
  {
    s.Some? && s.value != ""
  }

  /** The alias derived from a name: '_' becomes a space and the result is title-cased. */
  function DerivedAlias(name: string): string
  {
    Text.Title(Text.ReplaceChar(name, '_', ' '))
  }

  /** `get_alias` of a schema or a parameter: the explicit alias when it is non-empty, else the alias
      derived from the name. */
  function GetAlias(name: string, alias: Option<string>): (r: string)
    ensures Nonblank(alias) ==> r == alias.value
    ensures !Nonblank(alias) ==> r == DerivedAlias(name)
  {
    if Nonblank(alias) then alias.value else DerivedAlias(name)
  }

  /** For a valid name the derived alias has one character per character of the name: a space where
      the name has '_', the first letter of every word upper-cased, and lowering it gives the name
      back with '_' read as a space. */
  lemma {:induction false} DerivedAliasOfValidName(name: string)
    requires ValidName(name)
    ensures |DerivedAlias(name)| == |name|
    ensures forall i :: 0 <= i < |name| ==> (DerivedAlias(name)[i] == ' ' <==> name[i] == '_')
    ensures Text.LowerAll(DerivedAlias(name)) == Text.ReplaceChar(name, '_', ' ')
    ensures Text.IsAsciiUpper(DerivedAlias(name)[0])
  {
    var spaced := Text.ReplaceChar(name, '_', ' ');
    var a := DerivedAlias(name);
    Text.TitleAt(spaced, 0);
    forall i | 0 <= i < |name|
      ensures a[i] == ' ' <==> name[i] == '_'
      ensures Text.ToLower(a[i]) == spaced[i]
    {
      Text.TitleAt(spaced, i);
      if i > 0 {
        assert name[i] == name[1..][i - 1];
      }
    }
  }

  // ---------------------------------------------------------------------------------------------
  // Parameter lists

  predicate HasName(ps: seq<SchemaParameter>, name: string)
  {
    exists i :: 0 <= i < |ps| && ps[i].name == name
  }

  predicate DistinctNames(ps: seq<SchemaParameter>)
  {
    forall i, j :: 0 <= i < j < |ps| ==> ps[i].name != ps[j].name
  }

  /** What `Schema.add_parameters` leaves behind: the batch appended in order up to the first
      parameter whose name is already present (counting those appended before it), and whether the
      whole batch went in. */
  function AppendDistinct(existing: seq<SchemaParameter>, batch: seq<SchemaParameter>)
    : (r: (seq<SchemaParameter>, Outcome))
    decreases |batch|
  {
    if batch == [] then (existing, Pass)
    else if HasName(existing, batch[0].name) then (existing, Fail(EntityError(DuplicateParameter)))
    else AppendDistinct(existing + [batch[0]], batch[1..])
  }

  /** The list after `add_parameters` is the old list followed by a prefix of the batch; the call
      passes exactly when that prefix is the whole batch, and otherwise the next parameter's name was
      already present. */
  lemma {:induction false} AppendDistinctIsPrefix(existing: seq<SchemaParameter>, batch: seq<SchemaParameter>)
    ensures exists k :: (0 <= k <= |batch| && AppendDistinct(existing, batch).0 == existing + batch[..k]
      && (AppendDistinct(existing, batch).1 == Pass <==> k == |batch|)
      && (k < |batch| ==> AppendDistinct(existing, batch).1 == Fail(EntityError(DuplicateParameter))
                          && HasName(existing + batch[..k], batch[k].name)))
    decreases |batch|
  {
    if batch == [] {
      assert existing + batch[..0] == existing;
    } else if HasName(existing, batch[0].name) {
      assert existing + batch[..0] == existing;
    } else {
      AppendDistinctIsPrefix(existing + [batch[0]], batch[1..]);
      var k :| 0 <= k <= |batch[1..]| && AppendDistinct(existing + [batch[0]], batch[1..]).0 == existing + [batch[0]] + batch[1..][..k]
        && (AppendDistinct(existing + [batch[0]], batch[1..]).1 == Pass <==> k == |batch[1..]|)
        && (k < |batch[1..]| ==> AppendDistinct(existing + [batch[0]], batch[1..]).1 == Fail(EntityError(DuplicateParameter))
                                 && HasName(existing + [batch[0]] + batch[1..][..k], batch[1..][k].name));
      assert existing + [batch[0]] + batch[1..][..k] == existing + batch[..k + 1];
    }
  }

  /** `add_parameters` passes exactly when the batch's names are pairwise distinct and none is already
      present; when the old list had distinct names, so does the new one, pass or fail. */
  lemma {:induction false} AppendDistinctPassesIff(existing: seq<SchemaParameter>, batch: seq<SchemaParameter>)
    requires DistinctNames(existing)
    ensures DistinctNames(AppendDistinct(existing, batch).0)
    ensures AppendDistinct(existing, batch).1 == Pass <==>
      DistinctNames(batch) && forall j :: 0 <= j < |batch| ==> !HasName(existing, batch[j].name)
    decreases |batch|
  {
    if batch == [] {
    } else if HasName(existing, batch[0].name) {
    } else {
      var grown := existing + [batch[0]];
      var rest := batch[1..];
      assert DistinctNames(grown) by {
        forall i, j | 0 <= i < j < |grown| ensures grown[i].name != grown[j].name {
          if j == |existing| {
            assert grown[i] == existing[i];
          }
        }
      }
      AppendDistinctPassesIff(grown, rest);
      forall n ensures HasName(grown, n) <==> HasName(existing, n) || batch[0].name == n {
        HasNameAppend(existing, batch[0], n);
      }
      assert forall j :: 0 <= j < |rest| ==> rest[j] == batch[j + 1];
      assert DistinctNames(batch) <==>
        DistinctNames(rest) && forall j :: 0 <= j < |rest| ==> batch[0].name != rest[j].name;
    }
  }

  lemma HasNameAppend(ps: seq<SchemaParameter>, p: SchemaParameter, n: string)
    ensures HasName(ps + [p], n) <==> HasName(ps, n) || p.name == n
  {
    if HasName(ps, n) {
      var i :| 0 <= i < |ps| && ps[i].name == n;
      assert (ps + [p])[i] == ps[i];
    }
    if p.name == n {
      assert (ps + [p])[|ps|] == p;
    }
  }

  /** `current_version`: 0 for no parameters, else the greatest `introduced_at_version`. */
  function CurrentVersionOf(ps: seq<SchemaParameter>): (r: int)
    ensures ps == [] ==> r == 0
    ensures forall i :: 0 <= i < |ps| ==> ps[i].introducedAtVersion <= r
    ensures ps != [] ==> exists i :: 0 <= i < |ps| && ps[i].introducedAtVersion == r
  {
    if ps == [] then 0
    else if |ps| == 1 then ps[0].introducedAtVersion
    else
      var rest := CurrentVersionOf(ps[1..]);
      assert forall i :: 1 <= i < |ps| ==> ps[i] == ps[1..][i - 1];
      if ps[0].introducedAtVersion >= rest then ps[0].introducedAtVersion
      else
        var k :| 0 <= k < |ps[1..]| && ps[1..][k].introducedAtVersion == rest;
        assert ps[k + 1].introducedAtVersion == rest;
        rest
  }

  /** A schema id is truthy when it is set and not 0. */
  predicate Saved(id: Option<int>)
  {
    id.Some? && id.value != 0
  }

  /** `next_expected_version`: 0 for a schema that was never saved, else one past the current
      version, so it is greater than every version present. */
  function NextExpectedVersionOf(id: Option<int>, ps: seq<SchemaParameter>): (r: int)
    ensures !Saved(id) ==> r == 0
    ensures Saved(id) ==> forall i :: 0 <= i < |ps| ==> ps[i].introducedAtVersion < r
    ensures Saved(id) && ps != [] ==> exists i :: 0 <= i < |ps| && ps[i].introducedAtVersion == r - 1
    ensures Saved(id) && ps == [] ==> r == 1
  {
    if !Saved(id) then 0 else CurrentVersionOf(ps) + 1
  }

  /** `get_parameters_for_version`: the parameters introduced at or before `v`, in list order. */
  function ParametersForVersion(ps: seq<SchemaParameter>, v: int): (r: seq<SchemaParameter>)
    ensures |r| <= |ps|
    ensures forall p :: p in r <==> p in ps && p.introducedAtVersion <= v
  {
    if ps == [] then []
    else (if ps[0].introducedAtVersion <= v then [ps[0]] else []) + ParametersForVersion(ps[1..], v)
  }

  /** Filtering keeps order: the filter of a concatenation is the concatenation of the filters. */
  lemma {:induction false} ParametersForVersionAppend(a: seq<SchemaParameter>, b: seq<SchemaParameter>, v: int)
    ensures ParametersForVersion(a + b, v) == ParametersForVersion(a, v) + ParametersForVersion(b, v)
  {
    if a == [] {
      assert a + b == b;
    } else {
      assert (a + b)[1..] == a[1..] + b;
      assert (a + b)[0] == a[0];
      ParametersForVersionAppend(a[1..], b, v);
    }
  }

  /** At or beyond every version present, nothing is filtered out. */
  lemma {:induction false} ParametersForVersionKeepsAll(ps: seq<SchemaParameter>, v: int)
    requires forall i :: 0 <= i < |ps| ==> ps[i].introducedAtVersion <= v
    ensures ParametersForVersion(ps, v) == ps
  {
    if ps != [] {
      assert forall i :: 0 <= i < |ps[1..]| ==> ps[1..][i] == ps[i + 1];
      ParametersForVersionKeepsAll(ps[1..], v);
    }
  }

  /** The document for the current version holds every parameter. */
  lemma ParametersForCurrentVersion(ps: seq<SchemaParameter>)
    ensures ParametersForVersion(ps, CurrentVersionOf(ps)) == ps
  {
    ParametersForVersionKeepsAll(ps, CurrentVersionOf(ps));
  }

  /** Filtering twice is filtering once at the smaller version. */
  lemma {:induction false} ParametersForVersionNested(ps: seq<SchemaParameter>, v: int, w: int)
    ensures ParametersForVersion(ParametersForVersion(ps, v), w) == ParametersForVersion(ps, if v < w then v else w)
  {
    if ps != [] {
      ParametersForVersionNested(ps[1..], v, w);
      var head := if ps[0].introducedAtVersion <= v then [ps[0]] else [];
      ParametersForVersionAppend(head, ParametersForVersion(ps[1..], v), w);
      if ps[0].introducedAtVersion <= v {
        assert ParametersForVersion(head, w) == (if ps[0].introducedAtVersion <= w then [ps[0]] else []) + [];
      }
    }
  }

  /** The position of the first parameter called `name`. */
  function IndexOfName(ps: seq<SchemaParameter>, name: string): (r: Option<nat>)
    ensures r.None? <==> !HasName(ps, name)
    ensures r.Some? ==> (r.value < |ps| && ps[r.value].name == name
      && forall j :: 0 <= j < r.value ==> ps[j].name != name)
  {
    if ps == [] then None
    else if ps[0].name == name then Some(0)
    else
      match IndexOfName(ps[1..], name)
      case None =>
        assert forall j :: 1 <= j < |ps| ==> ps[j] == ps[1..][j - 1];
        None
      case Some(k) =>
        assert forall j :: 1 <= j <= k ==> ps[j] == ps[1..][j - 1];
        Some(k + 1)
  }

  /** `get_parameter_by_name`: the first parameter with that name, or an `EntityError`. */
  function GetParameterByName(ps: seq<SchemaParameter>, name: string): (r: Result<SchemaParameter>)
    ensures r.Ok? <==> HasName(ps, name)
    ensures r.Err? ==> r.error == EntityError(UnknownParameter)
    ensures r.Ok? ==> (r.value.name == name &&
      exists i :: 0 <= i < |ps| && ps[i] == r.value && forall j :: 0 <= j < i ==> ps[j].name != name)
  {
    match IndexOfName(ps, name)
    case None => Err(EntityError(UnknownParameter))
    case Some(i) => Ok(ps[i])
  }

  // ---------------------------------------------------------------------------------------------
  // Schemas

  /** What the registry and warehouse compilers read of a schema. */
  datatype SchemaView = SchemaView(
    vendor: string,
    name: string,
    alias: Option<string>,
    description: Option<string>,
    parameters: seq<SchemaParameter>)

  /** A schema: vendor, valid name, optional alias and description, and its parameters in the order
      they were added. The id is set when the schema is first committed. */
  class Schema {
    var id: Option<int>
    var parameters: seq<SchemaParameter>
    const vendor: string
    const name: string
    const alias: Option<string>
    var description: Option<string>

    constructor (parameters: seq<SchemaParameter>, vendor: string, name: string,
                 alias: Option<string>, description: Option<string>)
      requires ValidName(name)
      ensures this.id == None && this.parameters == parameters && this.vendor == vendor
      ensures this.name == name && this.alias == alias && this.description == description
    {
      this.id := None;
      this.parameters := parameters;
      this.vendor := vendor;
      this.name := name;
      this.alias := alias;
      this.description := description;
    }

    /** `add_parameters`: appends the batch in order, stopping with an `EntityError` at the first
        parameter whose name is already present; parameters appended before it stay. */
    method AddParameters(batch: seq<SchemaParameter>) returns (outcome: Outcome)
      modifies this`parameters
      ensures (parameters, outcome) == AppendDistinct(old(parameters), batch)
    {
      var i := 0;
      while i < |batch|
        invariant 0 <= i <= |batch|
        invariant AppendDistinct(old(parameters), batch) == AppendDistinct(parameters, batch[i..])
      {
        assert batch[i..][1..] == batch[i + 1..];
        if HasName(parameters, batch[i].name) {
          return Fail(EntityError(DuplicateParameter));
        }
        parameters := parameters + [batch[i]];
        i := i + 1;
      }
      return Pass;
    }

    function CurrentVersion(): (r: int)
      reads this
      ensures forall i :: 0 <= i < |parameters| ==> parameters[i].introducedAtVersion <= r
    {
      CurrentVersionOf(parameters)
    }

    function NextExpectedVersion(): (r: int)
      reads this
      ensures !Saved(id) ==> r == 0
      ensures Saved(id) ==> forall i :: 0 <= i < |parameters| ==> parameters[i].introducedAtVersion < r
    {
      NextExpectedVersionOf(id, parameters)
    }

    function Alias(): (r: string)
      ensures Nonblank(alias) ==> r == alias.value
    {
      GetAlias(name, alias)
    }

    function View(): (v: SchemaView)
      reads this
      ensures v.vendor == vendor && v.name == name && v.parameters == parameters
      ensures v.alias == alias && v.description == description
    {
      SchemaView(vendor, name, alias, description, parameters)
    }
  }

  /** `Schema(...)`: refuses an invalid name, otherwise an unsaved schema with the given fields. */
  method NewSchema(parameters: seq<SchemaParameter>, vendor: string, name: string,
                   alias: Option<string>, description: Option<string>) returns (r: Result<Schema>)
    ensures r.Err? <==> !ValidName(name)
    ensures r.Err? ==> r.error == EntityError(InvalidSchemaName)
    ensures r.Ok? ==> (fresh(r.value) && r.value.id == None && r.value.parameters == parameters
      && r.value.vendor == vendor && r.value.name == name && r.value.alias == alias
      && r.value.description == description)
  {
    NameIsValidMeansValidName(name);
    if !NameIsValid(name) {
      return Err(EntityError(InvalidSchemaName));
    }
    var s := new Schema(parameters, vendor, name, alias, description);
    return Ok(s);
  }

  // ---------------------------------------------------------------------------------------------
  // Raw schemas

  /** A registry document stored as is, keyed by its path. */
  class RawSchema {
    const path: string
    const schema: Json
    var status: Status
    var statusUpdatedAt: Timestamp

    /** A new raw schema is `NOT_READY`. */
    constructor (path: string, schema: Json, now: Timestamp)
      ensures this.path == path && this.schema == schema
      ensures status == NotReady && statusUpdatedAt == now
    {
      this.path := path;
      this.schema := schema;
      status := NotReady;
      statusUpdatedAt := now;
    }

    /** Assigns any status, with no transition check, and stamps the time. */
    method SetStatus(s: Status, now: Timestamp)
      modifies this
      ensures status == s && statusUpdatedAt == now
    {
      status := s;
      statusUpdatedAt := now;
    }
  }
}
