/** The registry compiler (metadata/core/domain/iglu.py): a schema and a version become an Iglu
    self-describing JSON Schema document and the path it is published under. */
module Iglu {
  import opened Common
  import opened JsonValues
  import opened Schemas
  import Text

  const MetaSchema: string := "http://iglucentral.com/schemas/com.snowplowanalytics.self-desc/schema/jsonschema/1-0-0#"

  /** `convert_simple_type`: the JSON Schema type of a scalar's value; None where the dict lookup
      raises `KeyError`. Dates and timestamps travel as strings. */
  function ConvertSimpleType(s: string): (r: Option<string>)
    ensures r.Some? <==> ParseScalar(s).Some?
    ensures r.Some? ==> r.value in {"integer", "number", "boolean", "string"}
    ensures s in {"integer", "number", "boolean", "string"} ==> r == Some(s)
    ensures s in {"date", "datetime"} ==> r == Some("string")
  {
    if s == "integer" then Some("integer")
    else if s == "number" then Some("number")
    else if s == "boolean" then Some("boolean")
    else if s == "string" then Some("string")
    else if s == "date" then Some("string")
    else if s == "datetime" then Some("string")
    else None
  }

  /** The JSON Schema type of a scalar; never a lookup failure. */
  function ScalarJsonType(v: Scalar): (r: string)
    ensures ConvertSimpleType(ScalarName(v)) == Some(r)
  {
    ConvertSimpleType(ScalarName(v)).value
  }

  /** `type.value.split(",")[1][:-1]` of a map type is the name of its value scalar. */
  lemma MapValueName(v: Scalar)
    ensures |Text.Split(TypeName(MapOf(v)), ',')| >= 2
    ensures Text.DropLast(Text.Split(TypeName(MapOf(v)), ',')[1]) == ScalarName(v)
  {
    var a, b := "map<string", ScalarName(v) + ">";
    assert TypeName(MapOf(v)) == a + [','] + b;
    assert ',' !in a;
    assert ',' !in b;
    Text.SplitAtFirst(a, ',', b);
    Text.SplitWithoutSeparator(b, ',');
    assert b[..|b| - 1] == ScalarName(v);
  }

  function Description(d: Option<string>): string
  {
    if d.Some? then d.value else ""
  }

  /** `_build_property`: a map parameter is an array of key/value objects, any other parameter its
      scalar type; both carry the description, `""` when it is missing. */
  function BuildProperty(p: SchemaParameter): (r: Json)
    ensures r.JObj? && WellFormedObject(r.keys, r.fields)
    ensures Get(r, "description") == Some(JStr(Description(p.description)))
    ensures p.ptype.Simple? ==> (r.keys == ["type", "description"]
      && Get(r, "type") == Some(JStr(ScalarJsonType(p.ptype.scalar))))
    ensures p.ptype.MapOf? ==> (r.keys == ["type", "description", "items"]
      && Get(r, "type") == Some(JStr("array"))
      && Get(r, "items") == Some(MapItems(ScalarJsonType(p.ptype.values))))
  {
    var description := JStr(if p.description.Some? && p.description.value != "" then p.description.value else "");
    assert description == JStr(Description(p.description));
    var name := TypeName(p.ptype);
    if Text.StartsWith(name, "map<") then
      assert p.ptype.MapOf? by {
        if p.ptype.Simple? {
          ScalarDoesNotStartWithMap(p.ptype.scalar);
        }
      }
      MapValueName(p.ptype.values);
      var inner := Text.DropLast(Text.Split(name, ',')[1]);
      ArrayProperty(description, MapItems(ConvertSimpleType(inner).value))
    else
      ScalarProperty(description, ConvertSimpleType(name).value)
  }

  /** A property of a scalar JSON type. */
  function ScalarProperty(description: Json, jsonType: string): (r: Json)
    ensures r.JObj? && WellFormedObject(r.keys, r.fields) && r.keys == ["type", "description"]
    ensures Get(r, "type") == Some(JStr(jsonType)) && Get(r, "description") == Some(description)
  {
    JObj(["type", "description"], map["type" := JStr(jsonType), "description" := description])
  }

  /** An array property whose elements are described by `items`. */
  function ArrayProperty(description: Json, items: Json): (r: Json)
    ensures r.JObj? && WellFormedObject(r.keys, r.fields) && r.keys == ["type", "description", "items"]
    ensures Get(r, "type") == Some(JStr("array")) && Get(r, "description") == Some(description)
    ensures Get(r, "items") == Some(items)
  {
    JObj(["type", "description", "items"], map["type" := JStr("array"), "description" := description, "items" := items])
  }

  lemma ScalarDoesNotStartWithMap(v: Scalar)
    ensures !Text.StartsWith(ScalarName(v), "map<")
  {
    assert ScalarName(v)[0] != 'm';
  }

  /** The `items` object of a map property: a `key` string and a `value` of the given type, both
      required, nothing else allowed. */
  function MapItems(valueType: string): Json
  {
    JObj(["type", "properties", "required", "additionalProperties"],
         map["type" := JStr("object"),
             "properties" := JObj(["key", "value"],
                                  map["key" := JObj(["type"], map["type" := JStr("string")]),
                                      "value" := JObj(["type"], map["type" := JStr(valueType)])]),
             "required" := JArr([JStr("key"), JStr("value")]),
             "additionalProperties" := JBool(false)])
  }

  /** The `properties` dict that `from_schema` fills: one assignment per parameter, in order. */
  function PropertiesOf(ps: seq<SchemaParameter>): (r: Json)
    ensures r.JObj? && WellFormedObject(r.keys, r.fields)
  {
    if ps == [] then EmptyObject()
    else Put(PropertiesOf(ps[..|ps| - 1]), ps[|ps| - 1].name, BuildProperty(ps[|ps| - 1]))
  }

  /** The last parameter called `name`: the one whose assignment survives. */
  function LastWithName(ps: seq<SchemaParameter>, name: string): (r: Option<SchemaParameter>)
    ensures r.None? <==> !HasName(ps, name)
    ensures r.Some? ==> r.value in ps && r.value.name == name
  {
    if ps == [] then None
    else if ps[|ps| - 1].name == name then Some(ps[|ps| - 1])
    else
      var r := LastWithName(ps[..|ps| - 1], name);
      assert forall i :: 0 <= i < |ps| - 1 ==> ps[..|ps| - 1][i] == ps[i];
      r
  }

  /** Adding one parameter puts its property under its name and leaves every other name alone. */
  lemma PropertiesOfLast(ps: seq<SchemaParameter>, name: string)
    requires ps != []
    ensures Get(PropertiesOf(ps), name) ==
      if ps[|ps| - 1].name == name then Some(BuildProperty(ps[|ps| - 1]))
      else Get(PropertiesOf(ps[..|ps| - 1]), name)
  {
  }

  /** The last parameter called `name` is the final one, or else the last such before it. */
  lemma LastWithNameLast(ps: seq<SchemaParameter>, name: string)
    requires ps != []
    ensures LastWithName(ps, name) ==
      if ps[|ps| - 1].name == name then Some(ps[|ps| - 1]) else LastWithName(ps[..|ps| - 1], name)
  {
  }

  /** A name occurs in a non-empty list when it is the final parameter's or occurs before it. */
  lemma HasNameLast(ps: seq<SchemaParameter>, name: string)
    requires ps != []
    ensures HasName(ps, name) <==> HasName(ps[..|ps| - 1], name) || ps[|ps| - 1].name == name
  {
    assert ps == ps[..|ps| - 1] + [ps[|ps| - 1]];
    HasNameAppend(ps[..|ps| - 1], ps[|ps| - 1], name);
  }

  /** Each key of `properties` holds the property built from the last parameter of that name. */
  lemma {:induction false} PropertiesOfValues(ps: seq<SchemaParameter>, name: string)
    ensures Get(PropertiesOf(ps), name) ==
      if HasName(ps, name) then Some(BuildProperty(LastWithName(ps, name).value)) else None
  {
    if ps != [] {
      var init, last := ps[..|ps| - 1], ps[|ps| - 1];
      PropertiesOfValues(init, name);
      HasNameLast(ps, name);
      PropertiesOfLast(ps, name);
      LastWithNameLast(ps, name);
    }
  }

  /** `properties` has one key per distinct parameter name, and no other. */
  lemma PropertiesOfKeys(ps: seq<SchemaParameter>, name: string)
    ensures name in PropertiesOf(ps).keys <==> HasName(ps, name)
  {
    PropertiesOfValues(ps, name);
  }

  /** A published registry document. */
  datatype IgluSchema = IgluSchema(path: string, schema: Json)

  function VersionString(version: int): string
  {
    "1-0-" + Text.IntToString(version)
  }

  /** `{vendor}/{name}/jsonschema/1-0-{version}`. */
  function PathOf(vendor: string, name: string, version: int): string
  {
    vendor + "/" + name + "/jsonschema/" + VersionString(version)
  }

  /** The name in the URL: the override when it is non-empty, else the schema's name. */
  function UrlName(s: SchemaView, overrideName: Option<string>): string
  {
    if Nonblank(overrideName) then overrideName.value else s.name
  }

  function SelfBlock(vendor: string, name: string, version: int): Json
  {
    JObj(["vendor", "name", "format", "version"],
         map["vendor" := JStr(vendor), "name" := JStr(name), "format" := JStr("jsonschema"),
             "version" := JStr(VersionString(version))])
  }

  /** The keys of a registry document, told apart once. */
  lemma DocumentKeysDistinct()
    ensures "$schema" != "description" && "$schema" != "self" && "$schema" != "type"
    ensures "$schema" != "properties" && "$schema" != "additionalProperties"
    ensures "description" != "self" && "description" != "type" && "description" != "properties"
    ensures "description" != "additionalProperties"
    ensures "self" != "type" && "self" != "properties" && "self" != "additionalProperties"
    ensures "type" != "properties" && "type" != "additionalProperties"
    ensures "properties" != "additionalProperties"
  {
    assert "self"[0] != "type"[0];
    assert "description"[0] != "additionalProperties"[0];
  }

  /** The document `from_schema` writes, around its description, `self` block and properties. */
  function Document(description: string, self: Json, properties: Json): (r: Json)
    ensures r.JObj? && WellFormedObject(r.keys, r.fields)
    ensures r.keys == ["$schema", "description", "self", "type", "properties", "additionalProperties"]
  {
    DocumentKeysDistinct();
    JObj(["$schema", "description", "self", "type", "properties", "additionalProperties"],
         map["$schema" := JStr(MetaSchema),
             "description" := JStr(description),
             "self" := self,
             "type" := JStr("object"),
             "properties" := properties,
             "additionalProperties" := JBool(false)])
  }

  /** A registry document is a closed object type under the self-describing meta-schema, and holds
      the description, `self` block and properties it was given. */
  lemma DocumentFields(description: string, self: Json, properties: Json)
    ensures var r := Document(description, self, properties);
      && Get(r, "$schema") == Some(JStr(MetaSchema))
      && Get(r, "description") == Some(JStr(description))
      && Get(r, "self") == Some(self)
      && Get(r, "type") == Some(JStr("object"))
      && Get(r, "properties") == Some(properties)
      && Get(r, "additionalProperties") == Some(JBool(false))
  {
  }

  /** `IgluSchema.from_schema`: the document describes the schema (`""` when it has no description),
      lists the parameters' properties and names the vendor, URL name and version in its `self` block,
      and the path says the same. */
  function FromSchema(s: SchemaView, ps: seq<SchemaParameter>, version: int, overrideName: Option<string>)
    : (r: IgluSchema)
    ensures r.schema.JObj? && WellFormedObject(r.schema.keys, r.schema.fields)
    ensures Get(r.schema, "description") == Some(JStr(Description(s.description)))
    ensures Get(r.schema, "properties") == Some(PropertiesOf(ps))
    ensures Get(r.schema, "self") == Some(SelfBlock(s.vendor, UrlName(s, overrideName), version))
    ensures r.path == PathOf(s.vendor, UrlName(s, overrideName), version)
  {
    var name := if overrideName.Some? && overrideName.value != "" then overrideName.value else s.name;
    var description := if s.description.Some? && s.description.value != "" then s.description.value else "";
    DocumentFields(description, SelfBlock(s.vendor, name, version), PropertiesOf(ps));
    IgluSchema(PathOf(s.vendor, name, version), Document(description, SelfBlock(s.vendor, name, version), PropertiesOf(ps)))
  }

  /** A version string never contains '/'. */
  lemma VersionHasNoSlash(version: int)
    ensures '/' !in VersionString(version)
  {
    var v := VersionString(version);
    Text.NatToStringShape(if version < 0 then -version else version);
    forall i | 0 <= i < |v| ensures v[i] != '/' {
      if i >= 4 {
        assert v[i] == Text.IntToString(version)[i - 4];
      }
    }
  }

  /** Splitting a path at '/' gives back its four segments, as long as vendor and name contain no '/'. */
  lemma PathSegments(vendor: string, name: string, version: int)
    requires '/' !in vendor && '/' !in name
    ensures Text.Split(PathOf(vendor, name, version), '/') == [vendor, name, "jsonschema", VersionString(version)]
  {
    var v := VersionString(version);
    VersionHasNoSlash(version);
    assert '/' !in "jsonschema";
    assert PathOf(vendor, name, version) == vendor + ['/'] + (name + ['/'] + ("jsonschema" + ['/'] + v));
    Text.SplitAtFirst(vendor, '/', name + ['/'] + ("jsonschema" + ['/'] + v));
    Text.SplitAtFirst(name, '/', "jsonschema" + ['/'] + v);
    Text.SplitAtFirst("jsonschema", '/', v);
    Text.SplitWithoutSeparator(v, '/');
  }

  /** The path and the `self` block say the same thing: splitting the path at '/' gives back the
      `self` block's vendor, name, format and version, as long as vendor and name contain no '/'. */
  lemma PathAgreesWithSelf(vendor: string, name: string, version: int)
    requires '/' !in vendor && '/' !in name
    ensures var self := SelfBlock(vendor, name, version);
      Text.Split(PathOf(vendor, name, version), '/') ==
        [self.fields["vendor"].s, self.fields["name"].s, self.fields["format"].s, self.fields["version"].s]
  {
    PathSegments(vendor, name, version);
  }

  /** A path is a fixed prefix followed by the version number. */
  lemma PathEndsInVersion(vendor: string, name: string, version: int)
    ensures PathOf(vendor, name, version) == vendor + "/" + name + "/jsonschema/1-0-" + Text.IntToString(version)
  {
  }

  /** Documents for different versions of one schema are published under different paths. */
  lemma DistinctVersionsDistinctPaths(vendor: string, name: string, v1: int, v2: int)
    requires v1 != v2
    ensures PathOf(vendor, name, v1) != PathOf(vendor, name, v2)
  {
    var prefix := vendor + "/" + name + "/jsonschema/1-0-";
    var s1, s2 := Text.IntToString(v1), Text.IntToString(v2);
    PathEndsInVersion(vendor, name, v1);
    PathEndsInVersion(vendor, name, v2);
    if prefix + s1 == prefix + s2 {
      assert (prefix + s1)[|prefix|..] == s1;
      assert (prefix + s2)[|prefix|..] == s2;
      Text.IntToStringInjective(v1, v2);
    }
  }
}
