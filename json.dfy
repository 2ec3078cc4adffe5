/** JSON documents as the core builds them with Python dicts and lists. An object holds each key
    once, in insertion order, and a value per key; assigning to a key already present replaces its
    value and keeps its position, as a Python dict does. */
module JsonValues {
  import opened Common

  datatype Json =
    | JNull
    | JBool(b: bool)
    | JInt(i: int)
    | JStr(s: string)
    | JArr(items: seq<Json>)
    | JObj(keys: seq<string>, fields: map<string, Json>)

  /** Each key once, and exactly the keys that have a value. */
  ghost predicate WellFormedObject(keys: seq<string>, fields: map<string, Json>)
  {
    (forall i, j :: 0 <= i < j < |keys| ==> keys[i] != keys[j]) &&
    (forall k :: k in fields <==> k in keys)
  }

  /** `d.get(key)` on an object; None for a missing key or a value that is not an object. */
  function Get(j: Json, key: string): (r: Option<Json>)
    ensures r.Some? <==> j.JObj? && key in j.fields
  {
    if j.JObj? && key in j.fields then Some(j.fields[key]) else None
  }

  /** `d[key] = value` on an object: a present key keeps its position and takes the new value; a new
      key goes at the end. */
  function Put(obj: Json, key: string, value: Json): (r: Json)
    requires obj.JObj? && WellFormedObject(obj.keys, obj.fields)
    ensures r.JObj? && WellFormedObject(r.keys, r.fields)
    ensures key in obj.fields ==> r.keys == obj.keys
    ensures key !in obj.fields ==> r.keys == obj.keys + [key]
    ensures Get(r, key) == Some(value)
    ensures forall k :: k != key ==> Get(r, k) == Get(obj, k)
  {
    JObj(if key in obj.fields then obj.keys else obj.keys + [key], obj.fields[key := value])
  }

  function EmptyObject(): (r: Json)
    ensures r.JObj? && WellFormedObject(r.keys, r.fields) && r.keys == []
  {
    JObj([], map[])
  }
}
