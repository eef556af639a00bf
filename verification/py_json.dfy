/** JSON documents as `json.loads` hands them to Python, and the parts of Python's subscript
    semantics (`d[k]`, `v[i]`, `v[i] = x`) the plugin applies to them, with the exception each raises. */
module PyJson {
  import opened Wrappers
  import ResolutionTables

  /** A parsed document. Objects are maps: key order is not part of the model. */
  datatype Json =
    | JNull
    | JBool(b: bool)
    | JNumber(n: int)
    | JString(s: string)
    | JArray(items: seq<Json>)
    | JObject(fields: map<string, Json>)

  /** The Python exceptions that reading and editing the documents can raise (IOError: the file is missing). */
  datatype PyError = KeyError | IndexError | TypeError | IOError

  /** `doc[key]` with a string key: only a dict can be indexed by a string. */
  function GetField(doc: Json, key: string): (r: Result<Json, PyError>)
    ensures r.Ok? <==> doc.JObject? && key in doc.fields
    ensures r.Ok? ==> r.value == doc.fields[key]
    ensures r.Err? ==> r.error == (if doc.JObject? then KeyError else TypeError)
  {
    match doc
    case JObject(m) => if key in m then Ok(m[key]) else Err(KeyError)
    case _ => Err(TypeError)
  }

  /** `v[i]` with a non-negative int index. A dict read from JSON has only string keys, so an
      int key is never found; a string yields its one-character substring. */
  function GetItem(v: Json, i: nat): (r: Result<Json, PyError>)
    ensures r.Ok? <==> (v.JArray? && i < |v.items|) || (v.JString? && i < |v.s|)
    ensures r.Ok? && v.JArray? ==> r.value == v.items[i]
    ensures r.Ok? && v.JString? ==> r.value == JString(v.s[i..i + 1])
    ensures r.Err? ==>
      r.error == (if v.JArray? || v.JString? then IndexError else if v.JObject? then KeyError else TypeError)
  {
    match v
    case JArray(a) => if i < |a| then Ok(a[i]) else Err(IndexError)
    case JString(s) =>
      if i < |s| then
        assert s[i..i + 1] == [s[i]];
        Ok(JString([s[i]]))
      else Err(IndexError)
    case JObject(_) => Err(KeyError)
    case _ => Err(TypeError)
  }

  /** `v[i] = x` followed by `json.dump` and a later `json.loads`: on a dict the int key is written
      as its numeral, and the model lets the new value replace an entry with that key. */
  function SetItem(v: Json, i: nat, x: Json): (r: Result<Json, PyError>)
    ensures r.Ok? <==> (v.JArray? && i < |v.items|) || v.JObject?
    ensures r.Ok? && v.JArray? ==>
      r.value.JArray? && |r.value.items| == |v.items| && GetItem(r.value, i) == Ok(x)
      && forall j :: 0 <= j < |v.items| && j != i ==> r.value.items[j] == v.items[j]
    ensures r.Ok? && v.JObject? ==>
      r.value.JObject? && GetField(r.value, ResolutionTables.DecimalString(i)) == Ok(x)
      && forall k :: k in v.fields && k != ResolutionTables.DecimalString(i) ==> GetField(r.value, k) == Ok(v.fields[k])
    ensures r.Err? ==> r.error == (if v.JArray? then IndexError else TypeError)
  {
    match v
    case JArray(a) => if i < |a| then Ok(JArray(a[i := x])) else Err(IndexError)
    case JObject(m) => Ok(JObject(m[ResolutionTables.DecimalString(i) := x]))
    case _ => Err(TypeError)
  }

  /** `d[key] = x` with a string key. */
  function SetField(doc: Json, key: string, x: Json): (r: Result<Json, PyError>)
    ensures r.Ok? <==> doc.JObject?
    ensures r.Ok? ==>
      r.value.JObject? && r.value.fields.Keys == doc.fields.Keys + {key} && GetField(r.value, key) == Ok(x)
      && forall k :: k in doc.fields && k != key ==> r.value.fields[k] == doc.fields[k]
    ensures r.Err? ==> r.error == TypeError
  {
    match doc
    case JObject(m) => Ok(JObject(m[key := x]))
    case _ => Err(TypeError)
  }
}
