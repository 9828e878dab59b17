/**
 * JSON values as Python's json module hands them to the WebSocket handlers,
 * and Python's subscript, index and iteration operations on them.
 */
module Wire {
  import opened Wrappers

  /** A decoded JSON document. Numbers with a fraction or exponent are not represented. */
  datatype Json =
    | JNull
    | JBool(b: bool)
    | JInt(i: int)
    | JStr(s: string)
    | JArray(items: seq<Json>)
    | JObject(fields: map<string, Json>)

  /** The Python exceptions the modelled code can raise. */
  datatype Error =
    | KeyError(key: Json)
    | IndexError
    | TypeError
    | ValueError
    | AssertionError(message: string)
    | NotModelled

  /** `v[key]` with a string key: only a dict can be subscripted by a string. */
  function Subscript(v: Json, key: string): (r: Result<Json, Error>)
    ensures r.Ok? <==> v.JObject? && key in v.fields
    ensures r.Ok? ==> r.value == v.fields[key]
    ensures r.Err? ==> r.error == if v.JObject? then KeyError(JStr(key)) else TypeError
  {
    match v
    case JObject(fields) => if key in fields then Ok(fields[key]) else Err(KeyError(JStr(key)))
    case _ => Err(TypeError)
  }

  /** `v[i]` with a non-negative int index: a list or a string (one character); a dict looks `i` up as a key. */
  function Index(v: Json, i: nat): (r: Result<Json, Error>)
    ensures v.JArray? ==> (r.Ok? <==> i < |v.items|) && (r.Ok? ==> r.value == v.items[i])
    ensures v.JStr? ==> (r.Ok? <==> i < |v.s|) && (r.Ok? ==> r.value == JStr([v.s[i]]))
    ensures (v.JArray? || v.JStr?) && r.Err? ==> r.error == IndexError
    ensures v.JObject? ==> r == Err(KeyError(JInt(i)))
    ensures !(v.JArray? || v.JStr? || v.JObject?) ==> r == Err(TypeError)
  {
    match v
    case JArray(items) => if i < |items| then Ok(items[i]) else Err(IndexError)
    case JStr(s) => if i < |s| then Ok(JStr([s[i]])) else Err(IndexError)
    case JObject(_) => Err(KeyError(JInt(i)))
    case _ => Err(TypeError)
  }

  /** The items `for x in v` visits: a list's elements, or a string's characters. */
  function Iterate(v: Json): (r: Result<seq<Json>, Error>)
    ensures v.JArray? ==> r == Ok(v.items)
    ensures v.JStr? ==> r.Ok? && |r.value| == |v.s| && forall k :: 0 <= k < |v.s| ==> r.value[k] == JStr([v.s[k]])
    ensures v.JObject? ==> r == Err(NotModelled)
    ensures !(v.JArray? || v.JStr? || v.JObject?) ==> r == Err(TypeError)
  {
    match v
    case JArray(items) => Ok(items)
    case JStr(s) => Ok(seq(|s|, k requires 0 <= k < |s| => JStr([s[k]])))
    case JObject(_) => Err(NotModelled)
    case _ => Err(TypeError)
  }
}
