/**
 * Decoded JSON bodies and the Python operations the decoders apply to them:
 * `body.get(key, None)`, `body[key]`, `int(value)` and `_ensure_list`.
 * Numbers are integers here; no decoder of the model looks at a fraction.
 */
module JsonValues {
  import opened Wrappers
  import Text

  datatype Json =
    | JNull
    | JBool(b: bool)
    | JInt(i: int)
    | JStr(s: string)
    | JArray(items: seq<Json>)
    | JObject(fields: map<string, Json>)

  /** The value is a `collections.abc.Sequence`: a list or a string. */
  predicate IsSequence(v: Json) {
    v.JArray? || v.JStr?
  }

  /**
   * `obj.get(key, None)`: a missing key and a JSON null both give `None`;
   * anything but an object has no `get` and raises `AttributeError`.
   */
  function Get(obj: Json, key: string): (r: Result<Option<Json>>)
    ensures r.Err? <==> !obj.JObject?
    ensures r.Err? ==> r.error == AttributeError
    ensures r.Ok? ==> (r.value.None? <==> key !in obj.fields || obj.fields[key] == JNull)
    ensures r.Ok? && r.value.Some? ==> key in obj.fields && r.value.value == obj.fields[key]
  {
    match obj
    case JObject(fields) =>
      if key in fields && fields[key] != JNull then Ok(Some(fields[key])) else Ok(None)
    case _ => Err(AttributeError)
  }

  /**
   * `obj[key]` with a string key: a missing key raises `KeyError`; lists,
   * strings, numbers and `None` refuse a string subscript with `TypeError`.
   */
  function Index(obj: Json, key: string): (r: Result<Json>)
    ensures r.Ok? <==> obj.JObject? && key in obj.fields
    ensures r.Ok? ==> r.value == obj.fields[key]
    ensures obj.JObject? && key !in obj.fields ==> r == Err(KeyError(key))
    ensures !obj.JObject? ==> r == Err(TypeError)
  {
    match obj
    case JObject(fields) => if key in fields then Ok(fields[key]) else Err(KeyError(key))
    case _ => Err(TypeError)
  }

  /**
   * `_ensure_list(item)`: a sequence (a list, or a string, which Python
   * also counts as a sequence) is returned as it is; anything else, such as
   * a single record, is wrapped in a one-element list.
   */
  function EnsureList(item: Json): (r: Json)
    ensures IsSequence(r)
    ensures IsSequence(item) ==> r == item
    ensures !IsSequence(item) ==> r.JArray? && r.items == [item]
  {
    if IsSequence(item) then item else JArray([item])
  }

  /** A bare record and a one-element list holding it normalise alike. */
  lemma SingleRecordIsOneElementList(record: map<string, Json>)
    ensures EnsureList(JObject(record)) == EnsureList(JArray([JObject(record)]))
    ensures EnsureList(JObject(record)) == JArray([JObject(record)])
  {
  }

  /** Normalising twice is normalising once. */
  lemma EnsureListIdempotent(item: Json)
    ensures EnsureList(EnsureList(item)) == EnsureList(item)
  {
  }

  /**
   * `int(value)` on a decoded JSON value: integers as they are, booleans as
   * 0 and 1, strings through `int(str)`; `None`, lists and objects raise
   * `TypeError`.
   */
  function IntOf(v: Json): (r: Result<int>)
    ensures v.JInt? ==> r == Ok(v.i)
    ensures v.JStr? ==> r == Text.ParseInt(v.s)
    ensures (v.JNull? || v.JArray? || v.JObject?) ==> r == Err(TypeError)
  {
    match v
    case JInt(i) => Ok(i)
    case JBool(b) => Ok(if b then 1 else 0)
    case JStr(s) => Text.ParseInt(s)
    case _ => Err(TypeError)
  }
}
