/**
 * The parsed JSON documents the client reads, kept abstract: only whether a
 * value is null, a string, or something else matters to the client.
 */
module Json {
  import opened Wrappers

  /** One JSON value as the client inspects it. */
  datatype JsonValue = Null | Str(s: string) | Other

  /** A parsed response body: a JSON object, or some other JSON document. */
  datatype Body = Object(fields: map<string, JsonValue>) | NonObject

  /**
   * The exceptions the client can raise: a std::runtime_error with its
   * message, the JSON library's type error (a non-string value read as a
   * string, or a value that is not an object subscripted by a key), carrying
   * the value found, and its parse error for a body that is not JSON.
   */
  datatype Error = RuntimeError(what: string) | TypeError(found: JsonValue) | ParseError

  /** `json.contains(key)`: false on anything that is not an object. */
  predicate Contains(b: Body, key: string)
    ensures b.NonObject? ==> !Contains(b, key)
    ensures b.Object? ==> (Contains(b, key) <==> key in b.fields)
  {
    b.Object? && key in b.fields
  }

  /** `json[key]` on an object known to contain `key`: the value stored under it. */
  function Get(b: Body, key: string): (r: JsonValue)
    requires Contains(b, key)
    ensures (key, r) in b.fields.Items
  {
    b.fields[key]
  }

  /** `get<std::string>()`: the string itself, or a type error naming what was found. */
  function AsString(v: JsonValue): (r: Result<string, Error>)
    ensures r.Ok? <==> v.Str?
    ensures r.Ok? ==> r.value == v.s
    ensures r.Err? ==> r.error == TypeError(v)
  {
    match v
    case Str(s) => Ok(s)
    case _ => Err(TypeError(v))
  }
}
