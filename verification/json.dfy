/** JSON values as the service receives and stores them. Objects are modelled
    by their content: key order inside nested objects is never observable to
    the modelled code (the digest sorts keys at every level). Floating-point
    numbers are not modelled. */
module Json {
  import opened Common

  datatype Value =
    | Null
    | Bool(b: bool)
    | Num(n: int)
    | Str(s: string)
    | List(items: seq<Value>)
    | Object(fields: map<string, Value>)

  /** A JSON response body and the HTTP status it is returned with. */
  datatype Reply = Reply(body: Value, status: int)

  /** Python truthiness of a JSON value. */
  predicate Truthy(v: Value) {
    match v
    case Null => false
    case Bool(b) => b
    case Num(n) => n != 0
    case Str(s) => s != ""
    case List(items) => items != []
    case Object(fields) => fields != map[]
  }

  /** Python truthiness of an optional string. */
  predicate TruthyStr(o: Option<string>) {
    o.Some? && o.value != ""
  }

  /** An optional string as the JSON value Python would store (`None` or a `str`). */
  function OptStr(o: Option<string>): (v: Value)
    ensures o.None? <==> v == Null
  {
    match o
    case None => Null
    case Some(s) => Str(s)
  }

  /** `d.get(k, default)` on a dictionary. */
  function GetOr(d: map<string, Value>, k: string, default: Value): (v: Value)
    ensures k in d ==> v == d[k]
    ensures k !in d ==> v == default
  {
    if k in d then d[k] else default
  }

  /** `v` is a dictionary that maps `k` to `x`. */
  predicate HasField(v: Value, k: string, x: Value) {
    v.Object? && k in v.fields && v.fields[k] == x
  }

  /** `v.get(k)` where `v` must be a dictionary: anything else has no `get`
      attribute; a missing key gives `None`. */
  function Get(v: Value, k: string): (r: Result<Value>)
    ensures r.Raise? <==> !v.Object?
    ensures r.Raise? ==> r.exc == AttributeError
    ensures v.Object? && k in v.fields ==> r == Ok(v.fields[k])
    ensures v.Object? && k !in v.fields ==> r == Ok(Null)
  {
    if v.Object? then Ok(GetOr(v.fields, k, Null)) else Raise(AttributeError)
  }

  /** `v[k]` where `v` must be a dictionary holding `k`. */
  function Index(v: Value, k: string): (r: Result<Value>)
    ensures r.Ok? <==> v.Object? && k in v.fields
    ensures r.Ok? ==> r.value == v.fields[k]
  {
    if !v.Object? then Raise(TypeError)
    else if k !in v.fields then Raise(KeyError)
    else Ok(v.fields[k])
  }
}
