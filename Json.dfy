/** The parsed JSON values a request body can hold, with JavaScript's view of them. */
module Json {
  import opened Wrappers

  datatype Json =
    | Null
    | Bool(b: bool)
    | Num(n: real)
    | Str(s: string)
    | Arr(items: seq<Json>)
    | Obj(members: map<string, Json>)

  /** JavaScript truthiness of a parsed JSON value (`!v` is false). */
  predicate Truthy(v: Json) {
    match v
    case Null => false
    case Bool(b) => b
    case Num(n) => n != 0.0
    case Str(s) => s != ""
    case Arr(_) => true
    case Obj(_) => true
  }

  /** What JavaScript's `typeof` calls an object: null, arrays and objects. */
  predicate IsObjectType(v: Json) {
    v.Null? || v.Arr? || v.Obj?
  }

  /** Property access `v[key]`; `None` is `undefined`. Only plain objects carry named members. */
  function Member(v: Json, key: string): Option<Json> {
    if v.Obj? && key in v.members then Some(v.members[key]) else None
  }

  /** The `{ error: { message } }` object both the gateway and the upstream API use for errors. */
  function ErrorBody(message: string): Json {
    Obj(map["error" := Obj(map["message" := Str(message)])])
  }

  /** The message of an `{ error: { message } }` object. */
  function ErrorMessage(v: Json): Option<string> {
    match Member(v, "error")
    case Some(e) => (match Member(e, "message") case Some(Str(m)) => Some(m) case _ => None)
    case None => None
  }
}

/** The Fetch API's notion of a successful HTTP status. */
module Http {
  /** `response.ok` */
  predicate IsOk(status: int) {
    200 <= status <= 299
  }
}
