/** Values shared by every part of the auth core: optional values, results,
    the JSON-like values that travel inside Python dicts, and the exceptions
    the core raises. */
module Common {

  datatype Option<+T> = None | Some(value: T)

  datatype Result<+T, +E> = Ok(value: T) | Err(error: E)

  /** A JSON-like value, as found in a decoded token or a caller's dict
      (lists are not needed by the core and are not modelled). */
  datatype Json =
    | JNull
    | JBool(b: bool)
    | JInt(i: int)
    | JStr(s: string)
    | JObj(fields: map<string, Json>)

  type Claims = map<string, Json>

  /** Python truthiness of a JSON-like value. */
  predicate Truthy(v: Json)
  {
    match v
    case JNull => false
    case JBool(b) => b
    case JInt(i) => i != 0
    case JStr(s) => s != ""
    case JObj(m) => |m| > 0
  }

  /** Python truthiness of an optional dict (`None` and `{}` are falsy). */
  predicate TruthyDict(d: Option<Claims>)
  {
    d.Some? && |d.value| > 0
  }

  /** The exceptions that leave the core.  `HttpException` is FastAPI's;
      the others are the Python built-ins a dict lookup, an attribute access
      or a call can raise, plus the store's primary-key violation. */
  datatype Exception =
    | HttpException(status: int, detail: string)
    | KeyError(key: string)
    | TypeError(message: string)
    | AttributeError(name: string)
    | IntegrityError

  function Forbidden(detail: string): Exception
  {
    HttpException(403, detail)
  }
}
