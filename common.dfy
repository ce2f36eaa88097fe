/** Values shared by every part of the model: optional values, the JSON
    values a request body can carry, and the HTTP replies. */
module Common {

  datatype Option<+T> = None | Some(value: T)

  /** A JSON value as it arrives in a request body; `Absent` is a field the
      body does not have (`undefined` once destructured). */
  datatype JsonValue =
    | Absent
    | JsonNull
    | JsonBool(b: bool)
    | JsonNumber(n: real)
    | JsonString(s: string)
    | JsonComposite  // an array or an object: always truthy

  /** JavaScript truthiness of a JSON value (`!v` is false). JSON cannot
      carry NaN, so the falsy numbers are exactly 0. */
  predicate Truthy(v: JsonValue) {
    match v
    case Absent => false
    case JsonNull => false
    case JsonBool(b) => b
    case JsonNumber(n) => n != 0.0
    case JsonString(s) => s != ""
    case JsonComposite => true
  }

  /** Truthiness of an optional string field: missing, null and "" are falsy. */
  predicate Given(s: Option<string>) {
    s.Some? && s.value != ""
  }

  /** The error replies the handlers send, with the status code each maps to. */
  datatype ApiError =
    | BadRequest(message: string)
    | NotFound(message: string)
    | Conflict(message: string)

  /** A handler's reply: 200 with a body, 201 with the created record, or an error. */
  datatype Reply<+T> = Ok(body: T) | Created(body: T) | Error(error: ApiError)

  function StatusCode<T>(r: Reply<T>): (code: nat)
    ensures code in {200, 201, 400, 404, 409}
    ensures code < 400 <==> !r.Error?
  {
    match r
    case Ok(_) => 200
    case Created(_) => 201
    case Error(BadRequest(_)) => 400
    case Error(NotFound(_)) => 404
    case Error(Conflict(_)) => 409
  }
}
