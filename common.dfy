/** Values shared by the controller and the router models: optional values,
    the outcome of a handler, and the JSON values a request body carries. */
module Common {

  datatype Option<+T> = None | Some(value: T)

  /** Why a handler did not answer with success.
      AppError is the operational error a handler passes to `next`: a message
      and an HTTP status code. SchemaRejected is a value the User schema's
      casting refuses; its status is chosen by the global error handler,
      which is not part of this model. */
  datatype Error =
    | AppError(message: string, statusCode: nat)
    | SchemaRejected(path: string)

  datatype Result<+T> = Ok(value: T) | Err(error: Error)

  /** A value of a parsed JSON request body. */
  datatype Json =
    | JNull
    | JBool(b: bool)
    | JNum(n: real)
    | JStr(s: string)
    | JArray(items: seq<Json>)
    | JObject(fields: map<string, Json>)

  /** JavaScript truthiness of a JSON value: null, false, 0 and "" are falsy,
      every other value (arrays and objects included, even empty) is truthy. */
  predicate Truthy(v: Json)
  {
    match v
    case JNull => false
    case JBool(b) => b
    case JNum(n) => n != 0.0
    case JStr(s) => s != ""
    case JArray(_) => true
    case JObject(_) => true
  }

  /** `obj[key]` used as a condition: a missing key reads as `undefined`,
      which is falsy. */
  predicate PropertyTruthy(obj: map<string, Json>, key: string)
  {
    key in obj && Truthy(obj[key])
  }
}
