/** Values shared by the whole model: decoded JSON, Python truthiness, and the
    exceptions the service can raise, carried in an `Outcome`. */
module Values {

  datatype Option<+T> = None | Some(value: T)

  /** A JSON value as `response.json()` hands it to Python. Numbers are
      integers only: the service never inspects a fractional number. */
  datatype Json =
    | JNull
    | JBool(b: bool)
    | JNum(n: int)
    | JStr(s: string)
    | JArr(items: seq<Json>)
    | JObj(fields: map<string, Json>)

  /** Python truthiness of a decoded value: None, False, 0, "", [] and {} are falsy. */
  predicate Truthy(j: Json): (b: bool)
    ensures !b <==> j == JNull || j == JBool(false) || j == JNum(0) || j == JStr("") || j == JArr([]) || j == JObj(map[])
  {
    match j
    case JNull => false
    case JBool(b) => b
    case JNum(n) => n != 0
    case JStr(s) => s != ""
    case JArr(items) => items != []
    case JObj(fields) => fields != map[]
  }

  /** The exceptions that can escape the modelled code. */
  datatype Error =
    | ConnectionError(url: string)   // no response from the URL
    | HttpError(status: int)         // raise_for_status on a 4xx or 5xx status
    | JsonDecodeError                // response.json() on a body that is not JSON
    | InvalidUrl                     // get() on a cursor that is not a string
    | LookupError                    // KeyError or TypeError subscripting decoded JSON
    | SchedulingAfterShutdown        // RuntimeError from submit() on a shut-down executor
    | StatisticsError                // statistics.median / variance on too few points

  /** The members of the `requests.exceptions.RequestException` family. */
  predicate IsRequestException(e: Error)
  {
    e.ConnectionError? || e.HttpError? || e.JsonDecodeError? || e.InvalidUrl?
  }

  /** A normal return with a value, or an exception propagating to the caller. */
  datatype Outcome<+T> = Ok(value: T) | Raised(error: Error)
}
