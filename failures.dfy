/**
 * Every way a request to the gateway can fail. Each handler catches all of
 * them alike and answers with one 502 error (see WarThunderApp.Respond).
 */
module Failures {
  import opened JsonValue

  /** Why the upstream request produced no JSON document. */
  datatype FetchError =
    | ConnectError          // the telemetry server refused or dropped the connection
    | Timeout               // no answer within the client's 5-second timeout
    | BadStatus(code: int)  // `raise_for_status` on a non-2xx answer
    | MalformedJson         // `response.json()` on a body that is not JSON

  datatype Failure =
    | Unreachable(cause: FetchError)
    | NoGetAttribute(payload: Json)   // `payload.get(...)` on a value that is not a JSON object
    | NotAMapping(payload: Json)      // `Model(**payload)` on a value that is not a JSON object
    | NotIterable(payload: Json)      // `for item in payload` on a value Python cannot iterate
    | InvalidEnum(enum: string, raw: Json)             // `SomeEnum(raw)` where no member has value raw
    | ValidationError(model: string, fields: set<string>) // the record's constructor rejected these fields
    | HeadingOutOfRange(heading: real)                   // `get_direction` found no sector

  /** A short account of a failure, appended to the 502 error's detail. */
  function Describe(f: Failure): string
  {
    match f
    case Unreachable(ConnectError) => "connection failed"
    case Unreachable(Timeout) => "timed out"
    case Unreachable(BadStatus(_)) => "error status"
    case Unreachable(MalformedJson) => "malformed JSON"
    case NoGetAttribute(_) => "payload has no attribute 'get'"
    case NotAMapping(_) => "payload is not a mapping"
    case NotIterable(_) => "payload is not iterable"
    case InvalidEnum(name, _) => "not a valid " + name
    case ValidationError(model, _) => "validation error for " + model
    case HeadingOutOfRange(_) => "Heading must be between 0 and 360 degrees"
  }
}
