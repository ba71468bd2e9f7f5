/** JavaScript values as the library sees them: optional and nullable
    properties, truthiness, JSON documents and the errors it throws. */
module Js {

  datatype Option<+T> = None | Some(value: T) {
    function GetOr(default: T): T {
      if Some? then value else default
    }
  }

  datatype Result<+T, +E> = Ok(value: T) | Err(error: E)

  /** A property that may be missing (`undefined`), explicitly `null`, or set. */
  datatype Nullable<+T> = Undefined | Null | Defined(value: T)

  /** `!!n` for an optional number: `undefined` and `0` are falsy (NaN is not modelled). */
  predicate TruthyNumber(n: Option<real>) {
    n.Some? && n.value != 0.0
  }

  /** `!!s` for an optional string: `undefined` and `""` are falsy. */
  predicate TruthyString(s: Option<string>) {
    s.Some? && s.value != ""
  }

  /** A JSON document, as produced by `JSON.parse`. */
  datatype Json =
    | JNull
    | JBool(b: bool)
    | JNumber(n: real)
    | JString(s: string)
    | JArray(items: seq<Json>)
    | JObject(members: map<string, Json>)

  /** `!!j` for a parsed JSON value. */
  predicate TruthyJson(j: Json) {
    match j
    case JNull => false
    case JBool(b) => b
    case JNumber(n) => n != 0.0
    case JString(s) => s != ""
    case JArray(_) => true
    case JObject(_) => true
  }

  /** What the code throws or what a collaborator rejects with. */
  datatype Error =
    | CloudTasksError(message: string)
    | RemoteError(reason: string)
    | TypeError(reason: string)
    | SyntaxError
    | InvalidUrl
}
