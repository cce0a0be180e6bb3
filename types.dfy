/** Small value types shared by every module of the model. */
module Types {

  /** JavaScript's `undefined`/`null` versus a present value. */
  datatype Option<+T> = None | Some(value: T)

  /** The `(err, result)` pair handed to a JSON-RPC callback: exactly one of the two is set. */
  datatype Result<+T, +E> = Success(value: T) | Failure(error: E)

  /** An authentication token (a hex string issued at login). The empty string is JavaScript-falsy. */
  type Token = string

  /** A JSON value sent by a client and passed through the server without interpretation. */
  datatype Json =
    | JNull
    | JBool(b: bool)
    | JNumber(n: int)
    | JString(s: string)
    | JArray(items: seq<Json>)
    | JObject(fields: map<string, Json>)
}
