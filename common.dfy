/** Small shared vocabulary: optional values, results, HTTP-style replies, days and ids. */
module Common {

  /** A value a document may leave unset (JavaScript `undefined`). */
  datatype Option<+T> = None | Some(value: T) {
    function GetOr(default: T): T {
      match this
      case Some(v) => v
      case None => default
    }
  }

  /** The outcome of an operation that either returns a value or throws. */
  datatype Result<+T, +E> = Success(value: T) | Failure(error: E)

  /** What a route handler sends back: a JSON body, or a status code with a message. */
  datatype Reply<+T> = Ok(body: T) | Rejected(status: nat, message: string)

  /** Timestamps are whole days since an arbitrary epoch; adding days is addition. */
  type Day = int

  /** Users are identified by an opaque id. */
  type UserId = nat

  /** JavaScript `s || fallback` for an optional string: both `undefined` and `""` are falsy. */
  function OrElse(s: Option<string>, fallback: string): (r: string)
    ensures s.Some? && s.value != "" ==> r == s.value
    ensures s.None? || s.value == "" ==> r == fallback
  {
    if s.Some? && s.value != "" then s.value else fallback
  }
}
