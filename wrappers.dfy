/** Small value wrappers shared by the whole model. */
module Wrappers {
  /** A value that may be absent: `null`/`undefined` in the storefront. */
  datatype Option<+T> = None | Some(value: T) {
    function GetOr(default: T): T {
      match this
      case Some(v) => v
      case None => default
    }
  }

  /** A filter drop-down: "All", or one exact value. */
  datatype Choice<T> = All | Only(value: T)

  predicate Admits<T(==)>(c: Choice<T>, x: T) {
    c.All? || c.value == x
  }

  /** The outcome of a request: the decoded body, or the message of the error raised. */
  datatype Outcome<T> = Success(value: T) | Failure(message: string)
}
