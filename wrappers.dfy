module Wrappers {
  datatype Option<+T> = None | Some(value: T) {
    function GetOr(default: T): T {
      match this
      case Some(v) => v
      case None => default
    }
  }

  /** An HTTP-style outcome: a value, or a status code with its error message. */
  datatype Reply<+T> = Ok(value: T) | Fail(code: int, error: string)
}
