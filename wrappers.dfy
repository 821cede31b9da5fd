/** Option and Result values shared by the two client packages. */
module Wrappers {

  datatype Option<T> = None | Some(value: T) {
    function GetOr(default: T): T {
      match this
      case Some(v) => v
      case None => default
    }
  }

  /** The Go pair (value, error): either a value or the error's message. */
  datatype Result<T> = Success(value: T) | Failure(error: string)
}
