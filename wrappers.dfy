/** Option and Result, the two wrappers every other module uses for
    "maybe absent" values (JavaScript null/undefined) and for thrown errors. */
module Wrappers {

  datatype Option<+T> = None | Some(value: T) {

    /** The value, or `default` when absent (JavaScript `x ?? default`). */
    function GetOr(default: T): T {
      match this
      case Some(v) => v
      case None => default
    }

    /** This option when present, otherwise `other` (JavaScript `a || b` on objects). */
    function OrElse(other: Option<T>): Option<T> {
      match this
      case Some(_) => this
      case None => other
    }
  }

  datatype Result<+T, +E> = Success(value: T) | Failure(error: E)
}
