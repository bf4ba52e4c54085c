/** The optional values and error results used throughout the model. */
module Wrappers {

  /** An optional value: the Go code's "did it parse" answers. */
  datatype Option<+T> = None | Some(value: T)

  /** A value or an error message, the shape of Go's `(T, error)` returns. */
  datatype Result<+R, +E> = Success(value: R) | Failure(error: E) {

    /** The value, or `default` on failure (Go's `v, _ := f()` on a zero value). */
    function GetOr(default: R): R {
      match this
      case Success(v) => v
      case Failure(_) => default
    }
  }
}
