/** Option, Result and panic-aware outcomes used throughout the model. */
module Wrappers {

  datatype Option<+T> = None | Some(value: T) {
    function GetOr(default: T): T {
      match this
      case Some(v) => v
      case None => default
    }
  }

  datatype Result<+R, +E> = Success(value: R) | Failure(error: E)

  /** The outcome of Rust code that may abort with a panic (an `unwrap` on `None`,
      an out-of-range slice). */
  datatype Fallible<+T> = Done(value: T) | Panic(reason: string)
}
