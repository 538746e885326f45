/** Nullable values and failing results, the two shapes the service's Java code gets from `null` and exceptions. */
module Wrappers {

  /** A Java reference that may be `null`: None stands for `null`. */
  datatype Option<+T> = None | Some(value: T) {

    /** The held value, or `default` when this is None (Java's `x != null ? x : default`). */
    function GetOr(default: T): T {
      match this
      case Some(v) => v
      case None => default
    }
  }

  /** The outcome of a call that returns a value or throws: Err carries the kind of exception. */
  datatype Result<+T, +E> = Ok(value: T) | Err(error: E)
}
