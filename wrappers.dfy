/** A Python `None`-or-value, and the outcome of a step that either produces
    a value or raises a configuration error. */
module Wrappers {

  /** `None` stands for Python's `None`. */
  datatype Option<+T> = None | Some(value: T) {

    /** The value, or `default` when there is none (`x if x is not None else default`). */
    function GetOr(default: T): T {
      match this
      case Some(v) => v
      case None => default
    }
  }

  /** A value, or the error that a failed `assert` (or a raised exception) carries. */
  datatype Result<+T, +E> = Ok(value: T) | Err(error: E)

  /** The outcome of a check that produces no value. */
  datatype Outcome<+E> = Pass | Fail(error: E)
}
