/** Failure-carrying datatypes shared by the pipeline modules. */
module Outcomes {

  /** A Python value that may be None, or a dictionary key that may be absent. */
  datatype Option<+T> = None | Some(value: T) {

    /** What `dict.get(key, default)` returns: the value when present, `default` otherwise. */
    function GetOr(default: T): T {
      match this
      case Some(v) => v
      case None => default
    }
  }

  /** A value or an error, for operations of the pipeline that raise. */
  datatype Result<+T, +E> = Ok(value: T) | Err(error: E)

  /** What a call into a foreign library did: returned a value, or raised an exception with the given message. */
  datatype Outcome<+T> = Done(value: T) | Raised(message: string)
}
