/** Failure-compatible wrappers shared by the whole model. */
module Wrappers {

  /** A value that may be absent (a missing JSON key, `None` in the source). */
  datatype Option<+T> = None | Some(value: T) {

    /** The wrapped value, or `default` when absent (Python's `dict.get(key, default)`). */
    function GetOr(default: T): T
    {
      match this
      case Some(v) => v
      case None => default
    }
  }

  /** The outcome of a call into an external service: the value it returned, or the
      message (`str(e)`) of the exception it raised. */
  datatype Outcome<+T> = Ok(value: T) | Err(msg: string) {

    predicate IsFailure()
    {
      Err?
    }

    function PropagateFailure<U>(): Outcome<U>
      requires Err?
    {
      Err(msg)
    }

    function Extract(): T
      requires Ok?
    {
      value
    }
  }
}
