/** Failure-compatible wrappers shared by the model: an optional JSON field
    and the outcome of a call that either yields a value or raises. */
module Wrappers {

  /** A JSON object field that may be absent. */
  datatype Option<+T> = None | Some(value: T) {

    /** The field's value, or `default` when it is absent (Python's `dict.get(key, default)`). */
    function GetOr(default: T): T {
      if Some? then value else default
    }
  }

  /** The outcome of a call that may raise: `Ok` carries the value, `Err` the exception. */
  datatype Result<+T, +E> = Ok(value: T) | Err(error: E) {

    predicate IsFailure() {
      Err?
    }

    function PropagateFailure<U>(): Result<U, E>
      requires Err?
    {
      Err(error)
    }

    function Extract(): T
      requires Ok?
    {
      value
    }
  }
}
