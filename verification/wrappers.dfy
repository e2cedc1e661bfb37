/** Optional values and results with an error, usable with `:-`. */
module Wrappers {

  /** A value that may be absent: Spark's null for a single cell. */
  datatype Option<+T> = None | Some(value: T)

  /** The outcome of a stage that can abort the run. */
  datatype Result<+T, +E> = Ok(value: T) | Err(error: E) {

    predicate IsFailure() {
      Err?
    }

    function PropagateFailure<U>(): Result<U, E>
      requires Err?
    {
      Err(error)
    }

    function Extract(): T
      requires Ok?
    {
      value
    }
  }
}
