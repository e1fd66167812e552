/** Failure-compatible results, options and the identifier types every module shares. */
module Common {

  datatype Option<+T> = None | Some(value: T)

  datatype Result<+T, +E> = Ok(value: T) | Err(error: E) {
    predicate IsFailure() {
      Err?
    }

    function PropagateFailure<U>(): Result<U, E>
      requires Err?
    {
      Err(error)
    }

    function Extract(): T
      requires Ok?
    {
      value
    }
  }

  /** A step's name within its workflow; also the task_name column. */
  type Name = string

  /** UUIDs the application generates, as text. Only their identity matters here. */
  type RunId = string
  type WorkerId = string

  /** An instant on some process's clock, in nanoseconds. Clocks are never assumed to agree. */
  type Time = int

  const SECOND := 1_000_000_000
}
