/** Failure-carrying values shared by every module of the model. A thrown
    JavaScript `Error` is represented by its `message`. */
module Wrappers {

  datatype Option<+T> = None | Some(value: T)

  /** The value of an awaited call: either what it resolved to, or the
      message of the error it threw. Usable with `:-`. */
  datatype Result<+T> = Ok(value: T) | Err(message: string) {
    predicate IsFailure() { Err? }

    function PropagateFailure<U>(): Result<U>
      requires Err?
    {
      Err(message)
    }

    function Extract(): T
      requires Ok?
    {
      value
    }
  }

  /** The outcome of an awaited call that resolves to nothing useful. */
  datatype Outcome = Pass | Fail(message: string)
}
