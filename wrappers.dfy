/** Failure-compatible wrappers shared by every module of the model. */
module Wrappers {

  /** A value that may be absent (a Go nil pointer or a missing map entry). */
  datatype Option<+T> = None | Some(value: T)

  /** The result of an operation that either yields a value or fails with an error. */
  datatype Result<+T, +E> = Ok(value: T) | Err(error: E) {
    predicate IsFailure() { Err? }

    function PropagateFailure<U>(): Result<U, E>
      requires Err?
    {
      Err(error)
    }

    function Extract(): T
      requires Ok?
    {
      value
    }
  }

  /** A `stack.Abort` of the request pipeline: an HTTP status and a detail message.
      Errors that are not safe for the client are carried with status 500. */
  datatype Abort = Abort(status: int, detail: string)

  /** The outcome of one pipeline step: a value, or an abort that unwinds the request. */
  type Outcome<+T> = Result<T, Abort>

  function BadRequest(detail: string): Abort { Abort(400, detail) }
  function Internal(detail: string): Abort { Abort(500, detail) }
}
