/** Option and Result types shared by the model, usable with `:-`. */
module Wrappers {

  datatype Option<+T> = None | Some(value: T) {
    /** The wrapped value, or `default` when there is none (Rust's `unwrap_or`). */
    function GetOr(default: T): T {
      match this
      case Some(v) => v
      case None => default
    }
  }

  /** Errors surfaced by the program: a propagated failure (`?`) or a panic (`expect`, `unwrap`, division by zero). */
  datatype Error = Fail(msg: string) | Panic(msg: string)

  datatype Result<+T> = Ok(value: T) | Err(error: Error) {
    predicate IsFailure() {
      Err?
    }

    function PropagateFailure<U>(): Result<U>
      requires Err?
    {
      Err(error)
    }

    function Extract(): T
      requires Ok?
    {
      value
    }
  }

  /** Result without a value, as `Result<(), E>` in the source. */
  type Outcome = Result<()>

  const Done: Outcome := Ok(())
}
