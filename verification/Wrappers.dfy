/** Failure-carrying results shared by every module. */
module Wrappers {

  datatype Option<+T> = None | Some(value: T) {
    function GetOr(default_: T): T {
      if Some? then value else default_
    }
  }

  /** The outcome of a transaction body: an error rolls everything back (InTx). */
  datatype Result<+T, +E> = Ok(value: T) | Err(error: E) {
    function GetOr(default_: T): T {
      if Ok? then value else default_
    }

    predicate IsFailure() {
      Err?
    }

    function PropagateFailure<U>(): Result<U, E>
      requires Err?
    {
      Err(error)
    }

    function Extract(): T
      requires Ok?
    {
      value
    }
  }
}
