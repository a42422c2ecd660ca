/** Failure-carrying values: a Python `raise` becomes `Err`, a bare `return` (None) becomes `None`. */
module Outcomes {

  /** The exceptions the modelled code raises. */
  datatype Error = ValueError(message: string)

  /** Failure-compatible, so that `:-` propagates an error the way a Python exception does. */
  datatype Result<T> = Ok(value: T) | Err(error: Error) {

    predicate IsFailure() {
      Err?
    }

    function PropagateFailure<U>(): Result<U>
      requires Err?
    {
      Err(error)
    }

    function Extract(): T
      requires Ok?
    {
      value
    }
  }

  datatype Option<T> = None | Some(value: T)
}
