/** Failure-compatible result types and the Python exception kinds the generator
    lets escape to its caller. */
module Wrappers {

  /** A present-or-absent value, used for Python's `None`-able fields and for
      lookups that may miss. */
  datatype Option<+T> = None | Some(value: T)

  /** The exception classes raised on the paths this model covers. */
  datatype Error =
    | ValueError(message: string)
    | TypeError(message: string)
    | FileNotFoundError(message: string)
    | KeyError(key: string)
    | AttributeError(message: string)

  /** Either the value an operation returns or the exception it raises. */
  datatype Result<+T> = Ok(value: T) | Err(error: Error) {

    predicate IsFailure() {
      Err?
    }

    function PropagateFailure<U>(): Result<U>
      requires Err?
    {
      Err(error)
    }

    function Extract(): T
      requires Ok?
    {
      value
    }
  }
}
