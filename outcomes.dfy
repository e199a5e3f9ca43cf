/** Option and Result values standing for Python's `None` and for the exceptions the core raises. */
module Outcomes {

  datatype Option<+T> = None | Some(value: T)

  /** The Python exceptions raised by the modelled code, with their messages where the code sets one. */
  datatype Exception =
    | ValueError(message: string)
    | TypeError(message: string)
    | RuntimeError(message: string)
    | IndexError
    | KeyError
    | AttributeError(attribute: string)
    /** qiskit.providers.exceptions.QiskitBackendNotFoundError */
    | BackendNotFound(message: string)

  /** The outcome of a call that either returns a value or raises. */
  datatype Result<+T> = Ok(value: T) | Err(error: Exception) {

    predicate IsFailure() {
      Err?
    }

    function PropagateFailure<U>(): Result<U>
      requires Err?
    {
      Err(error)
    }

    function Extract(): T
      requires Ok?
    {
      value
    }
  }
}
