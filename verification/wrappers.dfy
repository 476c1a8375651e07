/** Option and Result types shared by the model, and the Python exceptions
    that the modelled code can raise. */
module Wrappers {

  datatype Option<+T> = None | Some(value: T)

  /** The Python exceptions raised by the modelled code. A conversion
      function that fails (a type constructor or strptime) raises
      ConversionError, whatever concrete class Python would use. */
  datatype PyError =
    | IndexError
    | TypeError
    | ValueError
    | RuntimeError
    | UnboundLocalError
    | ConversionError

  /** A computation that either returns a value or raises. */
  datatype Result<+T> = Ok(value: T) | Err(error: PyError) {
    predicate IsFailure() { Err? }

    function PropagateFailure<U>(): Result<U>
      requires Err?
    {
      Err(error)
    }

    function Extract(): T
      requires Ok?
    {
      value
    }
  }
}
