/** Failure-compatible result types shared by the model.
    Python's exceptions become `Err` values carrying the exception's kind. */
module Results {

  datatype Option<+T> = None | Some(value: T)

  /** The Python exception kinds the modelled code can raise. */
  datatype Error =
    | TypeError
    | ValueError
    | AttributeError
    | ZeroDivisionError
    | IndexError

  datatype Result<+T> = Ok(value: T) | Err(error: Error) {

    predicate IsFailure() {
      Err?
    }

    function PropagateFailure<U>(): Result<U>
      requires Err?
    {
      Err(error)
    }

    function Extract(): T
      requires Ok?
    {
      value
    }
  }
}
