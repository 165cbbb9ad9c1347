/** Outcomes of operations that may fail. */
module Results {

  /** The two families of errors raised by the risk engine's attribution and scenario code. */
  datatype Failure = AttributionInvalid | ScenarioInvalid

  datatype Option<+T> = None | Some(value: T)

  datatype Result<+T, +E> = Ok(value: T) | Err(error: E) {
    predicate IsFailure() {
      Err?
    }

    function PropagateFailure<U>(): Result<U, E>
      requires Err?
    {
      Err(error)
    }

    function Extract(): T
      requires Ok?
    {
      value
    }
  }
}
