/** Option and Result, in the shape the other modules share. */
module Common {
  datatype Option<+T> = None | Some(value: T)

  /** A value, or the error a source function raises. */
  datatype Result<+T, +E> = Ok(value: T) | Err(error: E) {
    predicate IsFailure() { Err? }
    function PropagateFailure<U>(): Result<U, E>
      requires Err?
    {
      Err(error)
    }
    function Extract(): T
      requires Ok?
    {
      value
    }
  }
}
