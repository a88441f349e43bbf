/** Optional values and success/failure results, used where the source returns
    `None` or raises an exception. */
module Results {

  datatype Option<+T> = None | Some(value: T)

  /** `Err` stands for an exception raised by the source; `:-` propagates it
      the way an uncaught exception leaves the calling function. */
  datatype Result<+T, +E> = Ok(value: T) | Err(error: E) {

    predicate IsFailure() {
      Err?
    }

    function PropagateFailure<U>(): Result<U, E>
      requires Err?
    {
      Err(error)
    }

    function Extract(): T
      requires Ok?
    {
      value
    }
  }
}
