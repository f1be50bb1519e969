/** Outcomes of the viewer's operations: a value, or the exception the
    original code raises instead. */
module Results {

  datatype Option<T> = None | Some(value: T)

  datatype Result<T, E> = Ok(value: T) | Err(error: E)

  /** The outcome of an operation that returns nothing. */
  datatype Outcome<E> = Done | Fail(error: E)
}
