/** Absence and failure values shared by every operation of the list. */
module Optional {

  /** The absence marker: Python's `None` as returned by `at` and `find`. */
  datatype Option<+T> = None | Some(value: T)

  /** Either the value a method returns or the exception it raises. */
  datatype Result<+T, +E> = Ok(value: T) | Err(error: E)
}
