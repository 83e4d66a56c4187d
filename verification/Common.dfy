/** Small datatypes shared by the modules of this project. */
module Common {

  /** A value that may be absent (the null and missing-row results of the source). */
  datatype Option<+T> = None | Some(value: T)

  /** The outcome of an operation that the source ends with a return or with an exception. */
  datatype Result<+T, +E> = Ok(value: T) | Err(error: E)
}
