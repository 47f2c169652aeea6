/** Success/failure values for the steps of the pipeline that can fail. */
module Results {

  /** Either a computed value or the reason the computation stopped. */
  datatype Result<+T, +E> = Ok(value: T) | Err(error: E)

  /** An optional value, used for conversions that may not apply. */
  datatype Option<+T> = None | Some(value: T)
}
