/** The two failure-carrying wrappers the model uses in place of Python's `None`
    and of raised exceptions. */
module Results {

  /** A value or nothing: Python's `Optional[...]`, `None` being `None`. */
  datatype Option<+T> = None | Some(value: T)

  /** A value, or the exception that was raised instead of producing it. */
  datatype Result<+T, +E> = Ok(value: T) | Err(error: E)
}
