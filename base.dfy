/** Small failure-carrying datatypes shared by the broker and the worker models. */
module Base {

  /** A value that may be absent: Python's `None` or an object. */
  datatype Option<+T> = None | Some(value: T)

  /** The Python exceptions the modelled code can raise. */
  datatype Error =
    | KeyError(key: int)  // a dictionary lookup with a missing key
    | ValueError          // `np.amin` of an empty array

  /** A value computed, or the exception raised instead. */
  datatype Result<+T> = Ok(value: T) | Err(error: Error)

  /** The outcome of an RPC handler that returns `Empty` on success. */
  datatype Outcome = Pass | Fail(error: Error)
}
