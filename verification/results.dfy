/** Small failure-carrying datatypes shared by the model: Java's nullable
    references become `Option`, and a call that may end in an exception
    escaping to the caller becomes `Result`. */
module Results {

  /** A value that may be absent; `None` plays the role of Java's `null`. */
  datatype Option<+T> = None | Some(value: T)

  /** Either the value a call returned normally, or what escaped from it. */
  datatype Result<+T, +E> = Ok(value: T) | Err(error: E)
}
