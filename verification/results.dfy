/** The two ways the scrapers report absence and failure. */
module Results {

  /** A value that may be missing; JavaScript's `undefined` is `None`. */
  datatype Option<+T> = None | Some(value: T)

  /** The outcome of a step that may throw: its value, or the message of
      the error it threw. */
  datatype Result<+T> = Ok(value: T) | Err(error: string)
}
