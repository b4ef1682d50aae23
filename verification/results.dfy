/** Failure-carrying values shared by the bookkeeping engine. A Java `null`
    becomes `None`, and a thrown exception becomes an `Err`/`Fail` that carries
    the exception's kind and message. */
module Results {

  /** The two exception kinds the engine throws. */
  datatype Error =
    | InvalidArgument(message: string)  // IllegalArgumentException
    | IllegalState(message: string)     // IllegalStateException

  /** A possibly-null reference. */
  datatype Option<+T> = None | Some(value: T)

  /** The value a call returns, or the exception it throws. */
  datatype Result<+T> = Ok(value: T) | Err(error: Error)

  /** The outcome of a `void` call: it returns, or it throws. */
  datatype Outcome = Pass | Fail(error: Error)
}
