/** The two exception classes of the router, PHP's own engine errors, and the
    Result / Outcome / Option wrappers that carry them instead of `throw`. */
module Results {

  /** What a call can fail with.
      InvalidArgument and NotFound are the router's two exception classes and
      carry the exact exception message. EngineError stands for a fatal error
      raised by PHP itself (instantiating a class that does not exist, calling a
      method on something that is not an object or lacks that method). */
  datatype Error =
    | InvalidArgument(message: string)
    | NotFound(message: string)
    | EngineError

  /** The value of a call that returns something, or the error it raised. */
  datatype Result<+T> = Ok(value: T) | Err(error: Error)

  /** A call whose value is not used: it completed, or raised an error. */
  datatype Outcome = Done | Failed(error: Error)

  /** PHP's "array or FALSE" returns. */
  datatype Option<+T> = None | Some(value: T)
}
