/** Optional values, and results that carry the Python exception a call raises. */
module Results {

  datatype Option<+T> = None | Some(value: T)

  /** The exception classes the conversion layer raises, with the name it reports. */
  datatype Error =
    | NotImplementedError(what: string)
    | TypeError(what: string)
    | RuntimeError(what: string)
    | AssertionError(what: string)
    | AttributeError(what: string)
    | ValueError(what: string)
    | IndexError(what: string)

  datatype Result<+T> = Success(value: T) | Failure(error: Error)

  /** A call that returns nothing: it either completes or raises. */
  datatype Outcome = Pass | Fail(error: Error)
}
