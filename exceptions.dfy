/** Python exceptions as values: what a call raises, and the outcome of a call that may raise. */
module Exceptions {

  /** The exception classes the service tells apart: the two it raises itself (and re-raises
      unchanged in `combine_voices`), and every other class. */
  datatype ExcClass = ValueError | RuntimeError | OtherError

  /** A raised exception: its class and its message, `str(e)`. */
  datatype Exc = Exc(cls: ExcClass, message: string)

  datatype Option<T> = None | Some(value: T)

  /** The outcome of a call that either returns a value or raises. */
  datatype Result<T> = Ok(value: T) | Raised(exc: Exc)

  /** The exception `s[0]` raises on an empty string. */
  const INDEX_ERROR := Exc(OtherError, "string index out of range")
}
