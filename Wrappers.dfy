/** Value wrappers shared by every module of the model. */
module Wrappers {

  /** Python's `Optional[T]`: either `None` or a present value. */
  datatype Option<+T> = None | Some(value: T)

  /**
   * How a Python call ends once the caught exception classes are spelled out:
   * it returns a value, raises `google.auth.exceptions.DefaultCredentialsError`,
   * or raises any other exception, whose `str(e)` is kept.
   */
  datatype Outcome<+T> = Returned(value: T) | RaisedCredential | RaisedOther(message: string)
}
