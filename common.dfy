/** Small value types shared by the OAuth2 and OWS proxy models. */
module Common {

  /** A value that may be missing: Python's `None` or a dictionary key that is absent. */
  datatype Option<+T> = None | Some(value: T) {
    function GetOr(default: T): T {
      match this
      case Some(v) => v
      case None => default
    }
  }

  /** The outcome of an operation that may raise instead of returning a value. */
  datatype Result<+T, +E> = Ok(value: T) | Err(error: E)

  /** One byte of an HTTP body. */
  newtype Byte = x: int | 0 <= x < 256

  type Bytes = seq<Byte>
}
