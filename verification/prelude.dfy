/** Small shared vocabulary: optional values, bytes, and the outcome of a
    Python call that may raise. */
module Prelude {

  datatype Option<+T> = None | Some(value: T) {
    function GetOr(default: T): T {
      match this
      case Some(v) => v
      case None => default
    }
  }

  /** An unsigned octet, as held in a Python `bytes` object. */
  newtype byte = b: int | 0 <= b < 256

  /** The Python exception classes the modelled code can raise out of a call. */
  datatype PyError =
    | AttributeError(attribute: string)
    | TypeError
    | KeyError(key: string)

  /** A Python call either returns a value or raises. */
  datatype Outcome<+T> = Returned(value: T) | Raised(error: PyError)
}
