/** Small wrappers shared by every module: optional values, results and bytes. */
module Common {

  /** A value that may be absent (JavaScript's `undefined` or `null`). */
  datatype Option<+T> = None | Some(value: T) {

    /** The value, or `default` when absent: JavaScript's `??` operator. */
    function GetOr(default: T): T {
      match this
      case Some(v) => v
      case None => default
    }
  }

  /** Either a value or the error a step raised instead. */
  datatype Result<+T, +E> = Ok(value: T) | Err(error: E)

  /** An octet, as stored in an ArrayBuffer or a Node.js Buffer. */
  newtype byte = x: int | 0 <= x < 256
}
