/** Option and Result values for absent fields and failed lookups. */
module Wrappers {

  /** A value that may be absent (an `undefined` or `null` field, a lookup that found nothing). */
  datatype Option<+T> = None | Some(value: T) {
    /** The value, or `default` when absent: a destructuring default such as `{ quantity = 1 }`. */
    function GetOr(default: T): T {
      match this
      case Some(v) => v
      case None => default
    }
  }

  /** The outcome of an operation that throws: either a value or the thrown message. */
  datatype Result<+T> = Ok(value: T) | Err(message: string)
}
