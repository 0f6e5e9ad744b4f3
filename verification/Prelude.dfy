/** Small value types and string helpers shared by every model module. */
module Prelude {

  /** A Go `*T` that is only ever read through: nil or a value. */
  datatype Option<+T> = None | Some(value: T) {
    /** `ptr.Deref`. */
    function Deref(default: T): T {
      if Some? then value else default
    }
  }

  /** A Go `(value, error)` pair. */
  datatype Result<+T, +E> = Ok(value: T) | Err(error: E)

  /** `strings.HasPrefix`. */
  predicate HasPrefix(s: string, prefix: string) {
    prefix <= s
  }
}
