// Option and Result, the two shapes the application uses for "maybe absent"
// values (Rust `Option`, TypeScript `undefined`/`null`) and for operations
// that can fail (Rust `Result`, a thrown JavaScript error).
module Wrappers {
  datatype Option<+T> = None | Some(value: T)
  {
    function UnwrapOr(default: T): T
    {
      match this
      case None => default
      case Some(v) => v
    }
  }

  datatype Result<+T, +E> = Ok(value: T) | Err(error: E)
}
