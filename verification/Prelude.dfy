/** Shared value types. */
module Prelude {
  datatype Option<+T> = None | Some(value: T)
  datatype Result<+T, +E> = Ok(value: T) | Err(error: E)

  function ToSeq<T>(o: Option<T>): seq<T> {
    if o.Some? then [o.value] else []
  }

  function Bit(b: bool): nat {
    if b then 1 else 0
  }
}
