// Results that stand for a value, a missing value or a thrown/returned error.
module Wrappers {
  datatype Option<+T> = None | Some(value: T)

  datatype Result<+T, +E> = Ok(value: T) | Err(error: E)

  function Min(a: int, b: int): (m: int)
  {
    if a < b then a else b
  }
}
