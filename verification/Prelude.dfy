/** Optional values, results and the lesser and greater of two numbers. */
module Prelude {
  datatype Option<+T> = None | Some(value: T)

  datatype Result<+T, +X> = Ok(value: T) | Err(error: X)

  function Max(a: nat, b: nat): nat {
    if a < b then b else a
  }

  function Min(a: nat, b: nat): nat {
    if a < b then a else b
  }
}
