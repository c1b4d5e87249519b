/** The two sum types the Rust code uses everywhere: `Option` and `Result`. */
module Wrappers {

  datatype Option<T> = None | Some(value: T)

  datatype Result<T, E> = Ok(value: T) | Err(error: E)
}

/** Small arithmetic helpers shared by the modules. */
module Numeric {

  function Min(a: nat, b: nat): nat {
    if a <= b then a else b
  }
}
