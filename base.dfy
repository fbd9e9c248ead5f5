/** Option and Result, the shapes Go's `(value, error)` pairs and nil pointers take in this model. */
module Wrappers {

  datatype Option<+T> = None | Some(value: T)

  datatype Result<+R, +E> = Success(value: R) | Failure(error: E)
}

/** Go's fixed-width integer types. */
module Ints {

  newtype int32 = x: int | -0x8000_0000 <= x < 0x8000_0000

  newtype int64 = x: int | -0x8000_0000_0000_0000 <= x < 0x8000_0000_0000_0000
}
