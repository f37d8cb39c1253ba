/** Byte strings, optional values and the few words every module shares. */
module Basics {

  type Byte = x: int | 0 <= x < 256

  type Bytes = seq<Byte>

  /** No executable and no archive may be larger: 256 MiB. */
  const MAX_BINARY_BYTES := 268435456
  const MAX_ARCHIVE_BYTES := 268435456

  datatype Option<+T> = None | Some(value: T)

  datatype Result<+T, +E> = Ok(value: T) | Err(error: E)
}
