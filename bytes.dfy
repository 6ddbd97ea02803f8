/** Octets, as Rust's `u8`, kept as integers in range. */
module Bytes {
  type Byte = x: int | 0 <= x < 256
}
