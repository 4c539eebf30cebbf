/** Bytes (`u8`) as bounded integers. */
module Bytes {
  type Byte = x: int | 0 <= x < 256
}
