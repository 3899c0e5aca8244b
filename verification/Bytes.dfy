module Bytes {
  type byte = x: int | 0 <= x < 0x100
}
