/**
 Bytes, as the source's unsigned char and uint8_t.
 */
module Bytes {
  type byte = b: int | 0 <= b < 256
}
