/** Bytes and byte counts (internal/protocol/protocol.go). */
module Bytes {
  type byte = x: int | 0 <= x < 256

  const MAX_BYTE_COUNT := 0x3FFF_FFFF_FFFF_FFFF   // 2^62 - 1
}
