/** Byte strings, shared by the socket frames and the audit chain. */
module Bytes {
  newtype byte = x: int | 0 <= x < 256

  type bytes = seq<byte>
}
