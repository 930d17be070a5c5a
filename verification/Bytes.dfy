/** Bytes and encoded values. */
module Bytes {
  type byte = x: int | 0 <= x < 256

  /** A value in its encoded form; its encoding is not part of this model. */
  type Blob = seq<byte>
}
