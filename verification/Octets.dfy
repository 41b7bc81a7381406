/** Bytes, as numbers. */
module Octets {
  type Byte = n: nat | n < 256

  type Bytes = seq<Byte>
}
