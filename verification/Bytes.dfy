/** The byte type shared by the wire and naming models. */
module Bytes {
  type Byte = x: nat | x < 256
}
