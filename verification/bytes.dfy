/** Octets, as .NET's `byte`. */
module Bytes {

  type Byte = b: int | 0 <= b < 256
}
