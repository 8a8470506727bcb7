/** Byte strings, as the encryption envelope and the session cookie use them. */
module Octets {
  type Byte = b: int | 0 <= b < 256

  type Bytes = seq<Byte>
}
