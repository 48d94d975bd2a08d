/** Octets, as Java's `byte[]` carries them (unsigned here: only the bit
    pattern matters to the encodings that use them). */
module Bytes {

  type byte = x: int | 0 <= x < 256
}
