/** Octets, as Go's `byte`. */
module Bytes {
  /** One octet. */
  type byte = x: int | 0 <= x < 256

  /** A sequence of exactly 32 octets: a SHA-256 digest, or the random draw of a code verifier. */
  type Bytes32 = s: seq<byte> | |s| == 32
    witness [0, 0, 0, 0, 0, 0, 0, 0, 0, 0, 0, 0, 0, 0, 0, 0,
             0, 0, 0, 0, 0, 0, 0, 0, 0, 0, 0, 0, 0, 0, 0, 0]
}
