/**
 * Go's `[]byte(s)` conversion of a string: the UTF-8 encoding (RFC 3629) of
 * its characters. A Dafny `char` is a Unicode scalar value, so every
 * character has an encoding of one to four octets.
 */
module Utf8 {
  import opened Bytes

  /** The octets of one scalar value. */
  function EncodeChar(c: char): (b: seq<byte>)
    ensures 1 <= |b| <= 4
    ensures |b| == 1 <==> c as int < 0x80
    ensures |b| == 1 ==> b[0] == c as int
  {
    var n := c as int;
    if n < 0x80 then [n]
    else if n < 0x800 then [0xC0 + n / 0x40, 0x80 + n % 0x40]
    else if n < 0x1_0000 then [0xE0 + n / 0x1000, 0x80 + n / 0x40 % 0x40, 0x80 + n % 0x40]
    else [0xF0 + n / 0x4_0000, 0x80 + n / 0x1000 % 0x40, 0x80 + n / 0x40 % 0x40, 0x80 + n % 0x40]
  }

  /** The octets of a string, character after character. */
  function Encode(s: string): (b: seq<byte>)
    ensures |b| >= |s|
    decreases |s|
  {
    if s == [] then [] else EncodeChar(s[0]) + Encode(s[1..])
  }

  /** Every character is in the 7-bit US-ASCII range. */
  predicate IsAscii(s: string) {
    forall i :: 0 <= i < |s| ==> s[i] as int < 0x80
  }

  /** An ASCII string is encoded octet for character: UTF-8 agrees with ASCII there. */
  lemma {:induction false} AsciiEncoding(s: string)
    requires IsAscii(s)
    ensures |Encode(s)| == |s|
    ensures forall i :: 0 <= i < |s| ==> Encode(s)[i] == s[i] as int
    decreases |s|
  {
    if s != [] {
      AsciiEncoding(s[1..]);
      assert Encode(s) == [s[0] as int] + Encode(s[1..]);
    }
  }
}
