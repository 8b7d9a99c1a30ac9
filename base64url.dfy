/**
 * The unpadded URL-safe base64 encoding (`base64.RawURLEncoding` in Go):
 * the alphabet of section 5 of RFC 4648, without the `=` padding of
 * section 3.2. The encoder is what the program applies to the random bytes of
 * a PKCE code verifier and to the SHA-256 digest of a code challenge; the
 * decoder is its inverse, used here to prove that the encoding loses nothing.
 */
module Base64Url {
  import opened Bytes
  import opened Wrappers

  /** Six bits: the index of one character of the alphabet. */
  type Sextet = x: int | 0 <= x < 64

  /** The 64 characters of the URL- and filename-safe alphabet. */
  predicate IsUrlSafeChar(c: char) {
    'A' <= c <= 'Z' || 'a' <= c <= 'z' || '0' <= c <= '9' || c == '-' || c == '_'
  }

  predicate IsUrlSafe(s: string) {
    forall i :: 0 <= i < |s| ==> IsUrlSafeChar(s[i])
  }

  /** The character that encodes `v`: A-Z, a-z, 0-9, then `-` and `_`. */
  function CharOf(v: Sextet): (c: char)
    ensures IsUrlSafeChar(c)
    ensures ValueOf(c) == Some(v)
  {
    if v < 26 then ('A' as int + v) as char
    else if v < 52 then ('a' as int + (v - 26)) as char
    else if v < 62 then ('0' as int + (v - 52)) as char
    else if v == 62 then '-'
    else '_'
  }

  /** The value a character encodes, or None for a character outside the alphabet. */
  function ValueOf(c: char): (r: Option<Sextet>)
    ensures r.Some? <==> IsUrlSafeChar(c)
  {
    if 'A' <= c <= 'Z' then Some(c as int - 'A' as int)
    else if 'a' <= c <= 'z' then Some(c as int - 'a' as int + 26)
    else if '0' <= c <= '9' then Some(c as int - '0' as int + 52)
    else if c == '-' then Some(62)
    else if c == '_' then Some(63)
    else None
  }

  /** Go's `RawURLEncoding.EncodedLen`: four characters per full group of three bytes, two or three for a tail. */
  function EncodedLen(n: nat): nat {
    n / 3 * 4 + (n % 3 * 8 + 5) / 6
  }

  /** The four characters of one full group of three bytes. */
  function EncodeQuantum(b0: byte, b1: byte, b2: byte): string {
    [CharOf(b0 / 4), CharOf(b0 % 4 * 16 + b1 / 16), CharOf(b1 % 16 * 4 + b2 / 64), CharOf(b2 % 64)]
  }

  /**
   * `RawURLEncoding.EncodeToString`: full groups from the front, then a tail
   * of one byte (two characters) or two bytes (three characters), never `=`.
   */
  function EncodeRaw(b: seq<byte>): (s: string)
    ensures |s| == EncodedLen(|b|)
    ensures IsUrlSafe(s)
    decreases |b|
  {
    if |b| == 0 then ""
    else if |b| == 1 then [CharOf(b[0] / 4), CharOf(b[0] % 4 * 16)]
    else if |b| == 2 then [CharOf(b[0] / 4), CharOf(b[0] % 4 * 16 + b[1] / 16), CharOf(b[1] % 16 * 4)]
    else EncodeQuantum(b[0], b[1], b[2]) + EncodeRaw(b[3..])
  }

  /** The three bytes that four alphabet values stand for. */
  function DecodeQuantum(v0: Sextet, v1: Sextet, v2: Sextet, v3: Sextet): seq<byte> {
    [v0 * 4 + v1 / 16, v1 % 16 * 16 + v2 / 4, v2 % 4 * 64 + v3]
  }

  /** The byte that a two-character tail stands for. */
  function DecodeTail1(v0: Sextet, v1: Sextet): seq<byte> {
    [v0 * 4 + v1 / 16]
  }

  /** The two bytes that a three-character tail stands for. */
  function DecodeTail2(v0: Sextet, v1: Sextet, v2: Sextet): seq<byte> {
    [v0 * 4 + v1 / 16, v1 % 16 * 16 + v2 / 4]
  }

  /** Unpadded decoding: None for a character outside the alphabet or a length of 1 modulo 4. */
  function DecodeRaw(s: string): (r: Option<seq<byte>>)
    decreases |s|
  {
    if |s| == 0 then Some([])
    else if |s| == 1 then None
    else if !IsUrlSafeChar(s[0]) || !IsUrlSafeChar(s[1]) then None
    else if |s| == 2 then Some(DecodeTail1(ValueOf(s[0]).value, ValueOf(s[1]).value))
    else if !IsUrlSafeChar(s[2]) then None
    else if |s| == 3 then Some(DecodeTail2(ValueOf(s[0]).value, ValueOf(s[1]).value, ValueOf(s[2]).value))
    else if !IsUrlSafeChar(s[3]) then None
    else
      match DecodeRaw(s[4..])
      case None => None
      case Some(rest) =>
        Some(DecodeQuantum(ValueOf(s[0]).value, ValueOf(s[1]).value, ValueOf(s[2]).value, ValueOf(s[3]).value) + rest)
  }

  /** Decoding one encoded group gives back its three bytes. */
  lemma QuantumRoundTrip(b0: byte, b1: byte, b2: byte)
    ensures DecodeQuantum(b0 / 4, b0 % 4 * 16 + b1 / 16, b1 % 16 * 4 + b2 / 64, b2 % 64) == [b0, b1, b2]
  {
    var c1 := b0 % 4 * 16 + b1 / 16;
    var c2 := b1 % 16 * 4 + b2 / 64;
    assert c1 / 16 == b0 % 4 && c1 % 16 == b1 / 16;
    assert c2 / 4 == b1 % 16 && c2 % 4 == b2 / 64;
  }

  /** Decoding a two-character tail gives back its byte. */
  lemma Tail1RoundTrip(b0: byte)
    ensures DecodeTail1(b0 / 4, b0 % 4 * 16) == [b0]
  {
    assert (b0 % 4 * 16) / 16 == b0 % 4;
  }

  /** Decoding a three-character tail gives back its two bytes. */
  lemma Tail2RoundTrip(b0: byte, b1: byte)
    ensures DecodeTail2(b0 / 4, b0 % 4 * 16 + b1 / 16, b1 % 16 * 4) == [b0, b1]
  {
    var c1 := b0 % 4 * 16 + b1 / 16;
    assert c1 / 16 == b0 % 4 && c1 % 16 == b1 / 16;
    assert (b1 % 16 * 4) / 4 == b1 % 16;
  }

  /** Decoding inverts encoding for a sequence of two bytes. */
  lemma RoundTripTwo(b: seq<byte>)
    requires |b| == 2
    ensures DecodeRaw(EncodeRaw(b)) == Some(b)
  {
    var c0, c1, c2 := b[0] / 4, b[0] % 4 * 16 + b[1] / 16, b[1] % 16 * 4;
    assert EncodeRaw(b) == [CharOf(c0), CharOf(c1), CharOf(c2)];
    DecodeThreeChars(c0, c1, c2);
    Tail2RoundTrip(b[0], b[1]);
    assert [b[0], b[1]] == b;
  }

  /** Three alphabet characters decode as a two-byte tail. */
  lemma DecodeThreeChars(c0: Sextet, c1: Sextet, c2: Sextet)
    ensures DecodeRaw([CharOf(c0), CharOf(c1), CharOf(c2)]) == Some(DecodeTail2(c0, c1, c2))
  {
    var s := [CharOf(c0), CharOf(c1), CharOf(c2)];
    assert ValueOf(s[0]) == Some(c0) && ValueOf(s[1]) == Some(c1) && ValueOf(s[2]) == Some(c2);
  }

  /** Decoding inverts encoding for a single byte. */
  lemma RoundTripOne(b: seq<byte>)
    requires |b| == 1
    ensures DecodeRaw(EncodeRaw(b)) == Some(b)
  {
    var c0, c1 := b[0] / 4, b[0] % 4 * 16;
    var s := [CharOf(c0), CharOf(c1)];
    assert EncodeRaw(b) == s;
    assert ValueOf(s[0]) == Some(c0) && ValueOf(s[1]) == Some(c1);
    assert DecodeRaw(s) == Some(DecodeTail1(c0, c1));
    Tail1RoundTrip(b[0]);
    assert [b[0]] == b;
  }

  /** Decoding inverts encoding, for every byte sequence. */
  lemma {:induction false} RoundTrip(b: seq<byte>)
    ensures DecodeRaw(EncodeRaw(b)) == Some(b)
    decreases |b|
  {
    if |b| == 1 {
      RoundTripOne(b);
    } else if |b| == 2 {
      RoundTripTwo(b);
    } else if |b| >= 3 {
      RoundTrip(b[3..]);
      RoundTripStep(b);
    }
  }

  /** One full group in front of an encoding that decodes correctly. */
  lemma RoundTripStep(b: seq<byte>)
    requires |b| >= 3
    requires DecodeRaw(EncodeRaw(b[3..])) == Some(b[3..])
    ensures DecodeRaw(EncodeRaw(b)) == Some(b)
  {
    SplitThree(b);
    var q := EncodeQuantum(b[0], b[1], b[2]);
    assert EncodeRaw(b) == q + EncodeRaw(b[3..]);
    QuantumDecodes(b[0], b[1], b[2]);
    DecodeAfterQuantum(q, EncodeRaw(b[3..]));
  }

  lemma SplitThree(b: seq<byte>)
    requires |b| >= 3
    ensures [b[0], b[1], b[2]] + b[3..] == b
  {
  }

  /** The four characters of a group decode to the group's three bytes. */
  lemma QuantumDecodes(b0: byte, b1: byte, b2: byte)
    ensures var q := EncodeQuantum(b0, b1, b2);
      |q| == 4 && IsUrlSafe(q) &&
      DecodeQuantum(ValueOf(q[0]).value, ValueOf(q[1]).value, ValueOf(q[2]).value, ValueOf(q[3]).value) == [b0, b1, b2]
  {
    var c0, c1, c2, c3 := b0 / 4, b0 % 4 * 16 + b1 / 16, b1 % 16 * 4 + b2 / 64, b2 % 64;
    var q := EncodeQuantum(b0, b1, b2);
    assert ValueOf(q[0]) == Some(c0) && ValueOf(q[1]) == Some(c1);
    assert ValueOf(q[2]) == Some(c2) && ValueOf(q[3]) == Some(c3);
    QuantumRoundTrip(b0, b1, b2);
  }

  /** Decoding consumes a leading group of four alphabet characters. */
  lemma DecodeAfterQuantum(q: string, t: string)
    requires |q| == 4 && IsUrlSafe(q)
    ensures DecodeRaw(q + t) ==
      match DecodeRaw(t)
      case None => None
      case Some(rest) =>
        Some(DecodeQuantum(ValueOf(q[0]).value, ValueOf(q[1]).value, ValueOf(q[2]).value, ValueOf(q[3]).value) + rest)
  {
    var s := q + t;
    assert s[0] == q[0] && s[1] == q[1] && s[2] == q[2] && s[3] == q[3];
    assert s[4..] == t;
  }

  /** Different byte sequences never share an encoding. */
  lemma EncodeRawInjective(a: seq<byte>, b: seq<byte>)
    ensures EncodeRaw(a) == EncodeRaw(b) <==> a == b
  {
    RoundTrip(a);
    RoundTrip(b);
  }
}
