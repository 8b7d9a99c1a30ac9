/**
 * The PKCE pair of token.go: a code verifier made of 32 random bytes and its
 * S256 code challenge (section 4.2 of RFC 7636), both written in unpadded
 * URL-safe base64. The random bytes and SHA-256 are inputs: `random` is what
 * `rand.Read` puts in the buffer, `sha256` maps a message to its digest.
 */
module Pkce {
  import opened Bytes
  import Base64Url
  import Utf8
  import opened Wrappers

  /** The size of the verifier's random buffer (token.go:19). */
  const VerifierByteLength := 32

  /** The value of `code_challenge_method` for the SHA-256 transform. */
  const S256Method := "S256"

  /** The `unreserved` characters of section 4.1 of RFC 7636: ALPHA / DIGIT / "-" / "." / "_" / "~". */
  predicate IsUnreserved(c: char) {
    'A' <= c <= 'Z' || 'a' <= c <= 'z' || '0' <= c <= '9' || c == '-' || c == '.' || c == '_' || c == '~'
  }

  /** A code verifier as section 4.1 of RFC 7636 demands: 43 to 128 unreserved characters. */
  predicate IsValidVerifier(v: string) {
    43 <= |v| <= 128 && forall i :: 0 <= i < |v| ==> IsUnreserved(v[i])
  }

  /** `rand.Read(bytes)`: every slot of the buffer receives the corresponding random byte. */
  method ReadRandom(buf: array<byte>, random: Bytes32)
    requires buf.Length == |random|
    modifies buf
    ensures buf[..] == random
  {
    forall i | 0 <= i < buf.Length {
      buf[i] := random[i];
    }
  }

  /** `generateCodeVerifier`: fill a 32-byte buffer from the random source, then encode it. */
  method GenerateCodeVerifier(random: Bytes32) returns (verifier: string)
    ensures verifier == Base64Url.EncodeRaw(random)
    ensures |verifier| == 43 && Base64Url.IsUrlSafe(verifier) && '=' !in verifier
    ensures IsValidVerifier(verifier)
  {
    var bytes := new byte[VerifierByteLength];
    ReadRandom(bytes, random);
    verifier := Base64Url.EncodeRaw(bytes[..]);
  }

  /**
   * `generateCodeChallenge`: the digest of the verifier's octets, in unpadded
   * URL-safe base64; always 43 alphabet characters and never `=`.
   */
  function GenerateCodeChallenge(verifier: string, sha256: seq<byte> -> Bytes32): (challenge: string)
    ensures |challenge| == 43
    ensures Base64Url.IsUrlSafe(challenge) && '=' !in challenge
    ensures Base64Url.DecodeRaw(challenge) == Some(sha256(Utf8.Encode(verifier)))
  {
    Base64Url.RoundTrip(sha256(Utf8.Encode(verifier)));
    Base64Url.EncodeRaw(sha256(Utf8.Encode(verifier)))
  }

  /** Two verifiers share a challenge exactly when their octets share a digest. */
  lemma ChallengeDeterminesDigest(v1: string, v2: string, sha256: seq<byte> -> Bytes32)
    ensures GenerateCodeChallenge(v1, sha256) == GenerateCodeChallenge(v2, sha256)
        <==> sha256(Utf8.Encode(v1)) == sha256(Utf8.Encode(v2))
  {
    Base64Url.EncodeRawInjective(sha256(Utf8.Encode(v1)), sha256(Utf8.Encode(v2)));
  }

  /**
   * A generated verifier is ASCII, so the octets hashed for its challenge are
   * its characters' ASCII codes, as `ASCII(code_verifier)` in section 4.2 of RFC 7636.
   */
  lemma VerifierOctetsAreAscii(random: Bytes32)
    ensures var v := Base64Url.EncodeRaw(random);
      |Utf8.Encode(v)| == |v| == 43 && forall i :: 0 <= i < |v| ==> Utf8.Encode(v)[i] == v[i] as int
  {
    var v := Base64Url.EncodeRaw(random);
    assert Utf8.IsAscii(v);
    Utf8.AsciiEncoding(v);
  }
}
