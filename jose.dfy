/**
 * The JOSE values the verifier handles: JSON Web Keys and key sets (RFC 7517)
 * as go-jose decodes them, the signing methods golang-jwt knows, and a
 * decoded but not yet verified JSON Web Token.
 */
module Jose {
  import opened Json
  import opened Bytes
  import opened Wrappers

  /** An RSA public key: modulus and public exponent. */
  datatype RsaPublicKey = RsaPublicKey(modulus: nat, exponent: nat)

  /**
   * What go-jose puts in `JSONWebKey.Key`: only `RsaPublic` is a `*rsa.PublicKey`;
   * an RSA private key, an elliptic-curve or Ed25519 key or a symmetric secret is not.
   */
  datatype KeyMaterial =
    | RsaPublic(rsa: RsaPublicKey)
    | RsaPrivate(public: RsaPublicKey)
    | EcdsaPublic(curve: string)
    | Ed25519Public(point: seq<byte>)
    | Symmetric(secret: seq<byte>)

  /** One entry of a key set: its `kid`, its material, its `alg` and `use` members. */
  datatype JsonWebKey = JsonWebKey(keyId: string, key: KeyMaterial, algorithm: string, use: string)

  /** The `JWK` document of main.go:76-78: the `keys` array, in document order. */
  datatype KeySet = KeySet(keys: seq<JsonWebKey>)

  /** The signing methods golang-jwt registers, named by their `alg` value. */
  datatype SigningMethod =
    | HS256 | HS384 | HS512
    | RS256 | RS384 | RS512
    | PS256 | PS384 | PS512
    | ES256 | ES384 | ES512
    | EdDSA
    | NoneAlg

  /**
   * The methods whose Go type is `*jwt.SigningMethodRSA`: RSASSA-PKCS1-v1_5 only.
   * The PSS methods are `*jwt.SigningMethodRSAPSS`, a different type.
   */
  predicate IsRsaMethod(m: SigningMethod) {
    m == RS256 || m == RS384 || m == RS512
  }

  /**
   * A token after golang-jwt has split and decoded it and looked up its method,
   * before any key is chosen or any signature checked.
   */
  datatype Jwt = Jwt(header: Object, alg: SigningMethod, claims: Object, signature: seq<byte>)

  /** `token.Header["kid"].(string)`: the key id, when the header has one and it is a string. */
  function KeyIdOf(header: Object): (kid: Option<string>)
    ensures kid.Some? <==> "kid" in header && header["kid"].JString?
    ensures kid.Some? ==> header["kid"] == JString(kid.value)
  {
    if "kid" in header && header["kid"].JString? then Some(header["kid"].str) else None
  }

  /** `token.Header["alg"]`: the value printed in the unexpected-method error, if any. */
  function AlgOf(header: Object): Option<JsonValue> {
    if "alg" in header then Some(header["alg"]) else None
  }
}
