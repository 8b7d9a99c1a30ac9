/**
 * `validateToken` (token.go:63-87) with the key function it hands to
 * golang-jwt's `jwt.Parse`. The JWKS fetch (`getJWKS`), the decoding of the
 * compact token, the RSA signature check and the time-based claim checks are
 * foreign code and enter as functions; the order in which they are reached,
 * and what each failure returns, is the model.
 */
module TokenValidation {
  import opened Json
  import opened Jose
  import opened KeyResolution
  import opened Wrappers

  /** The parts of golang-jwt that `jwt.Parse` runs around the key function. */
  datatype JwtLibrary = JwtLibrary(
    /** Split the compact form, decode header, claims and signature, look up the `alg` method. */
    decode: string -> Result<Jwt, string>,
    /** The method's signature check of `header.payload` under a key. */
    verifySignature: (Jwt, RsaPublicKey) -> bool,
    /** The registered-claim checks (`exp`, `nbf`, `iat`) at the current time. */
    claimsValid: Jwt -> bool)

  /** Everything `validateToken` calls out to: `getJWKS` (token.go:33-46) and golang-jwt. */
  datatype Verifier = Verifier(fetchJwks: string -> Result<KeySet, string>, jwt: JwtLibrary)

  /** golang-jwt's error kinds, as `jwt.Parse` reports them. */
  datatype ParseError =
    | DecodeFailed(reason: string)  // ErrTokenMalformed, or ErrTokenUnverifiable for a missing or unknown `alg`
    | Unverifiable(cause: KeyError) // ErrTokenUnverifiable: the key function failed
    | SignatureInvalid              // ErrTokenSignatureInvalid
    | InvalidClaims                 // ErrTokenInvalidClaims: expired, not yet valid, ...

  /** What `validateToken` returns as its error. */
  datatype ValidationError =
    | FetchFailed(reason: string)          // the error of `getJWKS`, returned as it is
    | InvalidToken(cause: Option<ParseError>) // "invalid token: %v"

  /** A `*jwt.Token`: the decoded token and its `Valid` flag. */
  datatype JwtToken = JwtToken(jwt: Jwt, valid: bool)

  /** The steps of a verification, as they are reached. */
  datatype Stage =
    | FetchKeySet(url: string)
    | DecodeToken
    | CheckSigningMethod
    | LookupKey
    | VerifySignature
    | ValidateClaims

  /** Every step, in the order a verification that succeeds reaches them. */
  function Pipeline(url: string): seq<Stage> {
    [FetchKeySet(url), DecodeToken, CheckSigningMethod, LookupKey, VerifySignature, ValidateClaims]
  }

  /** The key the key function returns: an RSA method first, then the `kid` lookup. */
  function KeyFor(t: Jwt, jwks: KeySet): Result<RsaPublicKey, KeyError> {
    if !IsRsaMethod(t.alg) then Failure(UnexpectedSigningMethod(AlgOf(t.header)))
    else ResolveKey(t.header, jwks)
  }

  /** The steps the key function reaches. */
  function KeyForStages(t: Jwt): seq<Stage> {
    if IsRsaMethod(t.alg) then [CheckSigningMethod, LookupKey] else [CheckSigningMethod]
  }

  /** The key function of token.go:71-79. */
  method KeyFunc(t: Jwt, jwks: KeySet) returns (r: Result<RsaPublicKey, KeyError>, stages: seq<Stage>)
    ensures r == KeyFor(t, jwks) && stages == KeyForStages(t)
  {
    stages := [CheckSigningMethod];
    if !IsRsaMethod(t.alg) {
      return Failure(UnexpectedSigningMethod(AlgOf(t.header))), stages;
    }
    stages := stages + [LookupKey];
    r := GetRsaPublicKey(t.header, jwks);
  }

  /**
   * What `jwt.Parse` returns: the token, the error and the steps reached. When
   * decoding fails golang-jwt may still return a partly filled token; the model
   * gives None there, which `validateToken` cannot tell apart because it reads
   * no token once the error is set.
   */
  datatype ParseOutcome = ParseOutcome(token: Option<JwtToken>, err: Option<ParseError>, stages: seq<Stage>)

  /** golang-jwt v5's `Parse` with the program's key function: decode, key, signature, claims; valid only at the end. */
  function ParseSpec(tokenString: string, jwks: KeySet, lib: JwtLibrary): ParseOutcome {
    match lib.decode(tokenString)
    case Failure(reason) => ParseOutcome(None, Some(DecodeFailed(reason)), [DecodeToken])
    case Success(t) =>
      var stages := [DecodeToken] + KeyForStages(t);
      match KeyFor(t, jwks)
      case Failure(e) => ParseOutcome(Some(JwtToken(t, false)), Some(Unverifiable(e)), stages)
      case Success(key) =>
        if !lib.verifySignature(t, key) then
          ParseOutcome(Some(JwtToken(t, false)), Some(SignatureInvalid), stages + [VerifySignature])
        else if !lib.claimsValid(t) then
          ParseOutcome(Some(JwtToken(t, false)), Some(InvalidClaims), stages + [VerifySignature, ValidateClaims])
        else
          ParseOutcome(Some(JwtToken(t, true)), None, stages + [VerifySignature, ValidateClaims])
  }

  /** `jwt.Parse(tokenString, keyFunc)`. */
  method Parse(tokenString: string, jwks: KeySet, lib: JwtLibrary)
    returns (token: Option<JwtToken>, err: Option<ParseError>, stages: seq<Stage>)
    ensures ParseOutcome(token, err, stages) == ParseSpec(tokenString, jwks, lib)
  {
    stages := [DecodeToken];
    var decoded := lib.decode(tokenString);
    if decoded.Failure? {
      return None, Some(DecodeFailed(decoded.error)), stages;
    }
    var t := decoded.value;
    var key, keyStages := KeyFunc(t, jwks);
    stages := stages + keyStages;
    if key.Failure? {
      return Some(JwtToken(t, false)), Some(Unverifiable(key.error)), stages;
    }
    stages := stages + [VerifySignature];
    if !lib.verifySignature(t, key.value) {
      return Some(JwtToken(t, false)), Some(SignatureInvalid), stages;
    }
    stages := stages + [ValidateClaims];
    if !lib.claimsValid(t) {
      return Some(JwtToken(t, false)), Some(InvalidClaims), stages;
    }
    return Some(JwtToken(t, true)), None, stages;
  }

  /** The result of a verification together with the steps it reached. */
  datatype Outcome = Outcome(result: Result<JwtToken, ValidationError>, stages: seq<Stage>)

  /** The specification of `validateToken`: fetch the key set, then parse; a token only when neither failed and it is valid. */
  function Validation(url: string, tokenString: string, v: Verifier): Outcome {
    match v.fetchJwks(url)
    case Failure(reason) => Outcome(Failure(FetchFailed(reason)), [FetchKeySet(url)])
    case Success(jwks) =>
      var p := ParseSpec(tokenString, jwks, v.jwt);
      var stages := [FetchKeySet(url)] + p.stages;
      if p.err.Some? || !p.token.value.valid then Outcome(Failure(InvalidToken(p.err)), stages)
      else Outcome(Success(p.token.value), stages)
  }

  /** `validateToken(jwkUrl, idToken)`. */
  method ValidateToken(url: string, tokenString: string, v: Verifier)
    returns (r: Result<JwtToken, ValidationError>, stages: seq<Stage>)
    ensures Outcome(r, stages) == Validation(url, tokenString, v)
    ensures r.Success? ==> r.value.valid
  {
    stages := [FetchKeySet(url)];
    var jwks := v.fetchJwks(url);
    if jwks.Failure? {
      return Failure(FetchFailed(jwks.error)), stages;
    }
    var token, err, parseStages := Parse(tokenString, jwks.value, v.jwt);
    stages := stages + parseStages;
    if err.Some? || !token.value.valid {
      return Failure(InvalidToken(err)), stages;
    }
    return Success(token.value), stages;
  }

  /**
   * Fail closed: a token comes back exactly when the key set was fetched, the
   * token decoded, its method is RSA, its `kid` names an RSA key of the set,
   * the signature verifies under that key and the claims are valid; the token
   * returned is the decoded one, marked valid.
   */
  lemma ValidationFailsClosed(url: string, tokenString: string, v: Verifier)
    ensures var r := Validation(url, tokenString, v).result;
      r.Success? <==>
        (v.fetchJwks(url).Success? && v.jwt.decode(tokenString).Success? &&
         var t := v.jwt.decode(tokenString).value;
         IsRsaMethod(t.alg) && ResolveKey(t.header, v.fetchJwks(url).value).Success? &&
         v.jwt.verifySignature(t, ResolveKey(t.header, v.fetchJwks(url).value).value) &&
         v.jwt.claimsValid(t))
    ensures var r := Validation(url, tokenString, v).result;
      r.Success? ==> r.value == JwtToken(v.jwt.decode(tokenString).value, true)
  {
  }

  /** The steps reached are always a prefix of the pipeline, and all of it on success. */
  lemma StagesFollowPipeline(url: string, tokenString: string, v: Verifier)
    ensures Validation(url, tokenString, v).stages <= Pipeline(url)
    ensures Validation(url, tokenString, v).result.Success? ==> Validation(url, tokenString, v).stages == Pipeline(url)
  {
  }

  /**
   * A token whose method is not RSA is rejected by the method check, and the
   * key set is never searched for it.
   */
  lemma NonRsaRejectedBeforeLookup(url: string, tokenString: string, v: Verifier)
    requires v.fetchJwks(url).Success? && v.jwt.decode(tokenString).Success?
    requires !IsRsaMethod(v.jwt.decode(tokenString).value.alg)
    ensures Validation(url, tokenString, v).result ==
      Failure(InvalidToken(Some(Unverifiable(UnexpectedSigningMethod(AlgOf(v.jwt.decode(tokenString).value.header))))))
    ensures Validation(url, tokenString, v).stages == Pipeline(url)[..3]
    ensures LookupKey !in Validation(url, tokenString, v).stages
  {
    assert Pipeline(url)[..3] == [FetchKeySet(url), DecodeToken, CheckSigningMethod];
  }

  /** A failed fetch ends the verification before the token is even decoded. */
  lemma FetchFailureStopsFirst(url: string, tokenString: string, v: Verifier)
    requires v.fetchJwks(url).Failure?
    ensures Validation(url, tokenString, v) == Outcome(Failure(FetchFailed(v.fetchJwks(url).error)), [FetchKeySet(url)])
  {
  }

  /** An RSA token whose `kid` names no RSA key of the set is KeyNotFound, and no signature is checked. */
  lemma UnknownKeyRejected(url: string, tokenString: string, v: Verifier)
    requires v.fetchJwks(url).Success? && v.jwt.decode(tokenString).Success?
    requires var t := v.jwt.decode(tokenString).value;
      IsRsaMethod(t.alg) &&
      (KeyIdOf(t.header).None? ||
       forall i :: 0 <= i < |v.fetchJwks(url).value.keys| ==> !Qualifies(v.fetchJwks(url).value.keys[i], KeyIdOf(t.header).value))
    ensures Validation(url, tokenString, v).result == Failure(InvalidToken(Some(Unverifiable(KeyNotFound))))
    ensures VerifySignature !in Validation(url, tokenString, v).stages
  {
    var t := v.jwt.decode(tokenString).value;
    if KeyIdOf(t.header).Some? {
      NoneQualify(KeyIdOf(t.header).value, v.fetchJwks(url).value.keys);
    }
  }

  /** A token with a good signature but failing claims (expired, say) is rejected: valid is never set. */
  lemma InvalidClaimsRejected(url: string, tokenString: string, v: Verifier)
    requires v.fetchJwks(url).Success? && v.jwt.decode(tokenString).Success?
    requires var t := v.jwt.decode(tokenString).value;
      KeyFor(t, v.fetchJwks(url).value).Success? &&
      v.jwt.verifySignature(t, KeyFor(t, v.fetchJwks(url).value).value) && !v.jwt.claimsValid(t)
    ensures Validation(url, tokenString, v).result == Failure(InvalidToken(Some(InvalidClaims)))
  {
  }
}
