# Identity-provider broker: PKCE, key selection, token verification and login callbacks

This project models the sequential logic of a small Go program that runs two OAuth2/OIDC
authorization-code logins: Sentinel, hardened with PKCE, and Auth0, without it. It models
four parts:

- **PKCE** (token.go:16-30). The code verifier is 32 random bytes in unpadded URL-safe
  base64. The challenge is the same encoding of the SHA-256 digest of the verifier's octets
  (section 4.2 of RFC 7636). `Base64Url` holds a concrete encoder and a decoder, which is
  its proved inverse. `Utf8` models Go's `[]byte(s)` conversion. `Pkce` holds the two
  generators.
- **Key selection by `kid`** (token.go:49-60). `KeyResolution.GetRsaPublicKey` uses the
  source's `for range` loop with an early return. It is proved equal to a recursive
  reference scan, `FirstRsaKey`. Lemmas prove the first-match and skip rules.
- **Verification** (token.go:63-87). `TokenValidation.ValidateToken` fetches the key set,
  then runs golang-jwt v5's `Parse` with the program's key function:
  1. decode the token;
  2. check that the signing method is RSA;
  3. look the key up by `kid`;
  4. check the signature;
  5. check the claims.

  Each step is recorded in a list of stages. The function `Validation` specifies this
  pipeline, and lemmas about it prove that verification fails closed and happens in order.
- **Login handlers and callbacks** (sentinel.go, auth0.go). The class `Broker.App` holds the
  package variables of main.go. The provider settings and the code verifier are `const`
  fields, fixed at startup (main.go:72). The six token variables are `var` fields, which the
  callbacks overwrite. The CSRF state is the module constant `OauthStateString`, which is
  `"random-state-string"` (main.go:23) for every login. Each callback returns its effects
  in order:
  - the token-endpoint call and the verifier it sends;
  - each `validateToken` call;
  - each claim set printed;
  - each write to the response;
  - a panic, which ends the handler.

The outside world enters as function-valued parameters:
- the JWKS fetch (`getJWKS`, token.go:33-46);
- golang-jwt's decoding, RSA signature check and time-based claim checks;
- `Config.Exchange`;
- SHA-256.

`Validation`, `ParseSpec`, `KeyFor`, `ResolveKey`, `FirstRsaKey`, `SentinelVerdict`,
`SentinelTail` and `Auth0Verdict` are reference definitions. They have no contract of their own; the methods
are proved equal to them, and the lemmas below are about them.
`OAuth2.Extra` and `OAuth2.ExtraString` are oauth2's `Token.Extra(key)` for a JSON token
response and its `.(string)` assertion. `Jose.KeyIdOf` is `token.Header["kid"].(string)`. The
lemmas in the table relate these three to the callbacks and to key resolution.

Some things the code does that a reader of RFC 6749 and RFC 7636 might not expect:
- the CSRF state is one fixed string, shared by both providers;
- one verifier serves every login;
- the verifier's bytes come from a time-seeded `golang.org/x/exp/rand`, not a cryptographic
  source;
- key selection also requires the entry to hold an `*rsa.PublicKey`;
- an unknown `alg` fails while the token is decoded, before the key function runs;
- the PSS methods (PS256/384/512) are rejected by the RSA check, because their Go type is
  not `*jwt.SigningMethodRSA`;
- errors are values that wrap strings, not a fixed taxonomy.

Some things that follow from the code:
- Every path that reaches `validateToken` with a token returns it with `Valid` set. So the
  "Invalid token" branches (sentinel.go:118-120, auth0.go:81-83, auth0.go:97-99) cannot be
  reached. `SentinelClaimsOnlyWhenValid` shows that for Sentinel and
  `Auth0InvalidBranchesUnreachable` for both Auth0 branches.
- The Sentinel callback validates the access token but reports a failure as
  "Failed to validate ID token".
- It writes that error after the Auth0 redirect has already been written.
- When Auth0's response has no `id_token`, the callback validates the ID token left over
  from the previous login.

## Model

| member | source | states |
|---|---|---|
| `Base64Url.EncodeRaw` | token.go:21 | the unpadded URL-safe encoding of n bytes has Go's `EncodedLen(n)` characters, all from `A-Z a-z 0-9 - _` (so never `=`) |
| `Base64Url.RoundTrip` | token.go:28 | decoding the encoding of any byte sequence gives that sequence back |
| `Base64Url.EncodeRawInjective` | token.go:28 | two byte sequences have the same encoding if and only if they are equal |
| `Utf8.AsciiEncoding` | token.go:27 | `[]byte(s)` of an ASCII string has one octet per character, each octet that character's code |
| `Pkce.ReadRandom` | token.go:19-20 | the 32-byte buffer ends up holding exactly the random bytes |
| `Pkce.GenerateCodeVerifier` | token.go:17-22 | the verifier is the unpadded URL-safe encoding of the 32 random bytes: 43 characters, no `=`, within the 43..128 unreserved-character rule of section 4.1 of RFC 7636 |
| `Pkce.GenerateCodeChallenge` | token.go:25-30 | the challenge has 43 URL-safe characters, no `=`, and decodes to exactly the SHA-256 digest of the verifier's octets |
| `Pkce.ChallengeDeterminesDigest` | token.go:25-30 | two verifiers have the same challenge if and only if their octets have the same digest, so the challenge depends only on the verifier |
| `Pkce.VerifierOctetsAreAscii` | token.go:17-28 | a generated verifier is ASCII, so the octets hashed for its challenge are `ASCII(code_verifier)` as section 4.2 of RFC 7636 states |
| `KeyResolution.GetRsaPublicKey` | token.go:49-60 | the loop returns the reference scan's result; it succeeds if and only if the header has a string `kid` and some entry has that `kid` and an RSA public key; every failure is "unable to find appropriate key" |
| `KeyResolution.NoneQualify` | token.go:59 | when no entry qualifies, the scan finds nothing |
| `KeyResolution.FirstRsaKeyNone` | token.go:51-59 | the scan finds nothing if and only if no entry has the `kid` and RSA material |
| `KeyResolution.FirstQualifyingIndex` | token.go:51-55 | when entry i qualifies and no earlier entry does, the scan returns entry i's key |
| `KeyResolution.FirstRsaKeyIsFirst` | token.go:51-57 | a key found belongs to a qualifying entry with no qualifying entry before it |
| `KeyResolution.SkipUnqualified` | token.go:51-57 | entries that do not qualify, including a matching `kid` with non-RSA material, are passed over without changing the result |
| `KeyResolution.FirstMatchWins` | token.go:52-54 | the first qualifying entry wins over every later entry |
| `KeyResolution.NoKidOrNoKeys` | token.go:50-59 | a missing or non-string `kid`, or an empty key set, gives KeyNotFound |
| `KeyResolution.OnlyKidMatters` | token.go:50 | two headers with the same string `kid` resolve to the same key or the same error: no other header field is read |
| `KeyResolution.NonStringKidIsAbsent` | token.go:50 | a `kid` that is not a string fails the `.(string)` assertion and resolves like a header without `kid`, to "unable to find appropriate key" |
| `TokenValidation.KeyFunc` | token.go:71-79 | the key function rejects a non-RSA method with "unexpected signing method" before any lookup, and otherwise returns the key lookup's result |
| `TokenValidation.Parse` | token.go:71-79 | `jwt.Parse` with that key function matches its specification: decode, key, signature, then claims, and the token is valid only when all four pass |
| `TokenValidation.ValidateToken` | token.go:63-87 | `validateToken` returns what `Validation` specifies, and a token it returns is valid |
| `TokenValidation.ValidationFailsClosed` | token.go:65-86 | a token comes back if and only if the fetch succeeded, the token decoded, its method is RSA, its `kid` names an RSA key, the signature verifies under that key and the claims hold; the token is the decoded one, marked valid |
| `TokenValidation.StagesFollowPipeline` | token.go:63-87 | the stages reached are always a prefix of fetch, decode, method check, key lookup, signature, claims, and all of them when a token is returned |
| `TokenValidation.NonRsaRejectedBeforeLookup` | token.go:73-78 | a non-RSA token fails with "unexpected signing method" after fetch, decode and the method check only; the key lookup is never reached |
| `TokenValidation.FetchFailureStopsFirst` | token.go:65-68 | a failed JWKS fetch returns its error before the token is decoded |
| `TokenValidation.UnknownKeyRejected` | token.go:78-84 | an RSA token whose `kid` names no RSA key of the set is rejected as KeyNotFound, and no signature is checked |
| `TokenValidation.InvalidClaimsRejected` | token.go:82-84 | a token with a good signature but failing time claims is rejected |
| `OAuth2.Set` | sentinel.go:27-28 | `query.Set` gives the key a single value and leaves every other parameter as it was |
| `OAuth2.AuthCodeURL` | sentinel.go:18 | the authorization URL has `response_type=code` and `client_id`, plus `redirect_uri`, `scope` and `state` when they are not empty, and no other parameter |
| `OAuth2.ExtraStringIsStringExtra` | auth0.go:54-59 | `Extra(key).(string)` gives s exactly when `Extra(key)` is the JSON string s; it never succeeds on a nil `Extra`; after the non-nil check, it panics exactly when the field is not a string |
| `OAuth2.NullExtraIsAbsent` | auth0.go:54 | a JSON `null` field and a missing field are both nil through `Extra`, so the callback skips both |
| `OAuth2.ExtraReadsOnlyItsField` | sentinel.go:90-92 | `Extra(key)` is unaffected by any other field of the token response |
| `Broker.SentinelClaimsOnlyWhenValid` | sentinel.go:105-120 | Sentinel claims are printed if and only if validation of the access token returned a token; the "Invalid token" branch is never taken |
| `Broker.Auth0IdTokenFirst` | auth0.go:69-90 | the ID token is validated first; if that fails, the handler ends with its error and the access token is never validated |
| `Broker.Auth0InvalidBranchesUnreachable` | auth0.go:76-99 | neither "Invalid ID token" response is ever written: every token the validations return is valid |
| `Broker.Auth0SuccessPageIffBothValid` | auth0.go:85-108 | the success page is written if and only if both validations returned a token |
| `Broker.App.constructor` | main.go:72 | the verifier is set once, at startup, from 32 random bytes, and is a valid PKCE verifier; every token variable starts empty |
| `Broker.App.SentinelAuthorizationUrl` | sentinel.go:18-29 | the Sentinel URL carries `state = "random-state-string"`, `code_challenge` = S256 of the process verifier and `code_challenge_method = S256`; every other oauth2 parameter is unchanged |
| `Broker.App.HandleSentinelLogin` | sentinel.go:17-33 | the handler redirects to that URL after setting the two PKCE parameters on the query map |
| `Broker.App.Auth0AuthorizationUrl` | auth0.go:15-23 | the Auth0 URL carries `state = "random-state-string"` and `audience = auth0Audience`, and no PKCE parameter; every other oauth2 parameter is unchanged |
| `Broker.App.HandleAuth0Login` | auth0.go:14-28 | the handler redirects to that URL after setting `audience` on the query map |
| `Broker.App.HandleSentinelCallback` | sentinel.go:69-99 | on a wrong state it only redirects to `/`; otherwise it first exchanges the code with the same verifier. A failed exchange redirects to `/` with the tokens unchanged. Otherwise the access, refresh and ID variables get the response's values, or the handler panics where a field is not a string; then come the Auth0 redirect and validation. The Auth0 variables never change |
| `Broker.App.SentinelStoreTokens` | sentinel.go:89-99 | after a good exchange, the access variable is always set; refresh, then ID, is set from the response, and a missing or non-string field panics with the variables after it unchanged; with both set, `SentinelTail`'s redirect and validation follow; the Auth0 variables never change |
| `Broker.App.SentinelAfterExchange` | sentinel.go:99-120 | the Auth0 login redirect is written before the access token is validated against the Sentinel JWKS URL; claims or the error follow |
| `Broker.App.HandleAuth0Callback` | auth0.go:31-67 | on a wrong state it only redirects to `/`; the exchange sends no verifier. A failed exchange redirects to `/` with the tokens unchanged. The access variable is always overwritten; the ID and refresh variables change only when the response has them, and a non-string value panics. Validation then uses the stored ID token. The Sentinel variables never change |
| `Broker.App.Auth0Validations` | auth0.go:69-108 | the two validations against the Auth0 JWKS URL, their claims and the success page come in `Auth0Verdict`'s order |
| `Broker.App.SentinelLoginThenCallback` | sentinel.go:27-82 | over a login and its callback, the verifier sent to the token endpoint is the one whose S256 challenge the login URL carried, and the URL carried the fixed state |

## Left out

- `handleSentinelLogout` (sentinel.go:35-67): an outbound HTTP POST whose only logic is a
  status-code check.
- main.go's startup work: loading `.env`, reading the environment, registering routes,
  opening a browser, `ListenAndServe`. The settings are a constructor parameter.
- `getJWKS` (token.go:33-46): the HTTP GET and the JSON decoding. It is the function
  `Verifier.fetchJwks`, which gives a key set or an error.
- SHA-256, RSA signature verification, golang-jwt's segment decoding and its
  `exp`/`nbf`/`iat` checks: these are foreign code and enter as functions.
- The seeding and randomness of `generateCodeVerifier` (token.go:18-20). The 32 random
  bytes are an input, so the model does not capture that a time seed makes them
  predictable.
- The services are deterministic functions. Two calls with the same arguments give the
  same answer; for example, both JWKS fetches of one Auth0 callback see the same key set.
- `url.Parse` of the authorization URL and its `log.Fatalf` (sentinel.go:20-23,
  auth0.go:16-19). The configured authorization endpoint is taken to carry no query of its
  own.
- `query.Encode` and building the URL string: the URL is kept as an endpoint plus a
  parameter map.
- Token responses in form encoding. For those, oauth2's `Extra` parses `url.Values`; the
  model handles only JSON responses.
- Logging, printing of tokens, token type and expiry, HTML bodies, and the mechanics of
  `http.Redirect`. A redirect, an error or the success page is kept as one response value.
  When a handler writes twice, both writes are listed, in order.
- When decoding fails, golang-jwt returns a partly filled token along with the error, and
  `TokenValidation.Parse` returns none. `validateToken` reads no token once the error is set,
  so nothing it returns depends on that token.
- The `Claims.(jwt.MapClaims)` assertion is treated as always succeeding, because
  `jwt.Parse` decodes into `MapClaims`.
- Concurrent requests racing on the package variables: each handler runs alone.
- How net/http recovers a handler's panic: a panic is the last effect, and assignments made
  before it remain.
