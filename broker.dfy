/**
 * The package state and the four handlers of sentinel.go and auth0.go.
 * `App` holds the package-level variables of main.go: the two provider
 * configurations and URLs (fixed at startup), the single code verifier made
 * once at startup, and the six token variables the callbacks overwrite.
 *
 * A handler's observable behaviour is its list of effects, in order: calls
 * to the token endpoint, calls to `validateToken`, claim sets printed, what
 * it writes to the `http.ResponseWriter`, and a panic that ends it.
 */
module Broker {
  import opened Json
  import opened Bytes
  import opened Wrappers
  import opened OAuth2
  import opened TokenValidation
  import Base64Url
  import Pkce

  /** The CSRF `state` value of main.go:23, the same for every login of both providers. */
  const OauthStateString := "random-state-string"

  /** What main.go's `init` reads from the environment. */
  datatype Settings = Settings(
    auth0Config: Config,
    sentinelConfig: Config,
    auth0JwksUrl: string,
    auth0Audience: string,
    sentinelJwksUrl: string)

  /** The outside world a callback talks to. */
  datatype Services = Services(
    /** `Config.Exchange(ctx, code, [code_verifier])`: the token endpoint's answer. */
    exchange: (Config, string, Option<string>) -> Result<Token, string>,
    /** `getJWKS` and golang-jwt, for `validateToken`. */
    verifier: Verifier,
    /** SHA-256. */
    sha256: seq<byte> -> Bytes32)

  /** Where a redirect sends the browser. */
  datatype Target = Home | Authorization(url: AuthUrl)

  /** The body of an `http.Error` reply. */
  datatype ErrorBody =
    | ValidationFailed(prefix: string, err: ValidationError) // "<prefix>: %v"
    | Message(text: string)

  /** One write to the response: a 307 redirect, a 500 error, or the success page. */
  datatype Response =
    | TemporaryRedirect(target: Target)
    | InternalServerError(body: ErrorBody)
    | SuccessPage

  /** One observable step of a handler. */
  datatype Effect =
    | Exchange(config: Config, code: string, codeVerifier: Option<string>)
    | Validate(jwksUrl: string, token: string)
    | EmitClaims(title: string, claims: Object)
    | Respond(response: Response)
    | Panic(key: string) // `Extra(key).(string)` on a missing or non-string field

  /** One provider's access, refresh and ID token variables. */
  datatype Tokens = Tokens(access: string, refresh: string, id: string)

  /** The outcome of the sentinel callback's `validateToken` on the access token (sentinel.go:105-120). */
  function SentinelVerdict(r: Result<JwtToken, ValidationError>): seq<Effect> {
    if r.Failure? then [Respond(InternalServerError(ValidationFailed("Failed to validate ID token", r.error)))]
    else if r.value.valid then [EmitClaims("Sentinel Token Claims", r.value.jwt.claims)]
    else [Respond(InternalServerError(Message("Invalid token")))]
  }

  /** The auth0 callback's two validations and the success page (auth0.go:69-108). */
  function Auth0Verdict(url: string, idToken: string, accessToken: string, v: Verifier): seq<Effect> {
    var idResult := Validation(url, idToken, v).result;
    [Validate(url, idToken)] +
    if idResult.Failure? then [Respond(InternalServerError(ValidationFailed("Failed to validate ID token", idResult.error)))]
    else
      (if idResult.value.valid then [EmitClaims("Auth0 Id Token Claims", idResult.value.jwt.claims)]
       else [Respond(InternalServerError(Message("Invalid ID token")))]) +
      [Validate(url, accessToken)] +
      var accessResult := Validation(url, accessToken, v).result;
      if accessResult.Failure? then [Respond(InternalServerError(ValidationFailed("Failed to validate access token", accessResult.error)))]
      else
        (if accessResult.value.valid then [EmitClaims("Access Token Claims", accessResult.value.jwt.claims)]
         else [Respond(InternalServerError(Message("Invalid ID token")))]) +
        [Respond(SuccessPage)]
  }

  /** Claims of the sentinel access token are printed exactly when its validation returned a token. */
  lemma SentinelClaimsOnlyWhenValid(url: string, accessToken: string, v: Verifier)
    ensures var r := Validation(url, accessToken, v).result;
      (exists c :: EmitClaims("Sentinel Token Claims", c) in SentinelVerdict(r)) <==> r.Success?
    ensures var r := Validation(url, accessToken, v).result;
      r.Success? ==> SentinelVerdict(r) == [EmitClaims("Sentinel Token Claims", r.value.jwt.claims)]
  {
    var r := Validation(url, accessToken, v).result;
    ValidationFailsClosed(url, accessToken, v);
    if r.Success? {
      assert EmitClaims("Sentinel Token Claims", r.value.jwt.claims) in SentinelVerdict(r);
    }
  }

  /**
   * The ID token is validated first; when that fails the handler stops there,
   * and the access token is never validated.
   */
  lemma Auth0IdTokenFirst(url: string, idToken: string, accessToken: string, v: Verifier)
    ensures Auth0Verdict(url, idToken, accessToken, v)[0] == Validate(url, idToken)
    ensures Validation(url, idToken, v).result.Failure? ==>
      Auth0Verdict(url, idToken, accessToken, v) ==
        [Validate(url, idToken), Respond(InternalServerError(ValidationFailed("Failed to validate ID token", Validation(url, idToken, v).result.error)))]
    ensures Validation(url, idToken, v).result.Success? ==>
      Auth0Verdict(url, idToken, accessToken, v)[2] == Validate(url, accessToken)
  {
  }

  /**
   * Both "Invalid ID token" branches of the Auth0 callback are dead: a token
   * that `validateToken` returns is always valid.
   */
  lemma Auth0InvalidBranchesUnreachable(url: string, idToken: string, accessToken: string, v: Verifier)
    ensures Respond(InternalServerError(Message("Invalid ID token"))) !in Auth0Verdict(url, idToken, accessToken, v)
  {
    ValidationFailsClosed(url, idToken, v);
    ValidationFailsClosed(url, accessToken, v);
  }

  /** The success page is written exactly when both validations returned a token. */
  lemma Auth0SuccessPageIffBothValid(url: string, idToken: string, accessToken: string, v: Verifier)
    ensures Respond(SuccessPage) in Auth0Verdict(url, idToken, accessToken, v) <==>
      Validation(url, idToken, v).result.Success? && Validation(url, accessToken, v).result.Success?
  {
    var verdict := Auth0Verdict(url, idToken, accessToken, v);
    var idResult := Validation(url, idToken, v).result;
    var accessResult := Validation(url, accessToken, v).result;
    if idResult.Success? && accessResult.Success? {
      assert verdict[|verdict| - 1] == Respond(SuccessPage);
    } else if idResult.Success? {
      assert forall i :: 0 <= i < |verdict| ==> verdict[i].Validate? || verdict[i].EmitClaims? || verdict[i].response.InternalServerError?;
    } else {
      assert verdict == [Validate(url, idToken), Respond(InternalServerError(ValidationFailed("Failed to validate ID token", idResult.error)))];
    }
  }

  class App {
    const auth0Config: Config
    const sentinelConfig: Config
    const auth0JwksUrl: string
    const auth0Audience: string
    const sentinelJwksUrl: string
    /** The PKCE verifier, generated once when the program starts (main.go:72) and used by every login. */
    const codeVerifier: string

    var sentinelAccessToken: string
    var sentinelRefreshToken: string
    var sentinelIdToken: string
    var auth0AccessToken: string
    var auth0RefreshToken: string
    var auth0IdToken: string

    function SentinelTokens(): Tokens
      reads this
    {
      Tokens(sentinelAccessToken, sentinelRefreshToken, sentinelIdToken)
    }

    function Auth0Tokens(): Tokens
      reads this
    {
      Tokens(auth0AccessToken, auth0RefreshToken, auth0IdToken)
    }

    /** main.go's `init`: the settings, a verifier from 32 random bytes, and empty token variables. */
    constructor (settings: Settings, random: Bytes32)
      ensures auth0Config == settings.auth0Config && sentinelConfig == settings.sentinelConfig
      ensures auth0JwksUrl == settings.auth0JwksUrl && auth0Audience == settings.auth0Audience
      ensures sentinelJwksUrl == settings.sentinelJwksUrl
      ensures codeVerifier == Base64Url.EncodeRaw(random) && Pkce.IsValidVerifier(codeVerifier)
      ensures SentinelTokens() == Tokens("", "", "") && Auth0Tokens() == Tokens("", "", "")
    {
      auth0Config := settings.auth0Config;
      sentinelConfig := settings.sentinelConfig;
      auth0JwksUrl := settings.auth0JwksUrl;
      auth0Audience := settings.auth0Audience;
      sentinelJwksUrl := settings.sentinelJwksUrl;
      var verifier := Pkce.GenerateCodeVerifier(random);
      codeVerifier := verifier;
      sentinelAccessToken, sentinelRefreshToken, sentinelIdToken := "", "", "";
      auth0AccessToken, auth0RefreshToken, auth0IdToken := "", "", "";
    }

    /**
     * The Sentinel consent-page URL: oauth2's parameters with `state`, plus
     * the S256 challenge of the process's verifier; no other parameter changes.
     */
    function SentinelAuthorizationUrl(sha256: seq<byte> -> Bytes32): (u: AuthUrl)
      ensures var base := AuthCodeURL(sentinelConfig, OauthStateString).query;
        u.endpoint == sentinelConfig.endpoint.authUrl &&
        u.query.Keys == base.Keys + {"code_challenge", "code_challenge_method"} &&
        (forall k :: k in base && k != "code_challenge" && k != "code_challenge_method" ==> u.query[k] == base[k])
      ensures "state" in u.query && "code_challenge" in u.query && "code_challenge_method" in u.query
      ensures u.query["state"] == [OauthStateString]
      ensures u.query["code_challenge"] == [Pkce.GenerateCodeChallenge(codeVerifier, sha256)]
      ensures u.query["code_challenge_method"] == [Pkce.S256Method]
    {
      var base := AuthCodeURL(sentinelConfig, OauthStateString);
      AuthUrl(base.endpoint,
        Set(Set(base.query, "code_challenge", Pkce.GenerateCodeChallenge(codeVerifier, sha256)), "code_challenge_method", Pkce.S256Method))
    }

    /** `handleSentinelLogin` (sentinel.go:17-33). */
    method HandleSentinelLogin(sha256: seq<byte> -> Bytes32) returns (response: Response)
      ensures response == TemporaryRedirect(Authorization(SentinelAuthorizationUrl(sha256)))
    {
      var base := AuthCodeURL(sentinelConfig, OauthStateString);
      var query := base.query;
      query := Set(query, "code_challenge", Pkce.GenerateCodeChallenge(codeVerifier, sha256));
      query := Set(query, "code_challenge_method", Pkce.S256Method);
      response := TemporaryRedirect(Authorization(AuthUrl(base.endpoint, query)));
    }

    /**
     * The Auth0 consent-page URL: oauth2's parameters with `state`, `audience`
     * set (replacing any value), and no PKCE parameter.
     */
    function Auth0AuthorizationUrl(): (u: AuthUrl)
      ensures var base := AuthCodeURL(auth0Config, OauthStateString).query;
        u.endpoint == auth0Config.endpoint.authUrl &&
        u.query.Keys == base.Keys + {"audience"} &&
        (forall k :: k in base && k != "audience" ==> u.query[k] == base[k])
      ensures "state" in u.query && "audience" in u.query
      ensures u.query["state"] == [OauthStateString]
      ensures u.query["audience"] == [auth0Audience]
      ensures "code_challenge" !in u.query && "code_challenge_method" !in u.query
    {
      var base := AuthCodeURL(auth0Config, OauthStateString);
      AuthUrl(base.endpoint, Set(base.query, "audience", auth0Audience))
    }

    /** `handleAuth0Login` (auth0.go:14-28). */
    method HandleAuth0Login() returns (response: Response)
      ensures response == TemporaryRedirect(Authorization(Auth0AuthorizationUrl()))
    {
      var base := AuthCodeURL(auth0Config, OauthStateString);
      var query := base.query;
      query := Set(query, "audience", auth0Audience);
      response := TemporaryRedirect(Authorization(AuthUrl(base.endpoint, query)));
    }

    /**
     * `handleSentinelCallback` (sentinel.go:69-121): the state check, the
     * exchange with the process's verifier, the three token variables, the
     * Auth0 login redirect, then validation of the access token.
     */
    method HandleSentinelCallback(state: string, code: string, services: Services) returns (effects: seq<Effect>)
      modifies this
      ensures Auth0Tokens() == old(Auth0Tokens())
      ensures state != OauthStateString ==>
        effects == [Respond(TemporaryRedirect(Home))] && SentinelTokens() == old(SentinelTokens())
      ensures state == OauthStateString ==>
        effects != [] && effects[0] == Exchange(sentinelConfig, code, Some(codeVerifier))
      ensures var ex := services.exchange(sentinelConfig, code, Some(codeVerifier));
        state == OauthStateString && ex.Failure? ==>
          effects == [Exchange(sentinelConfig, code, Some(codeVerifier)), Respond(TemporaryRedirect(Home))] &&
          SentinelTokens() == old(SentinelTokens())
      ensures var ex := services.exchange(sentinelConfig, code, Some(codeVerifier));
        state == OauthStateString && ex.Success? ==>
          var t := ex.value;
          var refresh := ExtraString(t, "refresh_token");
          var id := ExtraString(t, "id_token");
          sentinelAccessToken == t.accessToken &&
          (refresh.None? ==>
            effects == [Exchange(sentinelConfig, code, Some(codeVerifier)), Panic("refresh_token")] &&
            sentinelRefreshToken == old(sentinelRefreshToken) && sentinelIdToken == old(sentinelIdToken)) &&
          (refresh.Some? && id.None? ==>
            effects == [Exchange(sentinelConfig, code, Some(codeVerifier)), Panic("id_token")] &&
            sentinelRefreshToken == refresh.value && sentinelIdToken == old(sentinelIdToken)) &&
          (refresh.Some? && id.Some? ==>
            SentinelTokens() == Tokens(t.accessToken, refresh.value, id.value) &&
            effects == [Exchange(sentinelConfig, code, Some(codeVerifier))]
                       + SentinelTail(t.accessToken, services.verifier))
    {
      if state != OauthStateString {
        return [Respond(TemporaryRedirect(Home))];
      }
      effects := [Exchange(sentinelConfig, code, Some(codeVerifier))];
      var exchanged := services.exchange(sentinelConfig, code, Some(codeVerifier));
      if exchanged.Failure? {
        return effects + [Respond(TemporaryRedirect(Home))];
      }
      var rest := SentinelStoreTokens(exchanged.value, services.verifier);
      effects := effects + rest;
    }

    /**
     * sentinel.go:89-120, after a successful exchange: the three token
     * variables, each `.(string)` assertion panicking on a missing or
     * non-string field, then the Auth0 redirect and validation.
     */
    method SentinelStoreTokens(t: Token, v: Verifier) returns (effects: seq<Effect>)
      modifies this
      ensures Auth0Tokens() == old(Auth0Tokens())
      ensures sentinelAccessToken == t.accessToken
      ensures var refresh := ExtraString(t, "refresh_token");
        refresh.None? ==>
          effects == [Panic("refresh_token")] &&
          sentinelRefreshToken == old(sentinelRefreshToken) && sentinelIdToken == old(sentinelIdToken)
      ensures var refresh := ExtraString(t, "refresh_token");
        var id := ExtraString(t, "id_token");
        refresh.Some? && id.None? ==>
          effects == [Panic("id_token")] &&
          sentinelRefreshToken == refresh.value && sentinelIdToken == old(sentinelIdToken)
      ensures var refresh := ExtraString(t, "refresh_token");
        var id := ExtraString(t, "id_token");
        refresh.Some? && id.Some? ==>
          SentinelTokens() == Tokens(t.accessToken, refresh.value, id.value) &&
          effects == SentinelTail(t.accessToken, v)
    {
      sentinelAccessToken := t.accessToken;
      var refresh := ExtraString(t, "refresh_token");
      if refresh.None? {
        return [Panic("refresh_token")];
      }
      sentinelRefreshToken := refresh.value;
      var id := ExtraString(t, "id_token");
      if id.None? {
        return [Panic("id_token")];
      }
      sentinelIdToken := id.value;
      sentinelRefreshToken := refresh.value;
      effects := SentinelAfterExchange(t.accessToken, v);
    }

    /**
     * What the sentinel callback writes once its token variables are set
     * (sentinel.go:99-120): the Auth0 login redirect, the validation of the
     * access token against the Sentinel key set, then its verdict.
     */
    function SentinelTail(accessToken: string, v: Verifier): seq<Effect> {
      [Respond(TemporaryRedirect(Authorization(Auth0AuthorizationUrl()))), Validate(sentinelJwksUrl, accessToken)]
      + SentinelVerdict(Validation(sentinelJwksUrl, accessToken, v).result)
    }

    /** sentinel.go:99-120: the Auth0 login redirect, then validation of the access token and its claims. */
    method SentinelAfterExchange(accessToken: string, v: Verifier) returns (effects: seq<Effect>)
      ensures effects == [Respond(TemporaryRedirect(Authorization(Auth0AuthorizationUrl()))), Validate(sentinelJwksUrl, accessToken)]
                         + SentinelVerdict(Validation(sentinelJwksUrl, accessToken, v).result)
    {
      var login := HandleAuth0Login();
      effects := [Respond(login)];

      effects := effects + [Validate(sentinelJwksUrl, accessToken)];
      var parsed, _ := ValidateToken(sentinelJwksUrl, accessToken, v);
      if parsed.Failure? {
        return effects + [Respond(InternalServerError(ValidationFailed("Failed to validate ID token", parsed.error)))];
      }
      if parsed.value.valid {
        effects := effects + [EmitClaims("Sentinel Token Claims", parsed.value.jwt.claims)];
      } else {
        effects := effects + [Respond(InternalServerError(Message("Invalid token")))];
      }
    }

    /**
     * `handleAuth0Callback` (auth0.go:31-109): the state check, the exchange
     * without a verifier, the token variables, then the ID token and the
     * access token validated in turn and the success page.
     */
    method HandleAuth0Callback(state: string, code: string, services: Services) returns (effects: seq<Effect>)
      modifies this
      ensures SentinelTokens() == old(SentinelTokens())
      ensures state != OauthStateString ==>
        effects == [Respond(TemporaryRedirect(Home))] && Auth0Tokens() == old(Auth0Tokens())
      ensures state == OauthStateString ==>
        effects != [] && effects[0] == Exchange(auth0Config, code, None)
      ensures var ex := services.exchange(auth0Config, code, None);
        state == OauthStateString && ex.Failure? ==>
          effects == [Exchange(auth0Config, code, None), Respond(TemporaryRedirect(Home))] &&
          Auth0Tokens() == old(Auth0Tokens())
      ensures var ex := services.exchange(auth0Config, code, None);
        state == OauthStateString && ex.Success? ==>
          var t := ex.value;
          var id := Extra(t, "id_token");
          var refresh := Extra(t, "refresh_token");
          auth0AccessToken == t.accessToken &&
          (id.Some? && !id.value.JString? ==>
            effects == [Exchange(auth0Config, code, None), Panic("id_token")] &&
            auth0IdToken == old(auth0IdToken) && auth0RefreshToken == old(auth0RefreshToken)) &&
          (id.None? || id.value.JString? ==>
            auth0IdToken == (if id.Some? then id.value.str else old(auth0IdToken))) &&
          ((id.None? || id.value.JString?) && refresh.Some? && !refresh.value.JString? ==>
            effects == [Exchange(auth0Config, code, None), Panic("refresh_token")] &&
            auth0RefreshToken == old(auth0RefreshToken)) &&
          ((id.None? || id.value.JString?) && (refresh.None? || refresh.value.JString?) ==>
            auth0RefreshToken == (if refresh.Some? then refresh.value.str else old(auth0RefreshToken)) &&
            effects == [Exchange(auth0Config, code, None)]
                       + Auth0Verdict(auth0JwksUrl, auth0IdToken, t.accessToken, services.verifier))
    {
      if state != OauthStateString {
        return [Respond(TemporaryRedirect(Home))];
      }
      effects := [Exchange(auth0Config, code, None)];
      var exchanged := services.exchange(auth0Config, code, None);
      if exchanged.Failure? {
        return effects + [Respond(TemporaryRedirect(Home))];
      }
      var token := exchanged.value;
      auth0AccessToken := token.accessToken;
      if Extra(token, "id_token").Some? {
        var id := ExtraString(token, "id_token");
        if id.None? {
          return effects + [Panic("id_token")];
        }
        auth0IdToken := id.value;
      }
      if Extra(token, "refresh_token").Some? {
        var refresh := ExtraString(token, "refresh_token");
        if refresh.None? {
          return effects + [Panic("refresh_token")];
        }
        auth0RefreshToken := refresh.value;
      }

      var rest := Auth0Validations(auth0IdToken, token.accessToken, services.verifier);
      effects := effects + rest;
    }

    /** auth0.go:69-108: the ID token, then the access token, then the success page. */
    method Auth0Validations(idToken: string, accessToken: string, v: Verifier) returns (effects: seq<Effect>)
      ensures effects == Auth0Verdict(auth0JwksUrl, idToken, accessToken, v)
    {
      effects := [Validate(auth0JwksUrl, idToken)];
      var parsedId, _ := ValidateToken(auth0JwksUrl, idToken, v);
      if parsedId.Failure? {
        return effects + [Respond(InternalServerError(ValidationFailed("Failed to validate ID token", parsedId.error)))];
      }
      if parsedId.value.valid {
        effects := effects + [EmitClaims("Auth0 Id Token Claims", parsedId.value.jwt.claims)];
      } else {
        effects := effects + [Respond(InternalServerError(Message("Invalid ID token")))];
      }

      effects := effects + [Validate(auth0JwksUrl, accessToken)];
      var parsedAccess, _ := ValidateToken(auth0JwksUrl, accessToken, v);
      if parsedAccess.Failure? {
        return effects + [Respond(InternalServerError(ValidationFailed("Failed to validate access token", parsedAccess.error)))];
      }
      if parsedAccess.value.valid {
        effects := effects + [EmitClaims("Access Token Claims", parsedAccess.value.jwt.claims)];
      } else {
        effects := effects + [Respond(InternalServerError(Message("Invalid ID token")))];
      }
      effects := effects + [Respond(SuccessPage)];
    }

    /**
     * A Sentinel login followed by its callback: the verifier sent to the token
     * endpoint is the one whose S256 challenge the login URL carried.
     */
    method SentinelLoginThenCallback(code: string, services: Services) returns (login: Response, effects: seq<Effect>)
      modifies this
      ensures login == TemporaryRedirect(Authorization(SentinelAuthorizationUrl(services.sha256)))
      ensures effects != [] && effects[0] == Exchange(sentinelConfig, code, Some(codeVerifier))
      ensures login.target.url.query["code_challenge"] ==
        [Pkce.GenerateCodeChallenge(effects[0].codeVerifier.value, services.sha256)]
      ensures login.target.url.query["state"] == [OauthStateString]
    {
      login := HandleSentinelLogin(services.sha256);
      effects := HandleSentinelCallback(OauthStateString, code, services);
    }
  }
}
