/**
 * The part of golang.org/x/oauth2 and net/url the handlers rely on: query
 * parameter maps (`url.Values`) and `Set`, `Config.AuthCodeURL`, and the
 * `Token` that `Config.Exchange` returns with its `Extra` lookup.
 */
module OAuth2 {
  import opened Json
  import opened Wrappers

  /** `url.Values`: each parameter name with its list of values. */
  type Values = map<string, seq<string>>

  /** `Values.Set(key, value)`: `key` now has the single value `value`; every other parameter is as it was. */
  function Set(q: Values, key: string, value: string): (r: Values)
    ensures r.Keys == q.Keys + {key}
    ensures r[key] == [value]
    ensures forall k :: k in q && k != key ==> r[k] == q[k]
  {
    q[key := [value]]
  }

  /** A provider's two endpoints. */
  datatype Endpoint = Endpoint(authUrl: string, tokenUrl: string)

  /** `oauth2.Config`. */
  datatype Config = Config(clientId: string, clientSecret: string, redirectUrl: string, endpoint: Endpoint, scopes: seq<string>)

  /** An authorization URL: the endpoint and its query parameters. */
  datatype AuthUrl = AuthUrl(endpoint: string, query: Values)

  /** `strings.Join(scopes, " ")`. */
  function JoinScopes(scopes: seq<string>): string
    decreases |scopes|
  {
    if scopes == [] then ""
    else if |scopes| == 1 then scopes[0]
    else scopes[0] + " " + JoinScopes(scopes[1..])
  }

  /** The parameters oauth2 may place in an authorization URL. */
  predicate IsAuthCodeParameter(k: string) {
    k == "response_type" || k == "client_id" || k == "redirect_uri" || k == "scope" || k == "state"
  }

  /**
   * `Config.AuthCodeURL(state)`: `response_type=code` and `client_id` always,
   * `redirect_uri`, `scope` and `state` when they are not empty, and nothing else.
   */
  function AuthCodeURL(c: Config, state: string): (u: AuthUrl)
    ensures u.endpoint == c.endpoint.authUrl
    ensures forall k :: k in u.query ==> IsAuthCodeParameter(k)
    ensures "response_type" in u.query && u.query["response_type"] == ["code"]
    ensures "client_id" in u.query && u.query["client_id"] == [c.clientId]
    ensures ("redirect_uri" in u.query <==> c.redirectUrl != "") && (c.redirectUrl != "" ==> u.query["redirect_uri"] == [c.redirectUrl])
    ensures ("scope" in u.query <==> c.scopes != []) && (c.scopes != [] ==> u.query["scope"] == [JoinScopes(c.scopes)])
    ensures ("state" in u.query <==> state != "") && (state != "" ==> u.query["state"] == [state])
  {
    var v := map["response_type" := ["code"], "client_id" := [c.clientId]];
    var v := if c.redirectUrl != "" then Set(v, "redirect_uri", c.redirectUrl) else v;
    var v := if c.scopes != [] then Set(v, "scope", JoinScopes(c.scopes)) else v;
    var v := if state != "" then Set(v, "state", state) else v;
    AuthUrl(c.endpoint.authUrl, v)
  }

  /** The `*oauth2.Token` of a successful exchange, with the raw JSON fields of the response. */
  datatype Token = Token(accessToken: string, tokenType: string, expiry: int, raw: Object)

  /**
   * `Token.Extra(key)`: the raw field, or nil (None) when it is absent or JSON
   * `null`, which decodes to a nil interface.
   */
  function Extra(t: Token, key: string): (r: Option<JsonValue>)
    ensures r.Some? <==> key in t.raw && t.raw[key] != JNull
    ensures r.Some? ==> r.value == t.raw[key]
  {
    if key in t.raw && !t.raw[key].JNull? then Some(t.raw[key]) else None
  }

  /** `Token.Extra(key).(string)`: the string, or None where Go's type assertion panics. */
  function ExtraString(t: Token, key: string): (r: Option<string>)
    ensures r.Some? <==> key in t.raw && t.raw[key].JString?
    ensures r.Some? ==> t.raw[key] == JString(r.value)
  {
    match Extra(t, key)
    case Some(JString(s)) => Some(s)
    case _ => None
  }

  /**
   * The assertion `Extra(key).(string)` succeeds with s exactly when `Extra(key)`
   * is the string s; once `Extra(key)` is not nil, as the Auth0 callback checks
   * first, it fails exactly when the field holds a non-string value.
   */
  lemma ExtraStringIsStringExtra(t: Token, key: string, s: string)
    ensures ExtraString(t, key) == Some(s) <==> Extra(t, key) == Some(JString(s))
    ensures ExtraString(t, key).Some? ==> Extra(t, key).Some?
    ensures Extra(t, key).Some? ==> (ExtraString(t, key).None? <==> !Extra(t, key).value.JString?)
  {
  }

  /** A JSON `null` field and a missing field look the same through `Extra`: both are nil. */
  lemma NullExtraIsAbsent(t: Token, key: string)
    ensures Extra(t.(raw := t.raw[key := JNull]), key) == None
    ensures Extra(t.(raw := t.raw - {key}), key) == None
  {
  }

  /** `Extra(key)` reads only the `key` field of the response. */
  lemma ExtraReadsOnlyItsField(t: Token, key: string, other: string, value: JsonValue)
    requires other != key
    ensures Extra(t.(raw := t.raw[other := value]), key) == Extra(t, key)
  {
  }
}
