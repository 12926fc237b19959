/**
 * The SSO token store of `src/services/sso-auth.ts`: stored credentials and
 * gateway configuration, the cached access token with its expiry instant, the
 * login exchange with the SSO server, and the "valid token or log in again"
 * rule every gateway request goes through.
 *
 * Time is the integer `now` (milliseconds); the SSO server is the function
 * `server` from the login URL and request body to its reply.
 */
module SsoAuth {
  import opened Wrappers
  import opened Text
  import opened PlasmoStorage

  datatype Credentials = Credentials(userid: string, password: string, otp: Option<string>, otpType: Option<string>)

  datatype TokenResponse = TokenResponse(
    accessToken: string, scope: string, idToken: string, tokenType: string, expiresIn: int, nonce: string)

  datatype GeminiConfig = GeminiConfig(
    ssoUrl: string, geminiApiUrl: string, projectId: string, location: string, model: string)

  /**
   * A stored value: plain text, or the JSON text of a credentials record or a
   * configuration record (`JSON.stringify` / `JSON.parse` are taken as inverse).
   */
  datatype Stored = Str(s: string) | CredentialsJson(credentials: Credentials) | ConfigJson(config: GeminiConfig)

  type Store = map<Key, Stored>

  const TokenKey := SsoAccessToken
  const ExpiryKey := SsoTokenExpiry
  const CredentialsKey := SsoCredentials
  const ConfigKey := GeminiApiConfig

  /** The safety margin: a token is dropped five minutes before the server says it expires. */
  const ExpiryBufferMs := 5 * 60 * 1000

  /** The JSON body posted to the SSO server. */
  datatype LoginBody = LoginBody(userid: string, password: string, otp: string, otpType: string)

  /** What the SSO server does with one login request. */
  datatype LoginReply =
    | Replied(status: int, statusText: string, json: Option<TokenResponse>)  // `None`: the body is not JSON
    | Unreachable(message: string)                                           // `fetch` itself rejected

  type SsoServer = (string, LoginBody) -> LoginReply

  datatype AuthError =
    | NoStoredCredentials                       // neither a fresh token nor what is needed to get one
    | LoginRejected(status: int, statusText: string)
    | LoginUnreachable(message: string)
    | LoginBadJson

  predicate IsOk(status: int) {
    200 <= status <= 299
  }

  // ---------------------------------------------------------------------
  // The store as a value

  /** `JSON.parse` of the stored credentials, or `null` when nothing (or "") is stored. */
  function StoredCredentials(kv: Store): (c: Option<Credentials>)
    ensures c.Some? <==> CredentialsKey in kv && kv[CredentialsKey].CredentialsJson?
  {
    if CredentialsKey in kv && kv[CredentialsKey].CredentialsJson? then Some(kv[CredentialsKey].credentials) else None
  }

  function StoredConfig(kv: Store): (g: Option<GeminiConfig>)
    ensures g.Some? <==> ConfigKey in kv && kv[ConfigKey].ConfigJson?
  {
    if ConfigKey in kv && kv[ConfigKey].ConfigJson? then Some(kv[ConfigKey].config) else None
  }

  /** A stored value that is a non-empty string, i.e. truthy text. */
  predicate TruthyText(v: Option<Stored>) {
    v.Some? && v.value.Str? && v.value.s != ""
  }

  function Lookup(kv: Store, key: Key): Option<Stored> {
    if key in kv then Some(kv[key]) else None
  }

  /** The instant a token obtained at `now` stops being handed out. */
  function ExpiryTime(now: int, expiresIn: int): int {
    now + expiresIn * 1000 - ExpiryBufferMs
  }

  datatype TokenState = Absent | Expired | Fresh(token: string)

  /**
   * What `getAccessToken` finds at `now`: no token or no expiry, an expiry
   * already reached, or a token to hand out. An expiry that does not parse
   * (`NaN`) never compares as reached.
   */
  function TokenAt(kv: Store, now: int): TokenState {
    var token := Lookup(kv, TokenKey);
    var expiry := Lookup(kv, ExpiryKey);
    if !TruthyText(token) || !TruthyText(expiry) then Absent
    else
      var e := ParseInt(expiry.value.s);
      if e.Some? && now >= e.value then Expired else Fresh(token.value.s)
  }

  /** The store with a freshly obtained token and its expiry written as decimal text. */
  function WithToken(kv: Store, resp: TokenResponse, now: int): Store {
    kv[TokenKey := Str(resp.accessToken)][ExpiryKey := Str(IntToString(ExpiryTime(now, resp.expiresIn)))]
  }

  function WithoutTokens(kv: Store): Store {
    kv - {TokenKey, ExpiryKey}
  }

  /** The store after `getAccessToken`: an expired token and its expiry are removed. */
  function AfterTokenLookup(kv: Store, now: int): Store {
    if TokenAt(kv, now).Expired? then WithoutTokens(kv) else kv
  }

  /** `otp || "NONE"`, `otp_type || "PUSH"`. */
  function LoginBodyFor(c: Credentials): (b: LoginBody)
    ensures b.userid == c.userid && b.password == c.password
    ensures b.otp == "NONE" <==> c.otp.None? || c.otp.value in {"", "NONE"}
    ensures b.otpType == "PUSH" <==> c.otpType.None? || c.otpType.value in {"", "PUSH"}
    ensures c.otp.Some? && c.otp.value != "" ==> b.otp == c.otp.value
    ensures c.otpType.Some? && c.otpType.value != "" ==> b.otpType == c.otpType.value
  {
    LoginBody(c.userid, c.password,
              if c.otp.Some? && c.otp.value != "" then c.otp.value else "NONE",
              if c.otpType.Some? && c.otpType.value != "" then c.otpType.value else "PUSH")
  }

  /** How one login reply ends: the token response, or the error `performSSOLogin` throws. */
  function LoginOutcome(reply: LoginReply): Result<TokenResponse, AuthError> {
    match reply
    case Unreachable(m) => Err(LoginUnreachable(m))
    case Replied(status, statusText, json) =>
      if !IsOk(status) then Err(LoginRejected(status, statusText))
      else if json.None? then Err(LoginBadJson)
      else Ok(json.value)
  }

  /** `isSSOConfigured`: both records stored, with user, password and both URLs non-empty. */
  predicate IsSsoConfigured(kv: Store) {
    var c := StoredCredentials(kv);
    var g := StoredConfig(kv);
    c.Some? && g.Some?
    && c.value.userid != "" && c.value.password != ""
    && g.value.ssoUrl != "" && g.value.geminiApiUrl != ""
  }

  // ---------------------------------------------------------------------
  // Operations on the storage object

  method GetSsoCredentials(st: Storage<Stored>) returns (c: Option<Credentials>)
    ensures c == StoredCredentials(st.kv)
  {
    var v := st.Get(CredentialsKey);
    c := if v.Some? && v.value.CredentialsJson? then Some(v.value.credentials) else None;
  }

  method SetSsoCredentials(st: Storage<Stored>, c: Credentials)
    modifies st
    ensures st.kv == old(st.kv)[CredentialsKey := CredentialsJson(c)]
  {
    st.Set(CredentialsKey, CredentialsJson(c));
  }

  method GetGeminiConfig(st: Storage<Stored>) returns (g: Option<GeminiConfig>)
    ensures g == StoredConfig(st.kv)
  {
    var v := st.Get(ConfigKey);
    g := if v.Some? && v.value.ConfigJson? then Some(v.value.config) else None;
  }

  method SetGeminiConfig(st: Storage<Stored>, g: GeminiConfig)
    modifies st
    ensures st.kv == old(st.kv)[ConfigKey := ConfigJson(g)]
  {
    st.Set(ConfigKey, ConfigJson(g));
  }

  /** `getAccessToken`: the cached token if it is still fresh; an expired one is cleared. */
  method GetAccessToken(st: Storage<Stored>, now: int) returns (token: Option<string>)
    modifies st
    ensures token.Some? <==> TokenAt(old(st.kv), now).Fresh?
    ensures token.Some? ==> token.value == TokenAt(old(st.kv), now).token && token.value != ""
    ensures st.kv == AfterTokenLookup(old(st.kv), now)
  {
    var t := st.Get(TokenKey);
    var e := st.Get(ExpiryKey);
    if !TruthyText(t) || !TruthyText(e) {
      return None;
    }
    var expiry := ParseInt(e.value.s);
    if expiry.Some? && now >= expiry.value {
      ClearTokens(st);
      return None;
    }
    token := Some(t.value.s);
  }

  method SetAccessToken(st: Storage<Stored>, resp: TokenResponse, now: int)
    modifies st
    ensures st.kv == WithToken(old(st.kv), resp, now)
  {
    var expiryTime := ExpiryTime(now, resp.expiresIn);
    st.Set(TokenKey, Str(resp.accessToken));
    st.Set(ExpiryKey, Str(IntToString(expiryTime)));
  }

  method ClearTokens(st: Storage<Stored>)
    modifies st
    ensures st.kv == WithoutTokens(old(st.kv))
  {
    st.Remove(TokenKey);
    st.Remove(ExpiryKey);
  }

  /**
   * `performSSOLogin`: one POST to the SSO server; on a 2xx reply with a JSON
   * body the token is stored and returned, otherwise the store is untouched.
   */
  method PerformSsoLogin(st: Storage<Stored>, ssoUrl: string, c: Credentials, now: int, server: SsoServer)
    returns (r: Result<TokenResponse, AuthError>)
    modifies st
    ensures r == LoginOutcome(server(ssoUrl, LoginBodyFor(c)))
    ensures st.kv == if r.Ok? then WithToken(old(st.kv), r.value, now) else old(st.kv)
  {
    var reply := server(ssoUrl, LoginBodyFor(c));
    if reply.Unreachable? {
      return Err(LoginUnreachable(reply.message));
    }
    if !IsOk(reply.status) {
      return Err(LoginRejected(reply.status, reply.statusText));
    }
    if reply.json.None? {
      return Err(LoginBadJson);
    }
    SetAccessToken(st, reply.json.value, now);
    r := Ok(reply.json.value);
  }

  /** One login request sent to the SSO server. */
  datatype LoginRequest = LoginRequest(url: string, body: LoginBody)

  /** The store after a login attempt: the new token on success, unchanged otherwise. */
  function AfterLogin(kv: Store, outcome: Result<TokenResponse, AuthError>, now: int): Store {
    if outcome.Ok? then WithToken(kv, outcome.value, now) else kv
  }

  /** What `getValidAccessToken` yields: the token or error, the logins it sent, the new store. */
  datatype TokenFetch = TokenFetch(result: Result<string, AuthError>, logins: seq<LoginRequest>, kv: Store)

  /** `getValidAccessToken` as a function of the store, the clock and the SSO server. */
  function ValidAccessToken(kv: Store, now: int, server: SsoServer): TokenFetch {
    var state := TokenAt(kv, now);
    if state.Fresh? then TokenFetch(Ok(state.token), [], kv)
    else
      var kv1 := AfterTokenLookup(kv, now);
      var c := StoredCredentials(kv1);
      var g := StoredConfig(kv1);
      if c.None? || g.None? then TokenFetch(Err(NoStoredCredentials), [], kv1)
      else
        var req := LoginRequest(g.value.ssoUrl, LoginBodyFor(c.value));
        var outcome := LoginOutcome(server(req.url, req.body));
        TokenFetch(if outcome.Ok? then Ok(outcome.value.accessToken) else Err(outcome.error),
                   [req], AfterLogin(kv1, outcome, now))
  }

  /**
   * `getValidAccessToken`: the cached token when fresh; otherwise one login
   * with the stored credentials, or an error when either record is missing.
   */
  method GetValidAccessToken(st: Storage<Stored>, now: int, server: SsoServer)
    returns (r: Result<string, AuthError>, logins: seq<LoginRequest>)
    modifies st
    ensures TokenFetch(r, logins, st.kv) == ValidAccessToken(old(st.kv), now, server)
  {
    logins := [];
    var token := GetAccessToken(st, now);
    if token.Some? {
      return Ok(token.value), logins;
    }
    var c := GetSsoCredentials(st);
    var g := GetGeminiConfig(st);
    if c.None? || g.None? {
      return Err(NoStoredCredentials), logins;
    }
    logins := [LoginRequest(g.value.ssoUrl, LoginBodyFor(c.value))];
    var resp := PerformSsoLogin(st, g.value.ssoUrl, c.value, now, server);
    if resp.Err? {
      return Err(resp.error), logins;
    }
    r := Ok(resp.value.accessToken);
  }

  method IsSsoConfiguredNow(st: Storage<Stored>) returns (b: bool)
    ensures b == IsSsoConfigured(st.kv)
  {
    var c := GetSsoCredentials(st);
    var g := GetGeminiConfig(st);
    b := c.Some? && g.Some? && c.value.userid != "" && c.value.password != ""
         && g.value.ssoUrl != "" && g.value.geminiApiUrl != "";
  }

  // ---------------------------------------------------------------------
  // Properties of the store

  /**
   * A token stored at `t0` is handed out until, and only until, five minutes
   * before the expiry the server announced; an empty token is never handed out.
   */
  lemma TokenFreshUntilBuffer(kv: Store, resp: TokenResponse, t0: int, now: int)
    ensures TokenAt(WithToken(kv, resp, t0), now) ==
      if resp.accessToken == "" then Absent
      else if now >= t0 + resp.expiresIn * 1000 - 300000 then Expired
      else Fresh(resp.accessToken)
  {
    var kv' := WithToken(kv, resp, t0);
    var e := ExpiryTime(t0, resp.expiresIn);
    ParseIntToString(e);
    assert IntToString(e) != "";
    assert Lookup(kv', ExpiryKey) == Some(Str(IntToString(e)));
    assert Lookup(kv', TokenKey) == Some(Str(resp.accessToken));
  }

  /** Dropping the tokens never touches the credentials, the configuration or any other key. */
  lemma ClearingKeepsRest(kv: Store, now: int)
    ensures StoredCredentials(AfterTokenLookup(kv, now)) == StoredCredentials(kv)
    ensures StoredConfig(AfterTokenLookup(kv, now)) == StoredConfig(kv)
    ensures IsSsoConfigured(AfterTokenLookup(kv, now)) == IsSsoConfigured(kv)
    ensures forall k :: k in kv && k != TokenKey && k != ExpiryKey ==>
      k in AfterTokenLookup(kv, now) && AfterTokenLookup(kv, now)[k] == kv[k]
  {
    assert CredentialsKey != TokenKey && CredentialsKey != ExpiryKey;
    assert ConfigKey != TokenKey && ConfigKey != ExpiryKey;
  }

  /** After a lookup that found the token expired, the next lookup finds nothing. */
  lemma ExpiredThenAbsent(kv: Store, now: int, later: int)
    requires TokenAt(kv, now).Expired?
    ensures TokenAt(AfterTokenLookup(kv, now), later) == Absent
  {
    assert TokenKey !in AfterTokenLookup(kv, now);
  }

  /** A fresh cached token is handed out without any login and without touching the store. */
  lemma FreshTokenNoLogin(kv: Store, now: int, server: SsoServer)
    requires TokenAt(kv, now).Fresh?
    ensures ValidAccessToken(kv, now, server) == TokenFetch(Ok(TokenAt(kv, now).token), [], kv)
  {
  }

  /** Without a fresh token and with a record missing, the fetch fails before any login. */
  lemma StaleTokenNoRecords(kv: Store, now: int, server: SsoServer)
    requires !TokenAt(kv, now).Fresh?
    requires StoredCredentials(kv).None? || StoredConfig(kv).None?
    ensures ValidAccessToken(kv, now, server).result == Err(NoStoredCredentials)
    ensures ValidAccessToken(kv, now, server).logins == []
  {
    ClearingKeepsRest(kv, now);
  }

  /**
   * Without a fresh token and with both records stored, exactly one login goes
   * to the configured SSO URL with the stored credentials, and the fetch
   * succeeds exactly when that login does, returning its access token.
   */
  lemma StaleTokenLogsIn(kv: Store, now: int, server: SsoServer)
    requires !TokenAt(kv, now).Fresh?
    requires StoredCredentials(kv).Some? && StoredConfig(kv).Some?
    ensures var f := ValidAccessToken(kv, now, server);
      var req := LoginRequest(StoredConfig(kv).value.ssoUrl, LoginBodyFor(StoredCredentials(kv).value));
      var outcome := LoginOutcome(server(req.url, req.body));
      && f.logins == [req]
      && (f.result.Ok? <==> outcome.Ok?)
      && (outcome.Ok? ==> f.result.value == outcome.value.accessToken)
  {
    ClearingKeepsRest(kv, now);
  }

  /** The fetch never alters the stored credentials or configuration. */
  lemma FetchKeepsRecords(kv: Store, now: int, server: SsoServer)
    ensures StoredCredentials(ValidAccessToken(kv, now, server).kv) == StoredCredentials(kv)
    ensures StoredConfig(ValidAccessToken(kv, now, server).kv) == StoredConfig(kv)
  {
    ClearingKeepsRest(kv, now);
    var kv1 := AfterTokenLookup(kv, now);
    forall resp: TokenResponse
      ensures StoredCredentials(WithToken(kv1, resp, now)) == StoredCredentials(kv1)
      ensures StoredConfig(WithToken(kv1, resp, now)) == StoredConfig(kv1)
    {
    }
  }

  /** Writing a record and reading it back gives the same record. */
  lemma SetThenGet(kv: Store, c: Credentials, g: GeminiConfig)
    ensures StoredCredentials(kv[CredentialsKey := CredentialsJson(c)]) == Some(c)
    ensures StoredConfig(kv[ConfigKey := ConfigJson(g)]) == Some(g)
    ensures StoredConfig(kv[CredentialsKey := CredentialsJson(c)]) == StoredConfig(kv)
    ensures StoredCredentials(kv[ConfigKey := ConfigJson(g)]) == StoredCredentials(kv)
  {
  }
}
