/**
 * The SSO-gated Gemini gateway client of `src/services/gemini-api.ts`: every
 * request carries a Bearer token from the token store, a 401 leads to one
 * fresh login and one retry, `generateContent` falls back over six URL
 * shapes, and the streaming endpoint's newline-delimited body is cut into
 * lines whose first candidate part is yielded.
 *
 * The gateway is the function `gw` from URL, `Authorization` header value and
 * request body to the HTTP reply; `JSON.parse` of a stream line is `parse`.
 */
module GeminiApi {
  import opened Wrappers
  import opened Text
  import opened PlasmoStorage
  import opened SsoAuth
  import opened LangChainContent

  datatype Role = User | Model

  /**
   * A request turn: its role and the `text` of each of its parts. `text` is
   * typed `string`, but `JSON.stringify` sends whatever the caller put there,
   * and the chat model puts LangChain content there unchanged.
   */
  datatype Content = Content(role: Role, parts: seq<MessageContent>)

  datatype SafetySetting = SafetySetting(category: string, threshold: string)

  datatype GenerationConfig = GenerationConfig(temperature: real, topP: real, topK: real, maxOutputTokens: Option<real>)

  datatype GeminiRequest = GeminiRequest(
    contents: seq<Content>, safetySettings: seq<SafetySetting>, generationConfig: GenerationConfig)

  /** The optional `options` argument; an absent `options` is all `None`. */
  datatype Options = Options(
    temperature: Option<real>, topP: Option<real>, topK: Option<real>, maxOutputTokens: Option<real>,
    safetySettings: Option<seq<SafetySetting>>)

  datatype CandidateContent = CandidateContent(role: string, parts: Option<seq<string>>)
  datatype Candidate = Candidate(content: Option<CandidateContent>)
  datatype GeminiResponse = GeminiResponse(candidates: Option<seq<Candidate>>)

  /**
   * An HTTP reply: its status line, its body as text, its body as JSON (`None`
   * when it does not parse) and, for a streaming reply, the decoded text of
   * each read of the body stream (`None` when there is no body).
   */
  datatype HttpReply =
    | Response(status: int, statusText: string, bodyText: string, json: Option<GeminiResponse>, chunks: Option<seq<string>>)
    | NetworkError(message: string)

  type Gateway = (string, string, GeminiRequest) -> HttpReply

  datatype ApiError =
    | NotConfigured
    | AuthFailed                                   // no token could be obtained before the first request
    | RefreshFailed                                // anything went wrong after a 401
    | RequestFailed(status: int, statusText: string, body: string)
    | Network(message: string)
    | NoCandidates
    | MalformedResponse                            // a JSON body without the expected shape
    | NoBody
    | AllFormatsFailed

  /** One outgoing request: a login to the SSO server or a POST to the gateway. */
  datatype Call = Login(req: LoginRequest) | Post(url: string, authorization: string)

  // ---------------------------------------------------------------------
  // Building requests

  /** The `Authorization` header value of section 2.1 of RFC 6750. */
  function Bearer(token: string): (h: string)
    ensures StartsWith(h, "Bearer ") && h[7..] == token
  {
    "Bearer " + token
  }

  const DefaultSafety := [SafetySetting("HARM_CATEGORY_SEXUALLY_EXPLICIT", "BLOCK_LOW_AND_ABOVE")]

  /** `x || d` for an optional number: absent and 0 both give the default. */
  function OrDefault(x: Option<real>, d: real): real {
    if x.Some? && x.value != 0.0 then x.value else d
  }

  /**
   * The request body with its defaults: the single SEXUALLY_EXPLICIT rule
   * unless settings are given (an empty list is kept, arrays being truthy),
   * 0.2 / 0.8 / 40 for an absent or zero temperature / topP / topK, and the
   * output-token bound passed through.
   */
  function BuildRequest(contents: seq<Content>, opts: Options): (r: GeminiRequest)
    ensures r.contents == contents
    ensures r.safetySettings == if opts.safetySettings.Some? then opts.safetySettings.value else DefaultSafety
    ensures r.generationConfig.temperature != 0.0 && r.generationConfig.topP != 0.0 && r.generationConfig.topK != 0.0
    ensures r.generationConfig.temperature == 0.2 <==> opts.temperature.None? || opts.temperature.value in {0.0, 0.2}
    ensures r.generationConfig.topP == 0.8 <==> opts.topP.None? || opts.topP.value in {0.0, 0.8}
    ensures r.generationConfig.topK == 40.0 <==> opts.topK.None? || opts.topK.value in {0.0, 40.0}
    ensures r.generationConfig.maxOutputTokens == opts.maxOutputTokens
  {
    GeminiRequest(
      contents,
      if opts.safetySettings.Some? then opts.safetySettings.value else DefaultSafety,
      GenerationConfig(OrDefault(opts.temperature, 0.2), OrDefault(opts.topP, 0.8),
                       OrDefault(opts.topK, 40.0), opts.maxOutputTokens))
  }

  /** A supplied non-zero sampling value always reaches the request unchanged. */
  lemma SuppliedValuesKept(contents: seq<Content>, opts: Options)
    requires opts.temperature.Some? && opts.temperature.value != 0.0
    requires opts.topP.Some? && opts.topP.value != 0.0
    requires opts.topK.Some? && opts.topK.value != 0.0
    ensures BuildRequest(contents, opts).generationConfig
         == GenerationConfig(opts.temperature.value, opts.topP.value, opts.topK.value, opts.maxOutputTokens)
  {
  }

  function SingleUserTurn(prompt: MessageContent): seq<Content> {
    [Content(User, [prompt])]
  }

  /** The six URL shapes `generateContent` tries, in order. */
  function UrlFormats(g: GeminiConfig): (urls: seq<string>)
    ensures |urls| == 6
    ensures forall i :: 0 <= i < 6 ==> StartsWith(urls[i], g.geminiApiUrl + "/")
    ensures StartsWith(urls[0], FullPath(g)) && StartsWith(StreamingUrl(g), FullPath(g))
  {
    var base := g.geminiApiUrl;
    var m := g.model + ":generateContent";
    [ FullPath(g) + "generateContent",
      base + "/v1/models/" + m,
      base + "/v1/projects/" + g.projectId + "/models/" + m,
      base + "/ai/v1/models/" + m,
      base + "/v1beta/models/" + m,
      base + "/gemini/v1/models/" + m ]
  }

  /** The Vertex AI path up to the method name. */
  function FullPath(g: GeminiConfig): string {
    g.geminiApiUrl + "/v1/projects/" + g.projectId + "/locations/" + g.location
    + "/publishers/google/models/" + g.model + ":"
  }

  function StreamingUrl(g: GeminiConfig): (u: string)
    ensures StartsWith(u, FullPath(g))
  {
    FullPath(g) + "streamGenerateContent"
  }

  /** `data.candidates[0].content.parts[0].text`, or the error reading it raises. */
  function FirstText(reply: HttpReply): (r: Result<string, ApiError>)
    requires reply.Response?
    ensures r.Ok? <==> reply.json.Some? && FirstPart(reply.json.value).Some?
    ensures r.Ok? ==> r.value == FirstPart(reply.json.value).value
    ensures r == Err(NoCandidates) <==>
      reply.json.Some? && (reply.json.value.candidates.None? || reply.json.value.candidates.value == [])
  {
    if reply.json.None? then Err(MalformedResponse)
    else
      var cands := reply.json.value.candidates;
      if cands.None? || cands.value == [] then Err(NoCandidates)
      else if FirstPart(reply.json.value).None? then Err(MalformedResponse)
      else Ok(FirstPart(reply.json.value).value)
  }

  /** The first part of the first candidate, when the response has one. */
  function FirstPart(resp: GeminiResponse): Option<string> {
    if resp.candidates.Some? && |resp.candidates.value| > 0
       && resp.candidates.value[0].content.Some?
       && resp.candidates.value[0].content.value.parts.Some?
       && |resp.candidates.value[0].content.value.parts.value| > 0
    then Some(resp.candidates.value[0].content.value.parts.value[0])
    else None
  }

  // ---------------------------------------------------------------------
  // The authenticated request

  function LoginCalls(logins: seq<LoginRequest>): (calls: seq<Call>)
    ensures |calls| == |logins|
    ensures forall i :: 0 <= i < |logins| ==> calls[i] == Login(logins[i])
  {
    if logins == [] then [] else [Login(logins[0])] + LoginCalls(logins[1..])
  }

  /** The gateway requests among `calls`, in order. */
  function Posts(calls: seq<Call>): seq<Call> {
    if calls == [] then []
    else Posts(calls[..|calls| - 1]) + (if calls[|calls| - 1].Post? then [calls[|calls| - 1]] else [])
  }

  lemma {:induction false} PostsAppend(a: seq<Call>, b: seq<Call>)
    ensures Posts(a + b) == Posts(a) + Posts(b)
    decreases |b|
  {
    if b != [] {
      var b' := b[..|b| - 1];
      assert (a + b)[..|a + b| - 1] == a + b';
      PostsAppend(a, b');
    } else {
      assert a + b == a;
    }
  }

  lemma {:induction false} PostsOfLogins(logins: seq<LoginRequest>)
    ensures Posts(LoginCalls(logins)) == []
    decreases |logins|
  {
    if logins != [] {
      var calls := LoginCalls(logins);
      assert calls == [Login(logins[0])] + LoginCalls(logins[1..]);
      PostsAppend([Login(logins[0])], LoginCalls(logins[1..]));
      PostsOfLogins(logins[1..]);
      assert Posts([Login(logins[0])]) == Posts([]) + [];
    }
  }

  /** What `makeAuthenticatedRequest` yields: the reply or error, the requests sent, the new store. */
  datatype Exchange = Exchange(result: Result<HttpReply, ApiError>, calls: seq<Call>, kv: Store)

  /** The refresh after a 401: the stored records, then one login. */
  function RefreshLogin(kv: Store, now: int, server: SsoServer): Option<LoginRequest> {
    var c := StoredCredentials(kv);
    var g := StoredConfig(kv);
    if c.None? || g.None? then None else Some(LoginRequest(g.value.ssoUrl, LoginBodyFor(c.value)))
  }

  /** `makeAuthenticatedRequest` as a function of the store, the clock, the SSO server and the gateway. */
  function Authenticated(kv: Store, now: int, server: SsoServer, gw: Gateway, url: string, req: GeminiRequest): Exchange {
    AuthenticatedWith(ValidAccessToken(kv, now, server), now, server, gw, url, req)
  }

  /** The request once the token lookup `f` is done. */
  function AuthenticatedWith(f: TokenFetch, now: int, server: SsoServer, gw: Gateway, url: string, req: GeminiRequest): Exchange {
    var pre := LoginCalls(f.logins);
    if f.result.Err? then Exchange(Err(AuthFailed), pre, f.kv)
    else
      var first := gw(url, Bearer(f.result.value), req);
      var calls1 := pre + [Post(url, Bearer(f.result.value))];
      if first.NetworkError? then Exchange(Err(Network(first.message)), calls1, f.kv)
      else if first.status == 401 then
        Refreshed(f.kv, now, server, gw, url, req, calls1)
      else if !IsOk(first.status) then
        Exchange(Err(RequestFailed(first.status, first.statusText, first.bodyText)), calls1, f.kv)
      else Exchange(Ok(first), calls1, f.kv)
  }

  /** Lines 98-131: log in again and retry once; every failure becomes `RefreshFailed`. */
  function Refreshed(kv: Store, now: int, server: SsoServer, gw: Gateway, url: string, req: GeminiRequest,
                     calls: seq<Call>): Exchange
  {
    var login := RefreshLogin(kv, now, server);
    if login.None? then Exchange(Err(RefreshFailed), calls, kv)
    else
      var outcome := LoginOutcome(server(login.value.url, login.value.body));
      var kv2 := AfterLogin(kv, outcome, now);
      var calls2 := calls + [Login(login.value)];
      if outcome.Err? then Exchange(Err(RefreshFailed), calls2, kv2)
      else
        var retry := gw(url, Bearer(outcome.value.accessToken), req);
        var calls3 := calls2 + [Post(url, Bearer(outcome.value.accessToken))];
        if retry.NetworkError? || !IsOk(retry.status) then Exchange(Err(RefreshFailed), calls3, kv2)
        else Exchange(Ok(retry), calls3, kv2)
  }

  method MakeAuthenticatedRequest(st: Storage<Stored>, now: int, server: SsoServer, gw: Gateway,
                                  url: string, req: GeminiRequest)
    returns (r: Result<HttpReply, ApiError>, calls: seq<Call>)
    modifies st
    ensures Exchange(r, calls, st.kv) == Authenticated(old(st.kv), now, server, gw, url, req)
  {
    var token, logins := GetValidAccessToken(st, now, server);
    calls := LoginCalls(logins);
    if token.Err? {
      return Err(AuthFailed), calls;
    }
    var response := gw(url, Bearer(token.value), req);
    calls := calls + [Post(url, Bearer(token.value))];
    if response.NetworkError? {
      return Err(Network(response.message)), calls;
    }
    if response.status == 401 {
      var c := GetSsoCredentials(st);
      var g := GetGeminiConfig(st);
      if c.None? || g.None? {
        return Err(RefreshFailed), calls;
      }
      calls := calls + [Login(LoginRequest(g.value.ssoUrl, LoginBodyFor(c.value)))];
      var relogin := PerformSsoLogin(st, g.value.ssoUrl, c.value, now, server);
      if relogin.Err? {
        return Err(RefreshFailed), calls;
      }
      var retry := gw(url, Bearer(relogin.value.accessToken), req);
      calls := calls + [Post(url, Bearer(relogin.value.accessToken))];
      if retry.NetworkError? || !IsOk(retry.status) {
        return Err(RefreshFailed), calls;
      }
      return Ok(retry), calls;
    }
    if !IsOk(response.status) {
      return Err(RequestFailed(response.status, response.statusText, response.bodyText)), calls;
    }
    r := Ok(response);
  }

  /** Without a token, nothing is posted and the error is `AuthFailed`. */
  lemma NoTokenNoPost(kv: Store, now: int, server: SsoServer, gw: Gateway, url: string, req: GeminiRequest)
    requires ValidAccessToken(kv, now, server).result.Err?
    ensures Authenticated(kv, now, server, gw, url, req).result == Err(AuthFailed)
    ensures Posts(Authenticated(kv, now, server, gw, url, req).calls) == []
  {
    PostsOfLogins(ValidAccessToken(kv, now, server).logins);
  }

  /**
   * A first reply other than 401 ends the exchange after one POST: an ok reply
   * is returned as it is, any other status is an error carrying status and body.
   */
  lemma NoRetryWithout401(kv: Store, now: int, server: SsoServer, gw: Gateway, url: string, req: GeminiRequest)
    requires ValidAccessToken(kv, now, server).result.Ok?
    requires var first := gw(url, Bearer(ValidAccessToken(kv, now, server).result.value), req);
      first.NetworkError? || first.status != 401
    ensures var token := ValidAccessToken(kv, now, server).result.value;
      var first := gw(url, Bearer(token), req);
      var e := Authenticated(kv, now, server, gw, url, req);
      && Posts(e.calls) == [Post(url, Bearer(token))]
      && (first.Response? && IsOk(first.status) ==> e.result == Ok(first))
      && (first.Response? && !IsOk(first.status) ==>
            e.result == Err(RequestFailed(first.status, first.statusText, first.bodyText)))
  {
    var f := ValidAccessToken(kv, now, server);
    PostsOfLogins(f.logins);
    PostsAppend(LoginCalls(f.logins), [Post(url, Bearer(f.result.value))]);
  }

  /**
   * After a 401: at most one more POST, sent only after a successful login and
   * carrying that login's token; the outcome is the ok retry or `RefreshFailed`.
   */
  lemma RetryOnceAfter401(kv: Store, now: int, server: SsoServer, gw: Gateway, url: string, req: GeminiRequest)
    requires ValidAccessToken(kv, now, server).result.Ok?
    requires var first := gw(url, Bearer(ValidAccessToken(kv, now, server).result.value), req);
      first.Response? && first.status == 401
    ensures var f := ValidAccessToken(kv, now, server);
      var e := Authenticated(kv, now, server, gw, url, req);
      var login := RefreshLogin(f.kv, now, server);
      && 1 <= |Posts(e.calls)| <= 2
      && Posts(e.calls)[0] == Post(url, Bearer(f.result.value))
      && (|Posts(e.calls)| == 2 ==>
            && login.Some?
            && LoginOutcome(server(login.value.url, login.value.body)).Ok?
            && Posts(e.calls)[1] == Post(url, Bearer(LoginOutcome(server(login.value.url, login.value.body)).value.accessToken)))
      && (e.result.Ok? || e.result == Err(RefreshFailed))
      && (e.result.Ok? ==> |Posts(e.calls)| == 2 && e.result.value.Response? && IsOk(e.result.value.status))
  {
    var f := ValidAccessToken(kv, now, server);
    RetryOnceAfter401With(f, now, server, gw, url, req);
  }

  lemma RetryOnceAfter401With(f: TokenFetch, now: int, server: SsoServer, gw: Gateway, url: string, req: GeminiRequest)
    requires f.result.Ok?
    requires var first := gw(url, Bearer(f.result.value), req);
      first.Response? && first.status == 401
    ensures var e := AuthenticatedWith(f, now, server, gw, url, req);
      var login := RefreshLogin(f.kv, now, server);
      && 1 <= |Posts(e.calls)| <= 2
      && Posts(e.calls)[0] == Post(url, Bearer(f.result.value))
      && (|Posts(e.calls)| == 2 ==>
            && login.Some?
            && LoginOutcome(server(login.value.url, login.value.body)).Ok?
            && Posts(e.calls)[1] == Post(url, Bearer(LoginOutcome(server(login.value.url, login.value.body)).value.accessToken)))
      && (e.result.Ok? || e.result == Err(RefreshFailed))
      && (e.result.Ok? ==> |Posts(e.calls)| == 2 && e.result.value.Response? && IsOk(e.result.value.status))
  {
    var calls1 := LoginCalls(f.logins) + [Post(url, Bearer(f.result.value))];
    PostsOfLogins(f.logins);
    PostsAppend(LoginCalls(f.logins), [Post(url, Bearer(f.result.value))]);
    RefreshRetriesOnce(f.kv, now, server, gw, url, req, calls1, Post(url, Bearer(f.result.value)));
  }

  /** After a 401 that followed exactly one post, the refresh sends at most one more post. */
  lemma RefreshRetriesOnce(kv: Store, now: int, server: SsoServer, gw: Gateway, url: string, req: GeminiRequest,
                           calls: seq<Call>, first: Call)
    requires Posts(calls) == [first]
    ensures var e := Refreshed(kv, now, server, gw, url, req, calls);
      var login := RefreshLogin(kv, now, server);
      && 1 <= |Posts(e.calls)| <= 2
      && Posts(e.calls)[0] == first
      && (|Posts(e.calls)| == 2 ==>
            && login.Some?
            && LoginOutcome(server(login.value.url, login.value.body)).Ok?
            && Posts(e.calls)[1] == Post(url, Bearer(LoginOutcome(server(login.value.url, login.value.body)).value.accessToken)))
      && (e.result.Ok? || e.result == Err(RefreshFailed))
      && (e.result.Ok? ==> |Posts(e.calls)| == 2 && e.result.value.Response? && IsOk(e.result.value.status))
  {
    var login := RefreshLogin(kv, now, server);
    if login.Some? {
      var outcome := LoginOutcome(server(login.value.url, login.value.body));
      PostsAppend(calls, [Login(login.value)]);
      assert Posts([Login(login.value)]) == Posts([]) + [];
      if outcome.Ok? {
        var p := Post(url, Bearer(outcome.value.accessToken));
        PostsAppend(calls + [Login(login.value)], [p]);
      }
    }
  }

  // ---------------------------------------------------------------------
  // generateContent: ordered fallback over the URL shapes

  /**
   * The fallback from URL `i` on: the URLs tried, the outcome of each, the
   * requests sent and the final store.
   */
  datatype Fallback = Fallback(result: Result<string, ApiError>, tried: seq<string>,
                               outcomes: seq<Result<string, ApiError>>, calls: seq<Call>, kv: Store)

  function AttemptOutcome(e: Exchange): Result<string, ApiError> {
    if e.result.Ok? then (if e.result.value.Response? then FirstText(e.result.value) else Err(MalformedResponse))
    else Err(e.result.error)
  }

  /** One attempt of the fallback: an authenticated request to one URL from a given store. */
  type Attempter = (Store, string) -> Exchange

  function AttemptWith(now: int, server: SsoServer, gw: Gateway, req: GeminiRequest): Attempter {
    (kv: Store, url: string) => Authenticated(kv, now, server, gw, url, req)
  }

  /** Try `urls[i..]` in order and stop at the first success or after the last URL. */
  function TryUrls(attempt: Attempter, kv: Store, urls: seq<string>, i: nat): Fallback
    requires i < |urls|
    decreases |urls| - i
  {
    var e := attempt(kv, urls[i]);
    var out := AttemptOutcome(e);
    if out.Ok? || i == |urls| - 1 then Fallback(out, [urls[i]], [out], e.calls, e.kv)
    else
      var rest := TryUrls(attempt, e.kv, urls, i + 1);
      Fallback(rest.result, [urls[i]] + rest.tried, [out] + rest.outcomes, e.calls + rest.calls, rest.kv)
  }

  /**
   * The fallback tries the URLs in order from `i`, stops at the first success,
   * and fails only after trying every URL, with the last failure as its result.
   */
  lemma {:induction false} TryUrlsShape(attempt: Attempter, kv: Store, urls: seq<string>, i: nat)
    requires i < |urls|
    decreases |urls| - i
    ensures var fb := TryUrls(attempt, kv, urls, i);
      && 1 <= |fb.tried| <= |urls| - i && fb.tried == urls[i..i + |fb.tried|]
      && |fb.outcomes| == |fb.tried| && fb.result == fb.outcomes[|fb.outcomes| - 1]
      && (forall k :: 0 <= k < |fb.outcomes| - 1 ==> fb.outcomes[k].Err?)
      && (fb.result.Err? ==> fb.tried == urls[i..])
  {
    var e := attempt(kv, urls[i]);
    var out := AttemptOutcome(e);
    if !(out.Ok? || i == |urls| - 1) {
      TryUrlsShape(attempt, e.kv, urls, i + 1);
      var rest := TryUrls(attempt, e.kv, urls, i + 1);
      assert urls[i..i + 1 + |rest.tried|] == [urls[i]] + urls[i + 1..i + 1 + |rest.tried|];
      assert forall k :: 1 <= k < |rest.outcomes| + 1 ==> ([out] + rest.outcomes)[k] == rest.outcomes[k - 1];
    }
  }

  /** `generateContent` as a function: no request at all without a stored configuration. */
  function GenerateSpec(kv: Store, now: int, server: SsoServer, gw: Gateway, prompt: string, opts: Options): Fallback {
    var g := StoredConfig(kv);
    if g.None? then Fallback(Err(NotConfigured), [], [], [], kv)
    else
      var req := BuildRequest(SingleUserTurn(Plain(prompt)), opts);
      TryUrls(AttemptWith(now, server, gw, req), kv, UrlFormats(g.value), 0)
  }

  /** One URL shape of `generateContent`: the request and the text of its reply. */
  method Attempt(st: Storage<Stored>, now: int, server: SsoServer, gw: Gateway, url: string, req: GeminiRequest)
    returns (out: Result<string, ApiError>, calls: seq<Call>)
    modifies st
    ensures var e := AttemptWith(now, server, gw, req)(old(st.kv), url);
      out == AttemptOutcome(e) && calls == e.calls && st.kv == e.kv
  {
    var e;
    e, calls := MakeAuthenticatedRequest(st, now, server, gw, url, req);
    out := if e.Err? then Err(e.error) else if e.value.Response? then FirstText(e.value) else Err(MalformedResponse);
  }

  method GenerateContent(st: Storage<Stored>, now: int, server: SsoServer, gw: Gateway, prompt: string, opts: Options)
    returns (r: Result<string, ApiError>, tried: seq<string>, calls: seq<Call>)
    modifies st
    ensures var spec := GenerateSpec(old(st.kv), now, server, gw, prompt, opts);
      r == spec.result && tried == spec.tried && calls == spec.calls && st.kv == spec.kv
  {
    var g := GetGeminiConfig(st);
    if g.None? {
      return Err(NotConfigured), [], [];
    }
    r, tried, calls := TryInOrder(st, now, server, gw, UrlFormats(g.value), BuildRequest(SingleUserTurn(Plain(prompt)), opts));
  }

  /** The loop of `generateContent` over the URL shapes, proved against `TryUrls`. */
  method TryInOrder(st: Storage<Stored>, now: int, server: SsoServer, gw: Gateway, urls: seq<string>, req: GeminiRequest)
    returns (r: Result<string, ApiError>, tried: seq<string>, calls: seq<Call>)
    requires |urls| > 0
    modifies st
    ensures var spec := TryUrls(AttemptWith(now, server, gw, req), old(st.kv), urls, 0);
      r == spec.result && tried == spec.tried && calls == spec.calls && st.kv == spec.kv
  {
    ghost var attempt := AttemptWith(now, server, gw, req);
    ghost var spec := TryUrls(attempt, st.kv, urls, 0);
    ghost var outcomes: seq<Result<string, ApiError>> := [];
    tried, calls := [], [];
    var i := 0;
    while i < |urls|
      invariant 0 <= i < |urls|
      invariant var rest := TryUrls(attempt, st.kv, urls, i);
        spec == Fallback(rest.result, tried + rest.tried, outcomes + rest.outcomes, calls + rest.calls, rest.kv)
      decreases |urls| - i
    {
      ghost var here := TryUrls(attempt, st.kv, urls, i);
      var out, c := Attempt(st, now, server, gw, urls[i], req);
      if out.Ok? || i == |urls| - 1 {
        assert here == Fallback(out, [urls[i]], [out], c, st.kv);
        return out, tried + [urls[i]], calls + c;
      }
      ghost var rest := TryUrls(attempt, st.kv, urls, i + 1);
      assert here == Fallback(rest.result, [urls[i]] + rest.tried, [out] + rest.outcomes, c + rest.calls, rest.kv);
      AppendAssoc(tried, [urls[i]], rest.tried);
      AppendAssoc(outcomes, [out], rest.outcomes);
      AppendAssoc(calls, c, rest.calls);
      tried, calls := tried + [urls[i]], calls + c;
      outcomes := outcomes + [out];
      i := i + 1;
    }
    r := Err(AllFormatsFailed);
  }

  /** Without a configuration `generateContent` fails before any request. */
  lemma GenerateNeedsConfig(kv: Store, now: int, server: SsoServer, gw: Gateway, prompt: string, opts: Options)
    requires StoredConfig(kv).None?
    ensures GenerateSpec(kv, now, server, gw, prompt, opts).result == Err(NotConfigured)
    ensures GenerateSpec(kv, now, server, gw, prompt, opts).calls == []
  {
  }

  /**
   * With a configuration, the six shapes are tried in their fixed order up to
   * the first success; the result is that success, or the sixth shape's error.
   */
  lemma GenerateFallbackOrder(kv: Store, now: int, server: SsoServer, gw: Gateway, prompt: string, opts: Options)
    requires StoredConfig(kv).Some?
    ensures var fb := GenerateSpec(kv, now, server, gw, prompt, opts);
      var urls := UrlFormats(StoredConfig(kv).value);
      && 1 <= |fb.tried| <= 6 && fb.tried == urls[..|fb.tried|] && |fb.outcomes| == |fb.tried|
      && (forall k :: 0 <= k < |fb.tried| - 1 ==> fb.outcomes[k].Err?)
      && (fb.result.Ok? ==> fb.result == fb.outcomes[|fb.tried| - 1])
      && (fb.result.Err? ==> |fb.tried| == 6 && fb.result == fb.outcomes[5])
  {
    var g := StoredConfig(kv).value;
    TryUrlsShape(AttemptWith(now, server, gw, BuildRequest(SingleUserTurn(Plain(prompt)), opts)), kv, UrlFormats(g), 0);
  }

  // ---------------------------------------------------------------------
  // streamGenerateContent: line handling

  /** `chunk.split('\n').filter(line => line.trim())`. */
  function NonBlankLines(read: string): seq<string> {
    DropBlank(SplitOn(read, '\n'))
  }

  function DropBlank(parts: seq<string>): seq<string> {
    if parts == [] then []
    else (if IsBlank(parts[0]) then [] else [parts[0]]) + DropBlank(parts[1..])
  }

  /** The lines of a read hold no newline and are never blank; the non-blank pieces are all kept, in order. */
  lemma NonBlankLinesSound(read: string)
    ensures forall k :: 0 <= k < |NonBlankLines(read)| ==>
      !IsBlank(NonBlankLines(read)[k]) && '\n' !in NonBlankLines(read)[k]
    ensures forall p :: p in SplitOn(read, '\n') && !IsBlank(p) ==> p in NonBlankLines(read)
  {
    DropBlankSound(SplitOn(read, '\n'));
  }

  lemma {:induction false} DropBlankSound(parts: seq<string>)
    ensures forall k :: 0 <= k < |DropBlank(parts)| ==> !IsBlank(DropBlank(parts)[k]) && DropBlank(parts)[k] in parts
    ensures forall p :: p in parts && !IsBlank(p) ==> p in DropBlank(parts)
  {
    if parts != [] {
      DropBlankSound(parts[1..]);
      var r := DropBlank(parts);
      var head := if IsBlank(parts[0]) then [] else [parts[0]];
      assert r == head + DropBlank(parts[1..]);
      forall p | p in parts && !IsBlank(p) ensures p in r {
        if p != parts[0] {
          assert p in parts[1..];
        }
      }
    }
  }

  /** What one line contributes: `parts[0].text` of a parsable line with a candidate part, else nothing. */
  function LineYield(line: string, parse: string -> Option<GeminiResponse>): (r: seq<string>)
    ensures |r| <= 1
    ensures |r| == 1 <==> parse(line).Some? && FirstPart(parse(line).value).Some?
  {
    if parse(line).Some? && FirstPart(parse(line).value).Some? then [FirstPart(parse(line).value).value] else []
  }

  /** What the first `n` lines yield, in order. */
  function LinesYield(lines: seq<string>, n: nat, parse: string -> Option<GeminiResponse>): seq<string>
    requires n <= |lines|
  {
    FlatMap(lines, n, line => LineYield(line, parse))
  }

  /** What one read of the body yields. */
  function ReadYield(read: string, parse: string -> Option<GeminiResponse>): seq<string> {
    var lines := NonBlankLines(read);
    LinesYield(lines, |lines|, parse)
  }

  /** What the first `n` reads of the body yield, in order. */
  function StreamYields(body: seq<string>, n: nat, parse: string -> Option<GeminiResponse>): seq<string>
    requires n <= |body|
  {
    FlatMap(body, n, read => ReadYield(read, parse))
  }

  /** The read loop of lines 292-318. */
  method StreamLines(body: seq<string>, parse: string -> Option<GeminiResponse>) returns (out: seq<string>)
    ensures out == StreamYields(body, |body|, parse)
  {
    out := [];
    var n := 0;
    while n < |body|
      invariant 0 <= n <= |body|
      invariant out == StreamYields(body, n, parse)
    {
      var texts := ReadLines(NonBlankLines(body[n]), parse);
      out := out + texts;
      n := n + 1;
    }
  }

  /** The inner loop over the lines of one read: each parsable line with a part yields its text. */
  method ReadLines(lines: seq<string>, parse: string -> Option<GeminiResponse>) returns (texts: seq<string>)
    ensures texts == LinesYield(lines, |lines|, parse)
  {
    texts := [];
    var k := 0;
    while k < |lines|
      invariant 0 <= k <= |lines|
      invariant texts == LinesYield(lines, k, parse)
    {
      var data := parse(lines[k]);
      if data.Some? && FirstPart(data.value).Some? {
        texts := texts + [FirstPart(data.value).value];
      }
      k := k + 1;
    }
  }

  /** The yields of a stream are the yields of its reads, one after another. */
  lemma StreamYieldsAppend(a: seq<string>, b: seq<string>, parse: string -> Option<GeminiResponse>)
    ensures StreamYields(a + b, |a + b|, parse) == StreamYields(a, |a|, parse) + StreamYields(b, |b|, parse)
  {
    FlatMapAppend(a, b, |b|, read => ReadYield(read, parse));
  }

  /**
   * A line that does not parse contributes nothing and does not end the
   * stream: the lines after it still yield as they would without it.
   */
  lemma {:induction false} MalformedLineSkipped(pre: seq<string>, bad: string, post: seq<string>, m: nat,
                                                parse: string -> Option<GeminiResponse>)
    requires parse(bad).None? && m <= |post|
    ensures LinesYield(pre + [bad] + post, |pre| + 1 + m, parse)
         == LinesYield(pre, |pre|, parse) + LinesYield(post, m, parse)
  {
    var f := line => LineYield(line, parse);
    FlatMapAppend(pre + [bad], post, m, f);
    FlatMapAppend(pre, [bad], 1, f);
    assert FlatMap([bad], 1, f) == [];
  }

  /** When every line carries a candidate part, each line yields exactly its text, in order. */
  lemma {:induction false} EveryLineYields(lines: seq<string>, n: nat, parse: string -> Option<GeminiResponse>)
    requires n <= |lines|
    requires forall k :: 0 <= k < n ==> parse(lines[k]).Some? && FirstPart(parse(lines[k]).value).Some?
    ensures |LinesYield(lines, n, parse)| == n
    ensures forall k :: 0 <= k < n ==> LinesYield(lines, n, parse)[k] == FirstPart(parse(lines[k]).value).value
  {
    if n > 0 {
      EveryLineYields(lines, n - 1, parse);
    }
  }

  /** `streamGenerateContent` as a function: the texts yielded, or the error thrown before any yield. */
  function StreamSpec(kv: Store, now: int, server: SsoServer, gw: Gateway, parse: string -> Option<GeminiResponse>,
                      prompt: MessageContent, opts: Options): (Result<seq<string>, ApiError>, seq<Call>, Store)
  {
    var g := StoredConfig(kv);
    if g.None? then (Err(NotConfigured), [], kv)
    else
      var e := Authenticated(kv, now, server, gw, StreamingUrl(g.value), BuildRequest(SingleUserTurn(prompt), opts));
      if e.result.Err? then (Err(e.result.error), e.calls, e.kv)
      else if e.result.value.NetworkError? || e.result.value.chunks.None? then (Err(NoBody), e.calls, e.kv)
      else (Ok(StreamYields(e.result.value.chunks.value, |e.result.value.chunks.value|, parse)), e.calls, e.kv)
  }

  method StreamGenerateContent(st: Storage<Stored>, now: int, server: SsoServer, gw: Gateway,
                               parse: string -> Option<GeminiResponse>, prompt: MessageContent, opts: Options)
    returns (r: Result<seq<string>, ApiError>, calls: seq<Call>)
    modifies st
    ensures (r, calls, st.kv) == StreamSpec(old(st.kv), now, server, gw, parse, prompt, opts)
  {
    var g := GetGeminiConfig(st);
    if g.None? {
      return Err(NotConfigured), [];
    }
    var url := StreamingUrl(g.value);
    var req := BuildRequest(SingleUserTurn(prompt), opts);
    var response;
    response, calls := MakeAuthenticatedRequest(st, now, server, gw, url, req);
    if response.Err? {
      return Err(response.error), calls;
    }
    if response.value.NetworkError? || response.value.chunks.None? {
      return Err(NoBody), calls;
    }
    var texts := StreamLines(response.value.chunks.value, parse);
    r := Ok(texts);
  }

  // ---------------------------------------------------------------------
  // generateContentWithHistory

  datatype HistoryMessage = HistoryMessage(role: Role, content: MessageContent)

  /** `messages.map(msg => ({role, parts: [{text: content}]}))`. */
  function ToContents(messages: seq<HistoryMessage>): (contents: seq<Content>)
    ensures |contents| == |messages|
    ensures forall i :: 0 <= i < |messages| ==>
      contents[i].role == messages[i].role && contents[i].parts == [messages[i].content]
  {
    if messages == [] then []
    else [Content(messages[0].role, [messages[0].content])] + ToContents(messages[1..])
  }

  function WithHistorySpec(kv: Store, now: int, server: SsoServer, gw: Gateway, messages: seq<HistoryMessage>,
                           opts: Options): (Result<string, ApiError>, seq<Call>, Store)
  {
    var g := StoredConfig(kv);
    if g.None? then (Err(NotConfigured), [], kv)
    else
      var url := FullPath(g.value) + "generateContent";
      var e := Authenticated(kv, now, server, gw, url, BuildRequest(ToContents(messages), opts));
      (AttemptOutcome(e), e.calls, e.kv)
  }

  method GenerateContentWithHistory(st: Storage<Stored>, now: int, server: SsoServer, gw: Gateway,
                                    messages: seq<HistoryMessage>, opts: Options)
    returns (r: Result<string, ApiError>, calls: seq<Call>)
    modifies st
    ensures (r, calls, st.kv) == WithHistorySpec(old(st.kv), now, server, gw, messages, opts)
  {
    var g := GetGeminiConfig(st);
    if g.None? {
      return Err(NotConfigured), [];
    }
    var url := FullPath(g.value) + "generateContent";
    var response;
    response, calls := MakeAuthenticatedRequest(st, now, server, gw, url, BuildRequest(ToContents(messages), opts));
    if response.Err? {
      return Err(response.error), calls;
    }
    r := if response.value.Response? then FirstText(response.value) else Err(MalformedResponse);
  }

  /** `generateContentWithHistory` posts one request to the first URL shape, carrying the whole history. */
  lemma WithHistoryUsesFirstShape(kv: Store, now: int, server: SsoServer, gw: Gateway,
                                  messages: seq<HistoryMessage>, opts: Options)
    requires StoredConfig(kv).Some?
    ensures WithHistorySpec(kv, now, server, gw, messages, opts).1
         == Authenticated(kv, now, server, gw, UrlFormats(StoredConfig(kv).value)[0],
                          BuildRequest(ToContents(messages), opts)).calls
  {
  }
}
