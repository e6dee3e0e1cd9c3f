/**
 * `ApiClient` (`frontend/lib/api.ts`): token cookies, the silent refresh,
 * and `request` with its single retry after a 401. The network is an
 * oracle that answers the n-th fetch of the client; every fetch is logged
 * in `sent`. Each operation is specified by a function of the old state
 * (`RefreshOutcome`, `RequestOutcome`, `LogoutOutcome`) and the lemmas
 * below state what those functions promise.
 */
module Api {
  import opened Wrappers
  import opened Cookies

  const DefaultApiUrl := "http://localhost:8000/api"
  const AuthCookie := "auth_token"
  const RefreshCookie := "refresh_token"
  const DefaultErrorMessage := "An error occurred"
  const NetworkErrorMessage := "Network error occurred"
  const JsonType := "application/json"

  /** A value caught by `catch (error)`: an `Error` with its message, or anything else. */
  datatype Thrown = ErrorInstance(message: string) | OtherValue

  /** The fields of a JSON response body that the client reads. */
  datatype JsonObject = JsonObject(error: Option<string>, message: Option<string>, detail: Option<string>, access: Option<string>)

  const EmptyObject := JsonObject(None, None, None, None)

  /** A response body: JSON, or text on which `response.json()` throws. */
  datatype Body = Json(obj: JsonObject) | Unparsable(syntaxError: string)

  /** What `fetch` settles to: a response, or a rejection. */
  datatype FetchResult =
    | Response(status: int, jsonContentType: bool, body: Body)
    | Rejected(thrown: Thrown)

  datatype RequestBody = JsonBody(fields: map<string, string>) | TextBody(text: string)

  /** The caller's `options`: method, body and optional headers. */
  datatype RequestInit = RequestInit(verb: string, body: Option<RequestBody>, headers: Option<map<string, string>>)

  /** One call of `fetch`, as the network sees it. */
  datatype FetchCall = FetchCall(url: string, verb: string, body: Option<RequestBody>, headers: map<string, string>)

  datatype ApiResponse<T> = ApiResponse(success: bool, data: Option<T>, error: Option<string>)

  /** The network: the answer to the n-th fetch given the call. */
  type Server = (nat, FetchCall) -> FetchResult

  predicate IsOk(status: int)
  {
    200 <= status <= 299
  }

  // ---------- tokens ----------

  /**
   * `getToken` (`name` = "auth_token") and `getRefreshToken` (`name` =
   * "refresh_token"): nothing without a window, else the jar's value.
   * `GetToken` below reads it by parsing `document.cookie`; `ReadBack`
   * shows that the parse yields this value for every valid jar.
   */
  function Token(hasWindow: bool, jar: seq<Cookie>, name: string): Option<string>
  {
    if hasWindow then Lookup(jar, name) else None
  }

  /** `setTokens`: both cookies written, each value cut at its first ';' as a cookie string is. */
  function WithTokens(hasWindow: bool, jar: seq<Cookie>, access: string, refresh: string): seq<Cookie>
  {
    if hasWindow then Set(Set(jar, AuthCookie, StoredValue(access)), RefreshCookie, StoredValue(refresh)) else jar
  }

  /** `clearTokens`: both cookies expired. */
  function WithoutTokens(hasWindow: bool, jar: seq<Cookie>): seq<Cookie>
  {
    if hasWindow then Delete(Delete(jar, AuthCookie), RefreshCookie) else jar
  }

  lemma TokenNamesValid()
    ensures ValidName(AuthCookie) && ValidName(RefreshCookie) && AuthCookie != RefreshCookie
  {
    assert AuthCookie[0] == 'a';
    assert RefreshCookie[0] == 'r';
  }

  /** After `setTokens(a, r)` the lookup returns `a` and `r` (cut at ';') and the jar stays valid. */
  lemma WithTokensEffect(jar: seq<Cookie>, access: string, refresh: string)
    requires ValidJar(jar)
    ensures ValidJar(WithTokens(true, jar, access, refresh))
    ensures Token(true, WithTokens(true, jar, access, refresh), AuthCookie) == Some(StoredValue(access))
    ensures Token(true, WithTokens(true, jar, access, refresh), RefreshCookie) == Some(StoredValue(refresh))
  {
    TokenNamesValid();
    var j1 := Set(jar, AuthCookie, StoredValue(access));
    SetEffect(jar, AuthCookie, StoredValue(access), RefreshCookie);
    SetEffect(j1, RefreshCookie, StoredValue(refresh), AuthCookie);
  }

  /** After `clearTokens` neither token is found and the jar stays valid. */
  lemma WithoutTokensEffect(hasWindow: bool, jar: seq<Cookie>)
    requires ValidJar(jar)
    ensures ValidJar(WithoutTokens(hasWindow, jar))
    ensures Token(hasWindow, WithoutTokens(hasWindow, jar), AuthCookie) == None
    ensures Token(hasWindow, WithoutTokens(hasWindow, jar), RefreshCookie) == None
  {
    if hasWindow {
      TokenNamesValid();
      var j1 := Delete(jar, AuthCookie);
      DeleteEffect(jar, AuthCookie, RefreshCookie);
      DeleteEffect(j1, RefreshCookie, AuthCookie);
    }
  }

  lemma WithTokensValid(hasWindow: bool, jar: seq<Cookie>, access: string, refresh: string)
    requires ValidJar(jar)
    ensures ValidJar(WithTokens(hasWindow, jar, access, refresh))
  {
    if hasWindow {
      WithTokensEffect(jar, access, refresh);
    }
  }

  /** A value read from a cookie has no ';' and no space or tab at its ends, so writing it back stores it unchanged. */
  lemma {:induction false} StoredValueOfPlain(s: string)
    requires PlainValue(s)
    ensures StoredValue(s) == s
  {
    SplitJoin([s], ';');
  }

  /** Text of the access token `setTokens` receives: `data.access`, "undefined" when the field is absent. */
  function AccessText(access: Option<string>): string
  {
    access.GetOr("undefined")
  }

  // ---------- refresh ----------

  function RefreshCall(apiUrl: string, refreshToken: string): FetchCall
  {
    FetchCall(apiUrl + "/auth/refresh/", "POST", Some(JsonBody(map["refresh" := refreshToken])), map["Content-Type" := JsonType])
  }

  /** The result of `refreshAccessToken`, the jar after it and the fetches it made. */
  datatype Refresh = Refresh(refreshed: bool, jar: seq<Cookie>, calls: seq<FetchCall>)

  /** `refreshAccessToken` run against the jar and the network, its fetch being the n-th. */
  function RefreshOutcome(hasWindow: bool, apiUrl: string, jar: seq<Cookie>, server: Server, n: nat): (o: Refresh)
    ensures o.calls == [] <==> !Truthy(Token(hasWindow, jar, RefreshCookie))
    ensures o.calls != [] ==> o.calls == [RefreshCall(apiUrl, Token(hasWindow, jar, RefreshCookie).value)]
    ensures o.refreshed ==>
              o.calls != [] && (var res := server(n, o.calls[0]); res.Response? && IsOk(res.status) && res.body.Json?)
  {
    var refreshToken := Token(hasWindow, jar, RefreshCookie);
    if !Truthy(refreshToken) then Refresh(false, jar, [])
    else
      var call := RefreshCall(apiUrl, refreshToken.value);
      var res := server(n, call);
      if res.Response? && IsOk(res.status) && res.body.Json? then
        Refresh(true, WithTokens(hasWindow, jar, AccessText(res.body.obj.access), refreshToken.value), [call])
      else
        Refresh(false, WithoutTokens(hasWindow, jar), [call])
  }

  /** Without a refresh token there is no network call and nothing changes. */
  lemma RefreshWithoutToken(hasWindow: bool, apiUrl: string, jar: seq<Cookie>, server: Server, n: nat)
    requires !Truthy(Token(hasWindow, jar, RefreshCookie))
    ensures RefreshOutcome(hasWindow, apiUrl, jar, server, n) == Refresh(false, jar, [])
  {
  }

  /**
   * With a refresh token there is exactly one call, to the refresh endpoint.
   * Success stores the new access token and keeps the refresh token; a
   * non-ok response, an unparsable body or a rejected fetch clears both.
   */
  lemma RefreshWithToken(apiUrl: string, jar: seq<Cookie>, server: Server, n: nat)
    requires ValidJar(jar) && Truthy(Token(true, jar, RefreshCookie))
    ensures var o := RefreshOutcome(true, apiUrl, jar, server, n);
            var rt := Token(true, jar, RefreshCookie).value;
            var res := server(n, RefreshCall(apiUrl, rt));
            && o.calls == [RefreshCall(apiUrl, rt)]
            && ValidJar(o.jar)
            && (o.refreshed <==> res.Response? && IsOk(res.status) && res.body.Json?)
            && (o.refreshed ==> Token(true, o.jar, AuthCookie) == Some(StoredValue(AccessText(res.body.obj.access))))
            && (o.refreshed ==> Token(true, o.jar, RefreshCookie) == Some(rt))
            && (!o.refreshed ==> Token(true, o.jar, AuthCookie) == None && Token(true, o.jar, RefreshCookie) == None)
  {
    var o := RefreshOutcome(true, apiUrl, jar, server, n);
    var rt := Token(true, jar, RefreshCookie).value;
    TokenNamesValid();
    LookupValueIsPlain(jar, RefreshCookie);
    StoredValueOfPlain(rt);
    if o.refreshed {
      WithTokensEffect(jar, AccessText(server(n, RefreshCall(apiUrl, rt)).body.obj.access), rt);
    } else {
      WithoutTokensEffect(true, jar);
    }
  }

  lemma {:induction false} LookupValueIsPlain(jar: seq<Cookie>, name: string)
    requires ValidJar(jar) && Lookup(jar, name).Some?
    ensures PlainValue(Lookup(jar, name).value)
  {
    if jar[0].name != name {
      LookupValueIsPlain(jar[1..], name);
    }
  }

  // ---------- request ----------

  /** The headers of the first attempt: JSON content type, overridden by the caller's, overridden by a stored token. */
  function InitialHeaders(init: RequestInit, token: Option<string>): map<string, string>
  {
    var headers := map["Content-Type" := JsonType] + init.headers.GetOr(map[]);
    if Truthy(token) then headers["Authorization" := "Bearer " + token.value] else headers
  }

  lemma HeaderPrecedence(init: RequestInit, token: Option<string>, key: string)
    ensures Truthy(token) ==> InitialHeaders(init, token)["Authorization"] == "Bearer " + token.value
    ensures !Truthy(token) && init.headers.Some? && "Authorization" in init.headers.value ==>
              InitialHeaders(init, token)["Authorization"] == init.headers.value["Authorization"]
    ensures init.headers.Some? && "Content-Type" in init.headers.value ==>
              InitialHeaders(init, token)["Content-Type"] == init.headers.value["Content-Type"]
    ensures (init.headers.None? || "Content-Type" !in init.headers.value) ==> InitialHeaders(init, token)["Content-Type"] == JsonType
    ensures key != "Authorization" && init.headers.Some? && key in init.headers.value ==>
              InitialHeaders(init, token)[key] == init.headers.value[key]
    ensures key in InitialHeaders(init, token) <==>
              key == "Content-Type" || (key == "Authorization" && Truthy(token)) || (init.headers.Some? && key in init.headers.value)
  {
  }

  /** The headers of the retry after a 401. */
  function RetryHeaders(headers: map<string, string>, refreshed: bool, newToken: Option<string>): map<string, string>
  {
    if refreshed then
      (if Truthy(newToken) then headers["Authorization" := "Bearer " + newToken.value] else headers)
    else headers - {"Authorization"}
  }

  /** `data?.error || data?.message || data?.detail || "An error occurred"`. */
  function ErrorText(data: JsonObject): (m: string)
    ensures Truthy(data.error) ==> m == data.error.value
    ensures !Truthy(data.error) && Truthy(data.message) ==> m == data.message.value
    ensures !Truthy(data.error) && !Truthy(data.message) && Truthy(data.detail) ==> m == data.detail.value
    ensures !Truthy(data.error) && !Truthy(data.message) && !Truthy(data.detail) ==> m == DefaultErrorMessage
  {
    OrElse(data.error, OrElse(data.message, OrElse(data.detail, DefaultErrorMessage)))
  }

  /** What `request` makes of the last fetch's outcome. */
  function Shape(res: FetchResult): (r: ApiResponse<JsonObject>)
    ensures r.success <==> res.Response? && IsOk(res.status) && !(res.jsonContentType && res.body.Unparsable?)
    ensures r.success ==> r.error.None? && r.data == Some(if res.jsonContentType then res.body.obj else EmptyObject)
    ensures !r.success ==> r.data.None? && r.error.Some?
    ensures res.Rejected? ==> r.error == Some(if res.thrown.ErrorInstance? then res.thrown.message else NetworkErrorMessage)
    ensures res.Response? && res.jsonContentType && res.body.Unparsable? ==> r.error == Some(res.body.syntaxError)
    ensures res.Response? && !IsOk(res.status) && !(res.jsonContentType && res.body.Unparsable?) ==>
              r.error == Some(ErrorText(if res.jsonContentType then res.body.obj else EmptyObject))
  {
    match res
    case Rejected(thrown) =>
      ApiResponse(false, None, Some(if thrown.ErrorInstance? then thrown.message else NetworkErrorMessage))
    case Response(status, jsonContentType, body) =>
      if jsonContentType && body.Unparsable? then ApiResponse(false, None, Some(body.syntaxError))
      else
        var data := if jsonContentType then body.obj else EmptyObject;
        if !IsOk(status) then ApiResponse(false, None, Some(ErrorText(data)))
        else ApiResponse(true, Some(data), None)
  }

  /** A body that is not JSON reads as `{}`: a failed status then gets the default message. */
  lemma NonJsonErrorIsDefault(status: int, body: Body)
    requires !IsOk(status)
    ensures Shape(Response(status, false, body)) == ApiResponse(false, None, Some(DefaultErrorMessage))
  {
  }

  predicate Unauthorized(res: FetchResult)
  {
    res.Response? && res.status == 401
  }

  /** The response of `request`, the jar after it and the fetches it made. */
  datatype Exchange = Exchange(response: ApiResponse<JsonObject>, jar: seq<Cookie>, calls: seq<FetchCall>)

  /** The first fetch of `request(endpoint, init)`. */
  function FirstCall(hasWindow: bool, apiUrl: string, jar: seq<Cookie>, endpoint: string, init: RequestInit): FetchCall
  {
    FetchCall(apiUrl + endpoint, init.verb, init.body, InitialHeaders(init, Token(hasWindow, jar, AuthCookie)))
  }

  /** What `request` does after its first fetch answered 401: refresh (the n-th fetch), then resend once. */
  function RetryOutcome(hasWindow: bool, apiUrl: string, jar: seq<Cookie>, server: Server, n: nat, first: FetchCall): Exchange
  {
    var refresh := RefreshOutcome(hasWindow, apiUrl, jar, server, n);
    var jar' := if refresh.refreshed then refresh.jar else WithoutTokens(hasWindow, refresh.jar);
    var retry := FetchCall(first.url, first.verb, first.body,
                           RetryHeaders(first.headers, refresh.refreshed, Token(hasWindow, refresh.jar, AuthCookie)));
    Exchange(Shape(server(n + |refresh.calls|, retry)), jar', refresh.calls + [retry])
  }

  /** `request(endpoint, init)` run against the jar and the network, its first fetch being the n-th. */
  function RequestOutcome(hasWindow: bool, apiUrl: string, jar: seq<Cookie>, server: Server, n: nat,
                          endpoint: string, init: RequestInit): Exchange
  {
    var first := FirstCall(hasWindow, apiUrl, jar, endpoint, init);
    var res := server(n, first);
    if !Unauthorized(res) then Exchange(Shape(res), jar, [first])
    else
      var retried := RetryOutcome(hasWindow, apiUrl, jar, server, n + 1, first);
      Exchange(retried.response, retried.jar, [first] + retried.calls)
  }

  /** `RequestOutcome` by the first answer. */
  lemma RequestCases(hasWindow: bool, apiUrl: string, jar: seq<Cookie>, server: Server, n: nat, endpoint: string, init: RequestInit)
    ensures var first := FirstCall(hasWindow, apiUrl, jar, endpoint, init);
            var o := RetryOutcome(hasWindow, apiUrl, jar, server, n + 1, first);
            RequestOutcome(hasWindow, apiUrl, jar, server, n, endpoint, init) ==
              if Unauthorized(server(n, first)) then Exchange(o.response, o.jar, [first] + o.calls)
              else Exchange(Shape(server(n, first)), jar, [first])
  {
  }

  /**
   * Retry once: a first answer of 401 leads to exactly one more fetch of
   * the same request (with at most the refresh call in between); any other
   * answer leads to none. The response always comes from the last fetch.
   */
  lemma RetryOnce(hasWindow: bool, apiUrl: string, jar: seq<Cookie>, server: Server, n: nat, endpoint: string, init: RequestInit)
    ensures var e := RequestOutcome(hasWindow, apiUrl, jar, server, n, endpoint, init);
            var first := e.calls[0];
            && 1 <= |e.calls| <= 3
            && first == FetchCall(apiUrl + endpoint, init.verb, init.body, InitialHeaders(init, Token(hasWindow, jar, AuthCookie)))
            && (|e.calls| > 1 <==> Unauthorized(server(n, first)))
            && (|e.calls| > 1 ==> e.calls[|e.calls| - 1].url == first.url && e.calls[|e.calls| - 1].verb == first.verb &&
                                  e.calls[|e.calls| - 1].body == first.body)
            && (|e.calls| == 3 ==> e.calls[1] == RefreshCall(apiUrl, Token(hasWindow, jar, RefreshCookie).value))
            && e.response == Shape(server(n + |e.calls| - 1, e.calls[|e.calls| - 1]))
  {
    var url := apiUrl + endpoint;
    var headers := InitialHeaders(init, Token(hasWindow, jar, AuthCookie));
    var first := FetchCall(url, init.verb, init.body, headers);
    var e := RequestOutcome(hasWindow, apiUrl, jar, server, n, endpoint, init);
    if Unauthorized(server(n, first)) {
      var refresh := RefreshOutcome(hasWindow, apiUrl, jar, server, n + 1);
      var retry := FetchCall(url, init.verb, init.body,
                             RetryHeaders(headers, refresh.refreshed, Token(hasWindow, refresh.jar, AuthCookie)));
      assert e.calls == [first] + refresh.calls + [retry];
      assert e.response == Shape(server(n + 1 + |refresh.calls|, retry));
    } else {
      assert e.calls == [first];
    }
  }

  /** The access token a successful refresh stores, as the browser keeps it. */
  function RefreshedAccess(apiUrl: string, jar: seq<Cookie>, server: Server, n: nat): string
    requires RefreshOutcome(true, apiUrl, jar, server, n).refreshed
  {
    var o := RefreshOutcome(true, apiUrl, jar, server, n);
    StoredValue(AccessText(server(n, o.calls[0]).body.obj.access))
  }

  /** After a 401 and a successful refresh the retry carries "Bearer " and the new access token. */
  lemma RetryCarriesNewToken(apiUrl: string, jar: seq<Cookie>, server: Server, n: nat, endpoint: string, init: RequestInit)
    requires ValidJar(jar)
    requires Unauthorized(server(n, FirstCall(true, apiUrl, jar, endpoint, init)))
    requires RefreshOutcome(true, apiUrl, jar, server, n + 1).refreshed
    ensures var e := RequestOutcome(true, apiUrl, jar, server, n, endpoint, init);
            var access := RefreshedAccess(apiUrl, jar, server, n + 1);
            && |e.calls| == 3
            && (access != "" ==> "Authorization" in e.calls[2].headers && e.calls[2].headers["Authorization"] == "Bearer " + access)
            && Token(true, e.jar, AuthCookie) == Some(access)
  {
    var first := FirstCall(true, apiUrl, jar, endpoint, init);
    var refresh := RefreshOutcome(true, apiUrl, jar, server, n + 1);
    var access := RefreshedAccess(apiUrl, jar, server, n + 1);
    assert Token(true, refresh.jar, AuthCookie) == Some(access) && |refresh.calls| == 1 by {
      RefreshWithToken(apiUrl, jar, server, n + 1);
    }
    RetryAfterRefresh(apiUrl, jar, server, n + 1, first, access);
    RequestCases(true, apiUrl, jar, server, n, endpoint, init);
    BearerHeader(first.headers, access);
  }

  lemma BearerHeader(headers: map<string, string>, access: string)
    ensures access != "" ==> "Authorization" in RetryHeaders(headers, true, Some(access)) &&
                             RetryHeaders(headers, true, Some(access))["Authorization"] == "Bearer " + access
  {
  }

  /** The resend after a successful refresh carries the access token the refresh stored. */
  lemma RetryAfterRefresh(apiUrl: string, jar: seq<Cookie>, server: Server, n: nat, first: FetchCall, access: string)
    requires RefreshOutcome(true, apiUrl, jar, server, n).refreshed
    requires Token(true, RefreshOutcome(true, apiUrl, jar, server, n).jar, AuthCookie) == Some(access)
    ensures var o := RetryOutcome(true, apiUrl, jar, server, n, first);
            var refresh := RefreshOutcome(true, apiUrl, jar, server, n);
            && o.jar == refresh.jar
            && o.calls == refresh.calls + [FetchCall(first.url, first.verb, first.body, RetryHeaders(first.headers, true, Some(access)))]
  {
  }

  /** After a 401 and a failed refresh the tokens are gone and the retry carries no Authorization header. */
  lemma RetryWithoutToken(hasWindow: bool, apiUrl: string, jar: seq<Cookie>, server: Server, n: nat, endpoint: string, init: RequestInit)
    requires ValidJar(jar)
    requires var first := FetchCall(apiUrl + endpoint, init.verb, init.body, InitialHeaders(init, Token(hasWindow, jar, AuthCookie)));
             Unauthorized(server(n, first)) && !RefreshOutcome(hasWindow, apiUrl, jar, server, n + 1).refreshed
    ensures var e := RequestOutcome(hasWindow, apiUrl, jar, server, n, endpoint, init);
            && "Authorization" !in e.calls[|e.calls| - 1].headers
            && Token(hasWindow, e.jar, AuthCookie) == None
            && Token(hasWindow, e.jar, RefreshCookie) == None
  {
    var refresh := RefreshOutcome(hasWindow, apiUrl, jar, server, n + 1);
    if hasWindow && Truthy(Token(true, jar, RefreshCookie)) {
      RefreshWithToken(apiUrl, jar, server, n + 1);
    }
    assert ValidJar(refresh.jar);
    WithoutTokensEffect(hasWindow, refresh.jar);
  }

  /** `request` keeps the jar valid. */
  lemma RequestKeepsJarValid(hasWindow: bool, apiUrl: string, jar: seq<Cookie>, server: Server, n: nat, endpoint: string, init: RequestInit)
    requires ValidJar(jar)
    ensures ValidJar(RequestOutcome(hasWindow, apiUrl, jar, server, n, endpoint, init).jar)
  {
    var first := FetchCall(apiUrl + endpoint, init.verb, init.body, InitialHeaders(init, Token(hasWindow, jar, AuthCookie)));
    if Unauthorized(server(n, first)) {
      var refresh := RefreshOutcome(hasWindow, apiUrl, jar, server, n + 1);
      RefreshKeepsJarValid(hasWindow, apiUrl, jar, server, n + 1);
      WithoutTokensEffect(hasWindow, refresh.jar);
    }
  }

  lemma RefreshKeepsJarValid(hasWindow: bool, apiUrl: string, jar: seq<Cookie>, server: Server, n: nat)
    requires ValidJar(jar)
    ensures ValidJar(RefreshOutcome(hasWindow, apiUrl, jar, server, n).jar)
  {
    var rt := Token(hasWindow, jar, RefreshCookie);
    if Truthy(rt) {
      var res := server(n, RefreshCall(apiUrl, rt.value));
      if res.Response? && IsOk(res.status) && res.body.Json? {
        var access := AccessText(res.body.obj.access);
        assert RefreshOutcome(hasWindow, apiUrl, jar, server, n).jar == WithTokens(hasWindow, jar, access, rt.value);
        WithTokensValid(hasWindow, jar, access, rt.value);
      } else {
        assert RefreshOutcome(hasWindow, apiUrl, jar, server, n).jar == WithoutTokens(hasWindow, jar);
        WithoutTokensEffect(hasWindow, jar);
      }
    }
  }

  // ---------- logout ----------

  function LogoutInit(refreshToken: string): RequestInit
  {
    RequestInit("POST", Some(JsonBody(map["refresh" := refreshToken])), None)
  }

  /** `logout`: the jar after it and the fetches it made. */
  function LogoutOutcome(hasWindow: bool, apiUrl: string, jar: seq<Cookie>, server: Server, n: nat): (seq<Cookie>, seq<FetchCall>)
  {
    var refreshToken := Token(hasWindow, jar, RefreshCookie);
    if Truthy(refreshToken) then
      var e := RequestOutcome(hasWindow, apiUrl, jar, server, n, "/auth/logout/", LogoutInit(refreshToken.value));
      (WithoutTokens(hasWindow, e.jar), e.calls)
    else (WithoutTokens(hasWindow, jar), [])
  }

  /** Logout calls the API only with a refresh token, and always ends with both tokens gone. */
  lemma LogoutEffect(hasWindow: bool, apiUrl: string, jar: seq<Cookie>, server: Server, n: nat)
    requires ValidJar(jar)
    ensures var (jar', calls) := LogoutOutcome(hasWindow, apiUrl, jar, server, n);
            && (calls != [] <==> Truthy(Token(hasWindow, jar, RefreshCookie)))
            && (calls != [] ==> calls[0].url == apiUrl + "/auth/logout/")
            && ValidJar(jar')
            && Token(hasWindow, jar', AuthCookie) == None
            && Token(hasWindow, jar', RefreshCookie) == None
  {
    var rt := Token(hasWindow, jar, RefreshCookie);
    if Truthy(rt) {
      var e := RequestOutcome(hasWindow, apiUrl, jar, server, n, "/auth/logout/", LogoutInit(rt.value));
      RetryOnce(hasWindow, apiUrl, jar, server, n, "/auth/logout/", LogoutInit(rt.value));
      RequestKeepsJarValid(hasWindow, apiUrl, jar, server, n, "/auth/logout/", LogoutInit(rt.value));
      WithoutTokensEffect(hasWindow, e.jar);
    } else {
      WithoutTokensEffect(hasWindow, jar);
    }
  }

  // ---------- query building ----------

  /** `getProducts`' endpoint; `encode` stands for `new URLSearchParams(filters).toString()`. */
  function ProductsEndpoint(filters: Option<map<string, string>>, encode: map<string, string> -> string): (e: string)
    ensures filters.None? || filters.value == map[] ==> e == "/products/"
    ensures filters.Some? && filters.value != map[] ==> e == "/products/?" + encode(filters.value)
  {
    if filters.Some? && |filters.value| > 0 then "/products/?" + encode(filters.value) else "/products/"
  }

  // ---------- the client ----------

  class Client {
    /** `typeof window !== "undefined"`. */
    const hasWindow: bool
    const apiUrl: string
    const server: Server
    var jar: seq<Cookie>
    var sent: seq<FetchCall>

    ghost predicate Valid()
      reads this
    {
      ValidJar(jar)
    }

    /** `API_URL` is the environment's `NEXT_PUBLIC_API_URL`, or the default when it is unset or empty. */
    constructor (hasWindow: bool, envApiUrl: Option<string>, server: Server, jar: seq<Cookie>)
      requires ValidJar(jar)
      ensures Valid()
      ensures this.hasWindow == hasWindow && this.server == server && this.jar == jar && sent == []
      ensures apiUrl == OrElse(envApiUrl, DefaultApiUrl)
    {
      this.hasWindow := hasWindow;
      this.apiUrl := OrElse(envApiUrl, DefaultApiUrl);
      this.server := server;
      this.jar := jar;
      this.sent := [];
    }

    method GetToken() returns (token: Option<string>)
      requires Valid()
      ensures token == Token(hasWindow, jar, AuthCookie)
    {
      TokenNamesValid();
      ReadBack(jar, AuthCookie);
      token := GetCookie(hasWindow, DocumentCookie(jar), AuthCookie + "=");
    }

    method GetRefreshToken() returns (token: Option<string>)
      requires Valid()
      ensures token == Token(hasWindow, jar, RefreshCookie)
    {
      TokenNamesValid();
      ReadBack(jar, RefreshCookie);
      token := GetCookie(hasWindow, DocumentCookie(jar), RefreshCookie + "=");
    }

    method SetTokens(access: string, refresh: string)
      requires Valid()
      modifies this
      ensures Valid()
      ensures jar == WithTokens(hasWindow, old(jar), access, refresh) && sent == old(sent)
    {
      WithTokensValid(hasWindow, jar, access, refresh);
      if !hasWindow {
        return;
      }
      jar := Set(jar, AuthCookie, StoredValue(access));
      jar := Set(jar, RefreshCookie, StoredValue(refresh));
    }

    method ClearTokens()
      requires Valid()
      modifies this
      ensures Valid()
      ensures jar == WithoutTokens(hasWindow, old(jar)) && sent == old(sent)
    {
      WithoutTokensEffect(hasWindow, jar);
      if !hasWindow {
        return;
      }
      jar := Delete(jar, AuthCookie);
      jar := Delete(jar, RefreshCookie);
    }

    method Fetch(call: FetchCall) returns (res: FetchResult)
      modifies this
      ensures res == server(|old(sent)|, call)
      ensures sent == old(sent) + [call] && jar == old(jar)
    {
      res := server(|sent|, call);
      sent := sent + [call];
    }

    method RefreshAccessToken() returns (refreshed: bool)
      requires Valid()
      modifies this
      ensures Valid()
      ensures var o := RefreshOutcome(hasWindow, apiUrl, old(jar), server, |old(sent)|);
              refreshed == o.refreshed && jar == o.jar && sent == old(sent) + o.calls
    {
      RefreshKeepsJarValid(hasWindow, apiUrl, jar, server, |sent|);
      var refreshToken := GetRefreshToken();
      if !Truthy(refreshToken) {
        return false;
      }
      var response := Fetch(RefreshCall(apiUrl, refreshToken.value));
      if !(response.Response? && IsOk(response.status)) {
        ClearTokens();
        return false;
      }
      match response.body {
        case Json(data) =>
          SetTokens(AccessText(data.access), refreshToken.value);
          return true;
        case Unparsable(_) =>
          ClearTokens();
          return false;
      }
    }

    /** The response to a 401: refresh, then send the request once more with the headers that follow. */
    method RetryUnauthorized(first: FetchCall) returns (r: ApiResponse<JsonObject>)
      requires Valid()
      modifies this
      ensures Valid()
      ensures var o := RetryOutcome(hasWindow, apiUrl, old(jar), server, |old(sent)|, first);
              r == o.response && jar == o.jar && sent == old(sent) + o.calls
    {
      ghost var o := RetryOutcome(hasWindow, apiUrl, jar, server, |sent|, first);
      ghost var refresh := RefreshOutcome(hasWindow, apiUrl, jar, server, |sent|);
      ghost var newAuth := Token(hasWindow, refresh.jar, AuthCookie);
      var headers := first.headers;
      var refreshed := RefreshAccessToken();
      assert refreshed == refresh.refreshed && jar == refresh.jar && sent == old(sent) + refresh.calls;
      if refreshed {
        var newToken := GetToken();
        assert newToken == newAuth;
        if Truthy(newToken) {
          headers := headers["Authorization" := "Bearer " + newToken.value];
        }
      } else {
        ClearTokens();
        headers := headers - {"Authorization"};
      }
      assert headers == RetryHeaders(first.headers, refresh.refreshed, newAuth);
      assert jar == o.jar && |sent| == |old(sent)| + |refresh.calls|;
      var response := Fetch(FetchCall(first.url, first.verb, first.body, headers));
      r := Shape(response);
    }

    method Request(endpoint: string, init: RequestInit) returns (r: ApiResponse<JsonObject>)
      requires Valid()
      modifies this
      ensures Valid()
      ensures var e := RequestOutcome(hasWindow, apiUrl, old(jar), server, |old(sent)|, endpoint, init);
              r == e.response && jar == e.jar && sent == old(sent) + e.calls
    {
      var token := GetToken();
      var first := FetchCall(apiUrl + endpoint, init.verb, init.body, InitialHeaders(init, token));
      ghost var jar0, sent0 := jar, sent;
      ghost var o := RetryOutcome(hasWindow, apiUrl, jar, server, |sent| + 1, first);
      var response := Fetch(first);
      if Unauthorized(response) {
        assert jar == jar0 && |sent| == |sent0| + 1;
        r := RetryUnauthorized(first);
        assert sent == sent0 + ([first] + o.calls);
      } else {
        r := Shape(response);
      }
      RequestCases(hasWindow, apiUrl, jar0, server, |sent0|, endpoint, init);
    }

    method Logout()
      requires Valid()
      modifies this
      ensures Valid()
      ensures var (jar', calls) := LogoutOutcome(hasWindow, apiUrl, old(jar), server, |old(sent)|);
              jar == jar' && sent == old(sent) + calls
    {
      var refreshToken := GetRefreshToken();
      if Truthy(refreshToken) {
        var _ := Request("/auth/logout/", LogoutInit(refreshToken.value));
      }
      ClearTokens();
    }

    method IsAuthenticated() returns (authenticated: bool)
      requires Valid()
      ensures authenticated <==> Truthy(Token(hasWindow, jar, AuthCookie))
    {
      var token := GetToken();
      authenticated := Truthy(token);
    }

    method GetAuthHeader() returns (headers: map<string, string>)
      requires Valid()
      ensures Truthy(Token(hasWindow, jar, AuthCookie)) ==> headers == map["Authorization" := "Bearer " + Token(hasWindow, jar, AuthCookie).value]
      ensures !Truthy(Token(hasWindow, jar, AuthCookie)) ==> headers == map[]
    {
      var token := GetToken();
      headers := if Truthy(token) then map["Authorization" := "Bearer " + token.value] else map[];
    }

    method GetProducts(filters: Option<map<string, string>>, encode: map<string, string> -> string) returns (r: ApiResponse<JsonObject>)
      requires Valid()
      modifies this
      ensures Valid()
      ensures var e := RequestOutcome(hasWindow, apiUrl, old(jar), server, |old(sent)|, ProductsEndpoint(filters, encode), RequestInit("GET", None, None));
              r == e.response && jar == e.jar && sent == old(sent) + e.calls
    {
      var endpoint := "/products/";
      if filters.Some? && |filters.value| > 0 {
        endpoint := endpoint + "?" + encode(filters.value);
      }
      assert endpoint == ProductsEndpoint(filters, encode);
      r := Request(endpoint, RequestInit("GET", None, None));
    }
  }
}
