/**
 * The shared HTTP client of `lib/axios.js`: a fixed base URL, a JSON content
 * type, and a request interceptor that adds `Authorization: Bearer <token>`
 * (the bearer credentials of section 2.1 of RFC 6750) when an access token is
 * stored.  The network itself is not modelled: a request is the record of what
 * would be sent, and its outcome is a `Reply` the caller supplies.
 */
module Axios {
  import opened Common
  import opened JsValues
  import opened BrowserStorage

  const BaseUrl: string := "https://backend-production-1d4d.up.railway.app/api/"

  const DefaultHeaders: map<string, string> := map["Content-Type" := "application/json"]

  datatype Method = Get | Post | Put | Delete

  /** What is sent: method, full URL, body, and the `Authorization` header if there is one. */
  datatype Request = Request(verb: Method, url: string, body: Value, authorization: Option<string>)

  /** Why a request failed: no response arrived, or the server answered with an error status and a body. */
  datatype HttpError = NoResponse | ErrorResponse(data: Value)

  /** The outcome of one request: the response body, or the error axios rejects with. */
  datatype Reply = Success(data: Value) | Failure(error: HttpError)

  /** `err.response?.data`. */
  function ErrorData(e: HttpError): (d: Value)
    ensures e.NoResponse? ==> d == Undefined
  {
    match e
    case NoResponse => Undefined
    case ErrorResponse(data) => data
  }

  // ---------------------------------------------------------------------------
  // URLs

  predicate IsSchemeChar(c: char)
  {
    ('a' <= c <= 'z') || ('A' <= c <= 'Z') || ('0' <= c <= '9') || c == '+' || c == '-' || c == '.'
  }

  /** The length of the longest run of scheme characters at the start of `s`. */
  function SchemeRun(s: string): (n: nat)
    ensures n <= |s| && forall i | 0 <= i < n :: IsSchemeChar(s[i])
    ensures n < |s| ==> !IsSchemeChar(s[n])
  {
    if s != [] && IsSchemeChar(s[0]) then 1 + SchemeRun(s[1..]) else 0
  }

  /** Whether axios treats `url` as absolute: `//` or a scheme followed by `://`. */
  predicate IsAbsoluteUrl(url: string)
  {
    StartsWith(url, "//")
    || (url != [] && (('a' <= url[0] <= 'z') || ('A' <= url[0] <= 'Z'))
        && StartsWith(url[SchemeRun(url)..], "://"))
  }

  function TrimTrailingSlashes(s: string): (r: string)
    ensures StartsWith(s, r) && (r == [] || r[|r| - 1] != '/')
  {
    if s != [] && s[|s| - 1] == '/' then TrimTrailingSlashes(s[..|s| - 1]) else s
  }

  /** `s` without its leading run of `c`: a suffix of `s` that does not start with `c`. */
  function DropLeading(s: string, c: char): (r: string)
    ensures |r| <= |s| && r == s[|s| - |r|..] && (r == [] || r[0] != c)
  {
    if s != [] && s[0] == c then DropLeading(s[1..], c) else s
  }

  /** The URL a request goes to: a relative URL is joined to the base with exactly one slash. */
  function FullUrl(base: string, url: string): string
  {
    if IsAbsoluteUrl(url) || base == [] then url
    else if url == [] then base
    else TrimTrailingSlashes(base) + "/" + DropLeading(url, '/')
  }

  /** The API paths the screens use (`/auth/session/`, `/productos/7/`) land under the base URL. */
  lemma FullUrlOfPath(path: string)
    requires |path| > 1 && path[0] == '/' && path[1] != '/'
    ensures FullUrl(BaseUrl, path) == BaseUrl + path[1..]
  {
    assert !IsAbsoluteUrl(path);
    var stripped := BaseUrl[..|BaseUrl| - 1];
    assert TrimTrailingSlashes(stripped) == stripped;
    assert DropLeading(path[1..], '/') == path[1..];
    assert stripped + "/" == BaseUrl;
  }

  // ---------------------------------------------------------------------------
  // Bearer credentials (section 2.1 of RFC 6750)

  /** The characters of a `b64token` before its `=` padding. */
  predicate IsB64Char(c: char)
  {
    ('a' <= c <= 'z') || ('A' <= c <= 'Z') || ('0' <= c <= '9')
    || c == '-' || c == '.' || c == '_' || c == '~' || c == '+' || c == '/'
  }

  /** The length of the run of `b64token` characters at the start of `t`. */
  function B64Run(t: string): (n: nat)
    ensures n <= |t| && forall i | 0 <= i < n :: IsB64Char(t[i])
    ensures n < |t| ==> !IsB64Char(t[n])
  {
    if t != [] && IsB64Char(t[0]) then 1 + B64Run(t[1..]) else 0
  }

  /** `b64token = 1*( ALPHA / DIGIT / "-" / "." / "_" / "~" / "+" / "/" ) *"="`. */
  predicate IsB64Token(t: string)
  {
    var n := B64Run(t);
    n >= 1 && forall i | n <= i < |t| :: t[i] == '='
  }

  /** `credentials = "Bearer" 1*SP b64token`. */
  predicate IsBearerCredentials(h: string)
  {
    StartsWith(h, "Bearer ") && IsB64Token(DropLeading(h[7..], ' '))
  }

  /** The header value the interceptor writes for a token. */
  function BearerCredentials(token: string): (h: string)
    ensures StartsWith(h, "Bearer ") && h[7..] == token
  {
    "Bearer " + token
  }

  /** The token of a header of that form. */
  function ParseBearer(h: string): (t: Option<string>)
    ensures t.Some? ==> BearerCredentials(t.value) == h
  {
    if StartsWith(h, "Bearer ") then Some(h[7..]) else None
  }

  lemma ParseBearerRoundTrip(token: string)
    ensures ParseBearer(BearerCredentials(token)) == Some(token)
  {
  }

  /** The header is valid RFC 6750 credentials exactly when the stored token is a `b64token`, as a JWT is. */
  lemma BearerConforms(token: string)
    requires token == [] || token[0] != ' '
    ensures IsBearerCredentials(BearerCredentials(token)) <==> IsB64Token(token)
  {
    var h := BearerCredentials(token);
    assert h[7..] == token;
    assert DropLeading(token, ' ') == token;
  }

  // ---------------------------------------------------------------------------
  // The interceptor

  /** The token the interceptor sends: the stored `access_token` when it is a non-empty string. */
  function TokenOf(items: map<string, Item>): (t: Option<string>)
    ensures t.Some? <==> Truthy(GetItemValue(items, "access_token"))
    ensures t.Some? ==> t.value == ItemText(items["access_token"]) && t.value != ""
  {
    if "access_token" in items && ItemText(items["access_token"]) != "" then Some(ItemText(items["access_token"]))
    else None
  }

  /** The `Authorization` header the interceptor adds, if any. */
  function AuthorizationFor(items: map<string, Item>): (a: Option<string>)
    ensures a.Some? <==> TokenOf(items).Some?
    ensures a.Some? ==> ParseBearer(a.value) == TokenOf(items)
  {
    match TokenOf(items)
    case Some(token) => Some(BearerCredentials(token))
    case None => None
  }

  /**
   * The headers after the interceptor: with a token, `Authorization` is set to
   * its bearer credentials; without one nothing changes, and an
   * `Authorization` header already present stays.
   */
  function Intercepted(headers: map<string, string>, items: map<string, Item>): (r: map<string, string>)
    ensures "Authorization" in r <==> "Authorization" in headers || TokenOf(items).Some?
    ensures TokenOf(items).Some? ==> r["Authorization"] == "Bearer " + TokenOf(items).value
    ensures TokenOf(items).None? ==> r == headers
    ensures forall k | k in headers && k != "Authorization" :: k in r && r[k] == headers[k]
    ensures forall k | k in r && k != "Authorization" :: k in headers
  {
    match AuthorizationFor(items)
    case Some(credentials) => headers["Authorization" := credentials]
    case None => headers
  }

  /** A request config as axios hands it to an interceptor. */
  class RequestConfig {
    var verb: Method
    var url: string
    var data: Value
    var headers: map<string, string>

    constructor(verb: Method, url: string, data: Value, headers: map<string, string>)
      ensures this.verb == verb && this.url == url && this.data == data && this.headers == headers
    {
      this.verb := verb;
      this.url := url;
      this.data := data;
      this.headers := headers;
    }
  }

  /** The request interceptor: reads the stored token and writes the header into the config it returns. */
  method Intercept(config: RequestConfig, storage: LocalStorage) returns (r: RequestConfig)
    modifies config
    ensures r == config
    ensures config.headers == Intercepted(old(config.headers), storage.items)
    ensures config.verb == old(config.verb) && config.url == old(config.url) && config.data == old(config.data)
  {
    var token := storage.GetItem("access_token");
    if Truthy(token) {
      config.headers := config.headers["Authorization" := BearerCredentials(token.s)];
    }
    return config;
  }

  /** The record of a request sent through the shared client while storage holds `items`. */
  function ApiRequest(verb: Method, path: string, body: Value, items: map<string, Item>): (r: Request)
    ensures r.authorization == AuthorizationFor(items)
  {
    Request(verb, FullUrl(BaseUrl, path), body, AuthorizationFor(items))
  }

  /** The record of a request sent with the bare axios import: no base URL and no interceptor. */
  function PlainRequest(verb: Method, url: string, body: Value): (r: Request)
    ensures r.authorization.None?
  {
    Request(verb, url, body, None)
  }

  /** Builds the config for a request through the shared client and runs the interceptor on it. */
  method Prepare(verb: Method, path: string, body: Value, storage: LocalStorage) returns (config: RequestConfig)
    ensures fresh(config)
    ensures config.verb == verb && config.url == FullUrl(BaseUrl, path) && config.data == body
    ensures config.headers == Intercepted(DefaultHeaders, storage.items)
    ensures var sent := ApiRequest(verb, path, body, storage.items);
      sent.url == config.url && sent.authorization == if "Authorization" in config.headers then Some(config.headers["Authorization"]) else None
  {
    config := new RequestConfig(verb, FullUrl(BaseUrl, path), body, DefaultHeaders);
    config := Intercept(config, storage);
  }

  /** Every request through the shared client is JSON, whatever is stored. */
  lemma ContentTypeAlwaysJson(items: map<string, Item>)
    ensures "Content-Type" in Intercepted(DefaultHeaders, items)
    ensures Intercepted(DefaultHeaders, items)["Content-Type"] == "application/json"
  {
  }
}
