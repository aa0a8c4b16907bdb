/**
 * The API client object: the fields its constructor sets up, the
 * `access_token` property whose setter edits the bearer session's headers in
 * place, `is_opensource_api`, and the state effect of `revoke_token`.
 */
module Client {
  import opened Wrappers
  import opened Text
  import opened Json
  import opened Errors
  import opened Urls
  import opened Mediator

  const AuthorizationHeader: string := "Authorization"
  const SchemeSeparator: string := "://"

  /** The headers both sessions start from: the wrapper name and the User-Agent string. */
  function WrapperHeaders(userAgent: string): map<string, string>
  {
    map["X-Nylas-API-Wrapper" := "python", "User-Agent" := userAgent]
  }

  /** Python truthiness of an access token: `None` and the empty string are false. */
  predicate TokenTruthy(value: Option<string>)
  {
    value.Some? && value.value != ""
  }

  /**
   * The header map after the `access_token` setter: a truthy token sets
   * `Authorization: Bearer <token>`, a falsy one removes `Authorization`;
   * no other header changes.
   */
  function WithToken(headers: map<string, string>, value: Option<string>): (h: map<string, string>)
    ensures TokenTruthy(value) ==> AuthorizationHeader in h && h[AuthorizationHeader] == "Bearer " + value.value
    ensures !TokenTruthy(value) ==> AuthorizationHeader !in h
    ensures h.Keys - {AuthorizationHeader} == headers.Keys - {AuthorizationHeader}
    ensures forall k :: k in headers && k != AuthorizationHeader ==> k in h && h[k] == headers[k]
  {
    if TokenTruthy(value) then headers[AuthorizationHeader := "Bearer " + value.value]
    else headers - {AuthorizationHeader}
  }

  /** The admin session's headers: Basic auth from the app secret, or the transport's defaults. */
  function AdminHeaders(appSecret: Option<string>, userAgent: string, defaultHeaders: map<string, string>,
                        base64: string -> string): (h: map<string, string>)
    ensures appSecret.None? ==> h == defaultHeaders
    ensures appSecret.Some? ==>
      h == WrapperHeaders(userAgent)[AuthorizationHeader := "Basic " + base64(appSecret.value + ":")]
    ensures appSecret.Some? ==> h.Keys == {AuthorizationHeader, "X-Nylas-API-Wrapper", "User-Agent"}
  {
    match appSecret
    case None => defaultHeaders
    case Some(secret) => WrapperHeaders(userAgent)[AuthorizationHeader := "Basic " + base64(secret + ":")]
  }

  class APIClient {
    const apiServer: string
    const authorizeUrl: string
    const accessTokenUrl: string
    const revokeUrl: string
    const appSecret: Option<string>
    const appId: Option<string>
    /** The admin session's headers, fixed at construction. */
    const adminSessionHeaders: map<string, string>
    /** The User-Agent string both sessions were set up with. */
    ghost const userAgent: string
    /** The transport's default session headers, which the admin session keeps without an app secret. */
    ghost const transportDefaults: map<string, string>
    /** The base64 encoding the Basic-auth header was built with. */
    ghost const base64: string -> string

    /** `_access_token`, the value behind the `access_token` property. */
    var accessToken: Option<string>
    var authToken: Option<string>
    /** The bearer session's headers, which the `access_token` setter edits. */
    var sessionHeaders: map<string, string>

    /** The bearer session's `Authorization` header agrees with the current access token. */
    ghost predicate BearerConsistent()
      reads this
    {
      && (AuthorizationHeader in sessionHeaders <==> TokenTruthy(accessToken))
      && (TokenTruthy(accessToken) ==> sessionHeaders[AuthorizationHeader] == "Bearer " + accessToken.value)
    }

    /** The admin session's headers are the ones the constructor derived from the app secret. */
    ghost predicate AdminSetUp()
    {
      adminSessionHeaders == AdminHeaders(appSecret, userAgent, transportDefaults, base64)
    }

    /**
     * `APIClient.__init__` for an `api_server` that contains "://". The
     * User-Agent string, the transport's default headers and base64 encoding
     * are parameters.
     */
    constructor (appId: Option<string>, appSecret: Option<string>, accessToken: Option<string>,
                 apiServer: string, userAgent: string, defaultHeaders: map<string, string>,
                 base64: string -> string)
      requires Contains(apiServer, SchemeSeparator)
      ensures this.apiServer == apiServer && this.appId == appId && this.appSecret == appSecret
      ensures authorizeUrl == apiServer + "/oauth/authorize"
      ensures accessTokenUrl == apiServer + "/oauth/token"
      ensures revokeUrl == apiServer + "/oauth/revoke"
      ensures this.accessToken == accessToken && authToken == None
      ensures sessionHeaders == WithToken(WrapperHeaders(userAgent), accessToken)
      ensures adminSessionHeaders == AdminHeaders(appSecret, userAgent, defaultHeaders, base64)
      ensures this.userAgent == userAgent && transportDefaults == defaultHeaders && this.base64 == base64
      ensures AdminSetUp() && BearerConsistent()
    {
      this.apiServer := apiServer;
      authorizeUrl := apiServer + "/oauth/authorize";
      accessTokenUrl := apiServer + "/oauth/token";
      revokeUrl := apiServer + "/oauth/revoke";
      this.appSecret := appSecret;
      this.appId := appId;
      adminSessionHeaders := AdminHeaders(appSecret, userAgent, defaultHeaders, base64);
      this.userAgent := userAgent;
      transportDefaults := defaultHeaders;
      this.base64 := base64;
      new;
      sessionHeaders := WrapperHeaders(userAgent);
      this.accessToken := None;
      SetAccessToken(accessToken);
      authToken := None;
    }

    /** `APIClient(...)`: raises when `api_server` has no scheme separator. */
    static method New(appId: Option<string>, appSecret: Option<string>, accessToken: Option<string>,
                      apiServer: string, userAgent: string, defaultHeaders: map<string, string>,
                      base64: string -> string) returns (r: Result<APIClient, string>)
      ensures r.Failure? <==> !Contains(apiServer, SchemeSeparator)
      ensures r.Success? ==> fresh(r.value)
      ensures r.Success? ==> var c := r.value;
        && c.apiServer == apiServer && c.appId == appId && c.appSecret == appSecret
        && c.authorizeUrl == apiServer + "/oauth/authorize"
        && c.accessTokenUrl == apiServer + "/oauth/token"
        && c.revokeUrl == apiServer + "/oauth/revoke"
        && c.accessToken == accessToken && c.authToken == None
        && c.sessionHeaders == WithToken(WrapperHeaders(userAgent), accessToken)
        && c.adminSessionHeaders == AdminHeaders(appSecret, userAgent, defaultHeaders, base64)
        && c.userAgent == userAgent && c.transportDefaults == defaultHeaders && c.base64 == base64
        && c.AdminSetUp() && c.BearerConsistent()
    {
      if !Contains(apiServer, SchemeSeparator) {
        return Failure("When overriding the Nylas API server address, you must include https://");
      }
      var c := new APIClient(appId, appSecret, accessToken, apiServer, userAgent, defaultHeaders, base64);
      return Success(c);
    }

    /** The `access_token` setter. */
    method SetAccessToken(value: Option<string>)
      modifies this`accessToken, this`sessionHeaders
      ensures accessToken == value
      ensures sessionHeaders == WithToken(old(sessionHeaders), value)
      ensures BearerConsistent()
    {
      accessToken := value;
      if TokenTruthy(value) {
        sessionHeaders := sessionHeaders[AuthorizationHeader := "Bearer " + value.value];
      } else if AuthorizationHeader in sessionHeaders {
        sessionHeaders := sessionHeaders - {AuthorizationHeader};
      }
      assert sessionHeaders == WithToken(old(sessionHeaders), value);
    }

    /** `is_opensource_api`: neither an app id nor an app secret is configured. */
    function IsOpensourceApi(): (r: bool)
      ensures r <==> appId == None && appSecret == None
    {
      appId.None? && appSecret.None?
    }

    /** The fields URL composition reads. */
    function Endpoint(): (e: Endpoint)
      ensures e.apiServer == apiServer && e.appId == appId
    {
      Urls.Endpoint(apiServer, appId)
    }

    /** The headers of the session `_get_http_session(api_root)` returns. */
    function SessionHeadersFor(apiRoot: string): (h: map<string, string>)
      reads this
      ensures apiRoot == AdminRoot ==> h == adminSessionHeaders
      ensures apiRoot != AdminRoot ==> h == sessionHeaders
    {
      match SessionFor(apiRoot)
      case AdminSession => adminSessionHeaders
      case BearerSession => sessionHeaders
    }

    /**
     * The GET `_get_resource_raw` sends from this client: the caller's headers
     * updated with the bearer session's current headers, so that the current
     * access token, and no caller-supplied `Authorization`, signs the request.
     */
    function RawRequest(cls: ResourceClass, id: string, extra: Option<string>, headers: map<string, string>,
                        filters: Params, urlConcat: (string, Params) -> string): (r: Request)
      reads this
      ensures r == GetRawRequest(Endpoint(), cls, id, extra, headers, sessionHeaders, filters, urlConcat)
      ensures BearerConsistent() && TokenTruthy(accessToken) ==>
        r.headers[AuthorizationHeader] == "Bearer " + accessToken.value
      ensures BearerConsistent() && !TokenTruthy(accessToken) ==>
        (AuthorizationHeader in r.headers <==> AuthorizationHeader in headers)
    {
      GetRawRequest(Endpoint(), cls, id, extra, headers, sessionHeaders, filters, urlConcat)
    }

    /**
     * The POST `_create_resource` sends from this client: JSON data carries the
     * bearer session's current headers, whichever session the root selects.
     */
    function CreateRequestFor(cls: ResourceClass, data: Json, kwargs: Params,
                              urlencode: Params -> string): (r: Request)
      reads this
      ensures r == CreateRequest(Endpoint(), cls, data, kwargs, sessionHeaders, urlencode)
      ensures !cls.isFile && BearerConsistent() && TokenTruthy(accessToken) ==>
        r.headers[AuthorizationHeader] == "Bearer " + accessToken.value
    {
      CreateRequest(Endpoint(), cls, data, kwargs, sessionHeaders, urlencode)
    }

    /** The POST `revoke_token` sends: the revoke URL, on the bearer session, with no body. */
    function RevokeRequest(): (r: Request)
      ensures r.verb == POST && r.session == BearerSession && r.url == revokeUrl
      ensures r.headers == map[] && r.body == NoBody
    {
      Request(POST, BearerSession, revokeUrl, map[], NoBody)
    }

    /**
     * `revoke_token`, given the transport's answer to the revoke POST: after a
     * successful validation both tokens are cleared, and so is the bearer
     * session's `Authorization`; an error leaves the client as it was.
     */
    method RevokeToken(t: Transport, parse: string -> Option<Json>) returns (request: Request, r: Result<(), Error>)
      modifies this`accessToken, this`authToken, this`sessionHeaders
      ensures request == RevokeRequest()
      ensures r.Success? <==> t.Delivered? && t.response.status == 200
      ensures r.Failure? ==> r.error == Validated(apiServer, t, parse).error
      ensures r.Failure? ==> unchanged(this)
      ensures r.Success? ==> accessToken == None && authToken == None
      ensures r.Success? ==> sessionHeaders == WithToken(old(sessionHeaders), None) && BearerConsistent()
    {
      request := RevokeRequest();
      var v := Validated(apiServer, t, parse);
      if v.Failure? {
        return request, Failure(v.error);
      }
      authToken := None;
      SetAccessToken(None);
      return request, Success(());
    }
  }

  // ---------------------------------------------------------------- lemmas

  /** Only the last token set matters: setting a token twice is setting the second one. */
  lemma LastTokenWins(headers: map<string, string>, first: Option<string>, second: Option<string>)
    ensures WithToken(WithToken(headers, first), second) == WithToken(headers, second)
  {
  }

  /** Setting a token and then clearing it restores headers that had no `Authorization`. */
  lemma ClearingRestoresHeaders(headers: map<string, string>, token: Option<string>, cleared: Option<string>)
    requires AuthorizationHeader !in headers && !TokenTruthy(cleared)
    ensures WithToken(WithToken(headers, token), cleared) == headers
  {
  }

  /**
   * The bearer `Authorization` a raw GET carries is the latest token set, even
   * when the caller passes its own `Authorization` header.
   */
  lemma RawRequestCarriesLatestToken(e: Endpoint, cls: ResourceClass, id: string, extra: Option<string>,
                                     callerHeaders: map<string, string>, headers: map<string, string>,
                                     token: Option<string>, filters: Params,
                                     urlConcat: (string, Params) -> string)
    requires TokenTruthy(token)
    ensures var r := GetRawRequest(e, cls, id, extra, callerHeaders, WithToken(headers, token), filters, urlConcat);
      r.headers[AuthorizationHeader] == "Bearer " + token.value
  {
  }

  /** A client set up without app id and app secret keeps the transport's default admin headers. */
  lemma OpensourceHasNoAdminAuth(c: APIClient)
    requires c.AdminSetUp() && c.IsOpensourceApi()
    ensures c.adminSessionHeaders == c.transportDefaults
  {
  }

  /** A client set up with an app secret signs admin requests with Basic auth derived from it. */
  lemma AdminAuthFromSecret(c: APIClient)
    requires c.AdminSetUp() && c.appSecret.Some?
    ensures AuthorizationHeader in c.adminSessionHeaders
    ensures c.adminSessionHeaders[AuthorizationHeader] == "Basic " + c.base64(c.appSecret.value + ":")
    ensures c.SessionHeadersFor(AdminRoot)[AuthorizationHeader] == c.adminSessionHeaders[AuthorizationHeader]
  {
  }
}
