/** The two interceptors the shared HTTP client installs: the request
    interceptor puts the session's current token on every outgoing request,
    and the response interceptor signs the session out when a request fails
    with 401 or 403, handing every outcome on to the caller unchanged. */
module AxiosInterceptors {
  import opened JsValue
  import opened Rejection
  import AuthSlice

  const AuthorizationHeader := "Authorization"
  const BearerPrefix := "Bearer "

  /** An outgoing request's configuration; the interceptor edits its headers
      in place. */
  class RequestConfig {
    var url: string
    var headers: map<string, string>

    constructor (url: string, headers: map<string, string>)
      ensures this.url == url && this.headers == headers
    {
      this.url := url;
      this.headers := headers;
    }
  }

  /** A successful response as the caller receives it. */
  datatype Response = Response(status: int, body: string)

  /** How a request settles for its caller. */
  datatype Settled = Resolved(response: Response) | Rejected(error: HttpError)

  /** The headers a request goes out with, given the session's token at
      send time: a truthy token adds `Authorization: Bearer <token>`, and
      every other header is kept as it was. */
  function WithBearer(headers: map<string, string>, token: Option<string>): (r: map<string, string>)
    ensures forall k :: k != AuthorizationHeader ==> (k in r <==> k in headers)
    ensures forall k :: k != AuthorizationHeader && k in headers ==> r[k] == headers[k]
    ensures Truthy(token) ==> AuthorizationHeader in r && r[AuthorizationHeader] == BearerPrefix + token.value
    ensures !Truthy(token) ==> r == headers
  {
    if Truthy(token) then headers[AuthorizationHeader := BearerPrefix + token.value] else headers
  }

  /** The token can be read back off the header it produced. */
  lemma BearerRoundTrip(headers: map<string, string>, token: Option<string>)
    requires Truthy(token)
    ensures var v := WithBearer(headers, token)[AuthorizationHeader];
      v[..|BearerPrefix|] == BearerPrefix && v[|BearerPrefix|..] == token.value
  {
  }

  /** The request interceptor: reads the store's token when the request is
      sent and, when it is truthy, sets the authorization header on the
      request's own headers. The same configuration is handed on. */
  method OnRequest(store: AuthSlice.SessionStore, config: RequestConfig) returns (r: RequestConfig)
    modifies config
    ensures r == config
    ensures config.headers == WithBearer(old(config.headers), store.token)
    ensures config.url == old(config.url)
  {
    var token := store.token;
    if Truthy(token) {
      config.headers := config.headers[AuthorizationHeader := BearerPrefix + token.value];
    }
    r := config;
  }

  /** A failure signs the session out exactly when the server answered with
      401 or 403; a request without a response never does. */
  predicate TriggersLogout(e: HttpError)
    ensures e.response.None? ==> !TriggersLogout(e)
    ensures e.response.Some? && e.response.value.status != 401 && e.response.value.status != 403 ==> !TriggersLogout(e)
  {
    e.response.Some? && (e.response.value.status == 401 || e.response.value.status == 403)
  }

  /** The response interceptor, both handlers: a success is handed on as it
      is; a failure is handed on as the same rejection, after signing the
      session out when it is a 401 or 403. Any other failure leaves the
      session alone. */
  method OnSettled(store: AuthSlice.SessionStore, outcome: Settled) returns (r: Settled)
    requires store.Valid()
    modifies store
    ensures store.Valid()
    ensures r == outcome
    ensures outcome.Rejected? && TriggersLogout(outcome.error) ==>
      && store.user == None && store.token == None && !store.isAuthenticated
      && store.error == None && store.storedToken == None
      && store.isLoading == old(store.isLoading)
    ensures !(outcome.Rejected? && TriggersLogout(outcome.error)) ==>
      && store.user == old(store.user) && store.token == old(store.token)
      && store.isAuthenticated == old(store.isAuthenticated) && store.error == old(store.error)
      && store.storedToken == old(store.storedToken) && store.isLoading == old(store.isLoading)
  {
    if outcome.Rejected? && TriggersLogout(outcome.error) {
      store.Logout();
    }
    r := outcome;
  }

  /** Signed in with a token, a request that comes back 403 leaves the store
      with no token, not authenticated, nothing persisted, and the caller
      still receives the 403 failure. */
  method ForbiddenLogsOutScenario() returns (store: AuthSlice.SessionStore, seen: Settled)
    ensures store.token == None && !store.isAuthenticated && store.storedToken == None
    ensures seen.Rejected? && seen.error.response == Some(ErrorResponse(403, Some("Forbidden")))
  {
    store := new AuthSlice.SessionStore(None);
    store.LoginFulfilled(AuthSlice.LoginResponse(None, Some("tok123")));
    var config := new RequestConfig("/teams", map["Content-Type" := "application/json"]);
    config := OnRequest(store, config);
    assert config.headers[AuthorizationHeader] == "Bearer tok123";
    var failure := HttpError(Some(ErrorResponse(403, Some("Forbidden"))), true, "Request failed with status code 403");
    seen := OnSettled(store, Rejected(failure));
  }
}
