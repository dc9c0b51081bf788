/** The shared HTTP client: its base URL, the request interceptor that
    adds the bearer token, and the response interceptor that refreshes the
    tokens once on a 401 and retries, or signs the user out. */
module ApiClient {
  import opened Wrappers
  import opened Text
  import opened Storage

  /** `getBaseURL()`: "" when the variable is unset or empty, otherwise the
      value without one trailing slash. */
  function BaseUrl(apiUrl: Option<string>): (r: string)
    ensures !Truthy(apiUrl) ==> r == ""
    ensures Truthy(apiUrl) && HasSuffix(apiUrl.value, "/") ==> r + "/" == apiUrl.value
    ensures Truthy(apiUrl) && !HasSuffix(apiUrl.value, "/") ==> r == apiUrl.value
  {
    if !Truthy(apiUrl) then ""
    else
      var u := apiUrl.value;
      if u[|u| - 1] == '/' then
        assert u[..|u| - 1] + "/" == u;
        u[..|u| - 1]
      else u
  }

  /** Only one slash goes: a value ending in two keeps one. */
  lemma OneSlashRemoved()
    ensures BaseUrl(Some("http://api//")) == "http://api/"
    ensures BaseUrl(Some("/")) == ""
  {
    var u := "http://api//";
    assert u[|u| - 1] == '/' && u[..|u| - 1] == "http://api/";
  }

  const RefreshPath := "/api/token/refresh/"

  /** The refresh endpoint: under the base, or the relative path when the
      base is "". */
  function RefreshUrl(base: string): (r: string)
    ensures base == "" ==> r == RefreshPath
    ensures base != "" ==> r == base + RefreshPath
  {
    if base != "" then base + RefreshPath else RefreshPath
  }

  /** The two branches agree: the endpoint is always the base followed by
      the path. */
  lemma RefreshUrlUniform(base: string)
    ensures RefreshUrl(base) == base + RefreshPath
  {
    if base == "" {
      assert base + RefreshPath == RefreshPath;
    }
  }

  /** `${v}` of a value that may be `undefined`. */
  function Str(v: Option<string>): string {
    v.GetOr("undefined")
  }

  /** The parts of an axios request configuration the interceptors touch. */
  class RequestConfig {
    var headers: map<string, string>
    var retry: bool

    constructor(headers: map<string, string>)
      ensures this.headers == headers && !retry
    {
      this.headers := headers;
      retry := false;
    }
  }

  /** The headers after the request interceptor. */
  function Authorized(headers: map<string, string>, accessToken: Option<string>): (r: map<string, string>)
    ensures Truthy(accessToken) ==> "Authorization" in r && r["Authorization"] == "Bearer " + accessToken.value
    ensures !Truthy(accessToken) ==> r == headers
    ensures forall h :: h != "Authorization" ==> (h in r <==> h in headers) && (h in r ==> r[h] == headers[h])
  {
    if Truthy(accessToken) then headers["Authorization" := "Bearer " + accessToken.value] else headers
  }

  /** The request interceptor, on every request: sets `Authorization`
      when an access token is stored and changes nothing else. */
  method InterceptRequest(config: RequestConfig, storage: LocalStorage)
    modifies config
    ensures config.headers == Authorized(old(config.headers), storage.Get(AccessToken))
    ensures config.retry == old(config.retry)
  {
    var token := storage.Get(AccessToken);
    if Truthy(token) {
      config.headers := config.headers["Authorization" := "Bearer " + token.value];
    }
  }

  /** What the response interceptor does with a failed response. */
  datatype ErrorAction =
    | Reject                                      // the error goes to the caller unchanged
    | PostRefresh(url: string, refreshToken: string)  // the refresh request is sent
    | SignOut                                     // tokens removed, browser sent to /sign-in

  /** The decision on a failed response: only a first 401 leads to a
      refresh, and only when a refresh token is stored. */
  function OnErrorAction(status: Option<int>, retried: bool, refreshToken: Option<string>, base: string): (a: ErrorAction)
    ensures a != Reject <==> status == Some(401) && !retried
    ensures a.PostRefresh? <==> status == Some(401) && !retried && Truthy(refreshToken)
    ensures a.PostRefresh? ==> a == PostRefresh(RefreshUrl(base), refreshToken.value)
  {
    if status == Some(401) && !retried then
      if Truthy(refreshToken) then PostRefresh(RefreshUrl(base), refreshToken.value) else SignOut
    else Reject
  }

  /** The response interceptor's error handler, up to the refresh request. */
  method OnError(config: RequestConfig, storage: LocalStorage, status: Option<int>, base: string)
    returns (action: ErrorAction)
    modifies config, storage
    ensures action == OnErrorAction(status, old(config.retry), old(storage.Get(RefreshToken)), base)
    ensures config.retry == (old(config.retry) || status == Some(401))
    ensures config.headers == old(config.headers)
    ensures action.SignOut? ==> storage.items == old(storage.items) - {AccessToken, RefreshToken}
    ensures !action.SignOut? ==> storage.items == old(storage.items)
  {
    if status == Some(401) && !config.retry {
      config.retry := true;
      var refreshToken := storage.Get(RefreshToken);
      if !Truthy(refreshToken) {
        SignOutTokens(storage);
        return SignOut;
      }
      return PostRefresh(RefreshUrl(base), refreshToken.value);
    }
    return Reject;
  }

  /** The `catch` branch: both tokens go. */
  method SignOutTokens(storage: LocalStorage)
    modifies storage
    ensures storage.items == old(storage.items) - {AccessToken, RefreshToken}
  {
    storage.Remove(AccessToken);
    storage.Remove(RefreshToken);
    assert storage.items == old(storage.items) - {AccessToken} - {RefreshToken};
  }

  /** The outcome of the refresh request: the response body's `access`
      and `refresh`, which may be absent, or a failure (including a body
      that cannot be destructured). */
  datatype RefreshReply = Refreshed(access: Option<string>, refresh: Option<string>) | RefreshFailed

  datatype RetryAction = RetryRequest | SignedOut

  /** The rest of the handler: store the new tokens, put the new bearer
      header on the original request and send it again; on failure sign
      out. Absent values are stored as JavaScript writes them, as
      `"undefined"`. */
  method OnRefreshReply(config: RequestConfig, storage: LocalStorage, reply: RefreshReply) returns (action: RetryAction)
    modifies config, storage
    ensures config.retry == old(config.retry)
    ensures reply.Refreshed? ==>
      && action == RetryRequest
      && storage.items == old(storage.items)[AccessToken := Str(reply.access)][RefreshToken := Str(reply.refresh)]
      && config.headers == old(config.headers)["Authorization" := "Bearer " + Str(reply.access)]
    ensures reply.RefreshFailed? ==>
      action == SignedOut && storage.items == old(storage.items) - {AccessToken, RefreshToken} && config.headers == old(config.headers)
  {
    if reply.RefreshFailed? {
      SignOutTokens(storage);
      return SignedOut;
    }
    storage.Set(AccessToken, Str(reply.access));
    storage.Set(RefreshToken, Str(reply.refresh));
    config.headers := config.headers["Authorization" := "Bearer " + Str(reply.access)];
    return RetryRequest;
  }

  /** The retried request passes the request interceptor again, which
      puts the same bearer header on it. */
  lemma RetryKeepsNewBearer(headers: map<string, string>, access: Option<string>)
    requires Str(access) != ""
    ensures Authorized(headers["Authorization" := "Bearer " + Str(access)], Some(Str(access)))
         == headers["Authorization" := "Bearer " + Str(access)]
  {
  }

  /** The number of refresh requests for one request whose successive
      responses have the given statuses, each first decided by the
      response interceptor: a response counts when `OnErrorAction` posts a
      refresh, and a 401 sets the request's retry flag for the responses
      after it. The stored refresh token is the one read at the first 401;
      once the flag is set it is never read again. */
  function Refreshes(retried: bool, refreshToken: Option<string>, base: string, statuses: seq<int>): nat
    decreases |statuses|
  {
    if statuses == [] then 0
    else
      var a := OnErrorAction(Some(statuses[0]), retried, refreshToken, base);
      (if a.PostRefresh? then 1 else 0) + Refreshes(retried || statuses[0] == 401, refreshToken, base, statuses[1..])
  }

  /** Once the flag is set no refresh follows. */
  lemma {:induction false} NoRefreshAfterRetry(refreshToken: Option<string>, base: string, statuses: seq<int>)
    ensures Refreshes(true, refreshToken, base, statuses) == 0
  {
    if statuses != [] {
      NoRefreshAfterRetry(refreshToken, base, statuses[1..]);
    }
  }

  /** However many 401s come back, a request is refreshed at most once,
      and it is refreshed exactly when a 401 comes and a refresh token is
      stored; with no refresh token the first 401 signs out instead. */
  lemma {:induction false} AtMostOneRefresh(refreshToken: Option<string>, base: string, statuses: seq<int>)
    ensures Refreshes(false, refreshToken, base, statuses) <= 1
    ensures Refreshes(false, refreshToken, base, statuses) == 1 <==> 401 in statuses && Truthy(refreshToken)
  {
    if statuses != [] {
      if statuses[0] == 401 {
        NoRefreshAfterRetry(refreshToken, base, statuses[1..]);
      } else {
        AtMostOneRefresh(refreshToken, base, statuses[1..]);
        assert 401 in statuses <==> 401 in statuses[1..] by {
          assert statuses == [statuses[0]] + statuses[1..];
        }
      }
    }
  }
}
