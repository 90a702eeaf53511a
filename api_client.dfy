/** The HTTP client every service goes through: the browser's token store (`tokenUtils` over
    `localStorage`), the request interceptor that adds the bearer header, and the response
    interceptor that answers a 401 by refreshing the access token once and reissuing the
    request. Server replies are inputs of the model. */
module ApiClient {
  import opened Wrappers

  const AccessTokenKey := "accessToken"
  const RefreshTokenKey := "refreshToken"
  const AuthorizationHeader := "Authorization"
  /** Where the interceptor sends the browser when the refresh fails. */
  const RefreshFailedRedirect := "/auth/login"
  const Unauthorized := 401

  datatype Tokens = Tokens(accessToken: string, refreshToken: string, expiresIn: string)

  /** The JSON body every endpoint answers with. */
  datatype ApiResponse<T> = ApiResponse(
    success: bool,
    message: string,
    data: Option<T>,
    user: Option<T>,
    tokens: Option<Tokens>,
    error: Option<string>,
    requiresEmailVerification: Option<bool>)

  /** A body with only `success` and `message`, as the services build for their own errors. */
  function Failure<T>(message: string): (r: ApiResponse<T>)
    ensures !r.success && r.message == message && r.user.None? && r.tokens.None?
  {
    ApiResponse(false, message, None, None, None, None, None)
  }

  /** What the server did with one HTTP request: an answer with a status and a body, or no
      answer at all (network failure, timeout). */
  datatype Reply<T> = Answer(status: int, body: ApiResponse<T>) | NoAnswer {
    /** axios resolves exactly the 2xx answers and rejects everything else. */
    predicate Succeeded() {
      Answer? && 200 <= status < 300
    }
    predicate IsUnauthorized() {
      Answer? && status == Unauthorized
    }
  }

  /** How the promise returned by the client settles: resolved with a response, or rejected
      with the error of a failed reply. */
  datatype Outcome<T> = Resolved(status: int, body: ApiResponse<T>) | Rejected(failure: Reply<T>)

  /** The outcome axios gives a reply when no interceptor intervenes. */
  function Settled<T>(reply: Reply<T>): (o: Outcome<T>)
    ensures o.Resolved? <==> reply.Succeeded()
    ensures o.Resolved? ==> o.status == reply.status && o.body == reply.body
    ensures o.Rejected? ==> o.failure == reply
  {
    if reply.Succeeded() then Resolved(reply.status, reply.body) else Rejected(reply)
  }

  /** A request configuration: the endpoint, the headers and the `_retry` mark. */
  datatype Request = Request(path: string, headers: map<string, string>, retry: bool)

  // ---------------------------------------------------------------------------------------
  // The token store

  type Entries = map<string, string>

  /** JavaScript truthiness of a stored item: present and not the empty string. */
  predicate Truthy(v: Option<string>) {
    v.Some? && v.value != ""
  }

  /** `!!localStorage.getItem('accessToken')` */
  predicate HasAccessToken(m: Entries) {
    Truthy(Get(m, AccessTokenKey))
  }

  /** The store after `setTokens(access, refresh)`. */
  function WithTokens(m: Entries, access: string, refresh: string): (r: Entries)
    ensures Get(r, AccessTokenKey) == Some(access) && Get(r, RefreshTokenKey) == Some(refresh)
    ensures HasAccessToken(r) <==> access != ""
    ensures forall k :: k != AccessTokenKey && k != RefreshTokenKey ==> Get(r, k) == Get(m, k)
  {
    m[AccessTokenKey := access][RefreshTokenKey := refresh]
  }

  /** The store after `clearTokens()`. */
  function WithoutTokens(m: Entries): (r: Entries)
    ensures Get(r, AccessTokenKey).None? && Get(r, RefreshTokenKey).None?
    ensures !HasAccessToken(r)
    ensures forall k :: k != AccessTokenKey && k != RefreshTokenKey ==> Get(r, k) == Get(m, k)
  {
    m - {AccessTokenKey, RefreshTokenKey}
  }

  /** The browser's `localStorage`, of which the client uses two keys. */
  class LocalStorage {
    var entries: Entries

    constructor(initial: Entries)
      ensures entries == initial
    {
      entries := initial;
    }
  }

  /** `tokenUtils.setTokens` */
  method SetTokens(storage: LocalStorage, access: string, refresh: string)
    modifies storage
    ensures storage.entries == WithTokens(old(storage.entries), access, refresh)
  {
    storage.entries := storage.entries[AccessTokenKey := access];
    storage.entries := storage.entries[RefreshTokenKey := refresh];
  }

  /** `tokenUtils.getAccessToken`: `None` stands for `null`. */
  method GetAccessToken(storage: LocalStorage) returns (token: Option<string>)
    ensures token.Some? <==> AccessTokenKey in storage.entries
    ensures token.Some? ==> token.value == storage.entries[AccessTokenKey]
  {
    token := Get(storage.entries, AccessTokenKey);
  }

  /** `tokenUtils.getRefreshToken` */
  method GetRefreshToken(storage: LocalStorage) returns (token: Option<string>)
    ensures token.Some? <==> RefreshTokenKey in storage.entries
    ensures token.Some? ==> token.value == storage.entries[RefreshTokenKey]
  {
    token := Get(storage.entries, RefreshTokenKey);
  }

  /** `tokenUtils.clearTokens` */
  method ClearTokens(storage: LocalStorage)
    modifies storage
    ensures storage.entries == WithoutTokens(old(storage.entries))
  {
    storage.entries := storage.entries - {AccessTokenKey};
    storage.entries := storage.entries - {RefreshTokenKey};
  }

  /** `tokenUtils.isAuthenticated` */
  method IsAuthenticated(storage: LocalStorage) returns (b: bool)
    ensures b <==> AccessTokenKey in storage.entries && storage.entries[AccessTokenKey] != ""
  {
    var token := Get(storage.entries, AccessTokenKey);
    b := token.Some? && token.value != "";
  }

  /** Both getters see what `setTokens` stored, the session counts as authenticated exactly
      when the access token is not empty, and after `clearTokens` both getters see nothing;
      other keys are never touched. */
  lemma {:induction false} TokenRoundTrip(m: Entries, access: string, refresh: string, other: string)
    requires other != AccessTokenKey && other != RefreshTokenKey
    ensures var s := WithTokens(m, access, refresh);
      Get(s, AccessTokenKey) == Some(access) && Get(s, RefreshTokenKey) == Some(refresh)
      && (HasAccessToken(s) <==> access != "")
    ensures var c := WithoutTokens(WithTokens(m, access, refresh));
      Get(c, AccessTokenKey).None? && Get(c, RefreshTokenKey).None? && !HasAccessToken(c)
      && Get(c, other) == Get(m, other)
  {
  }

  // ---------------------------------------------------------------------------------------
  // The interceptors

  /** The bearer credential of section 2.1 of RFC 6750. */
  function Bearer(token: string): (h: string)
    ensures |h| == 7 + |token| && h[..7] == "Bearer " && h[7..] == token
  {
    "Bearer " + token
  }

  /** The request interceptor: the stored access token, when truthy, becomes the
      `Authorization` header; otherwise the request goes out as it is. */
  function Authorize(req: Request, m: Entries): (r: Request)
    ensures r.path == req.path && r.retry == req.retry
    ensures HasAccessToken(m) ==> r.headers == req.headers[AuthorizationHeader := Bearer(m[AccessTokenKey])]
    ensures !HasAccessToken(m) ==> r.headers == req.headers
  {
    if HasAccessToken(m) then
      req.(headers := req.headers[AuthorizationHeader := Bearer(m[AccessTokenKey])])
    else
      req
  }

  /** A request that had no `Authorization` header leaves with one exactly when an access
      token is stored, and then it carries that token. */
  lemma BearerExactlyWhenStored(req: Request, m: Entries)
    requires AuthorizationHeader !in req.headers
    ensures AuthorizationHeader in Authorize(req, m).headers <==> HasAccessToken(m)
    ensures HasAccessToken(m) ==>
      Authorize(req, m).headers[AuthorizationHeader] == Bearer(m[AccessTokenKey])
  {
  }

  /** A refresh reply the interceptor can use: a 2xx answer whose body has `tokens`. Any other
      reply makes the refresh throw (a rejection, or the destructuring of a missing `tokens`). */
  predicate RefreshGranted<U>(refreshReply: Reply<U>) {
    refreshReply.Succeeded() && refreshReply.body.tokens.Some?
  }

  /** One call of the client, interceptors included. `reply` is the server's reply to the
      request, `refreshReply` its reply to the refresh call and `retryReply` its reply to the
      reissued request; the last two are used only when the protocol gets that far. Besides
      the outcome, the method returns the redirect it ordered, the requests it sent (after the
      request interceptor) and the refresh token it posted, if it posted one. */
  method Send<T, U>(storage: LocalStorage, req: Request, reply: Reply<T>, refreshReply: Reply<U>, retryReply: Reply<T>)
    returns (outcome: Outcome<T>, redirect: Option<string>, sent: seq<Request>, refreshCall: Option<string>)
    modifies storage
    decreases if req.retry then 0 else 1
    ensures 1 <= |sent| <= 2 && sent[0] == Authorize(req, old(storage.entries))
    // Anything but a 401 on an unmarked request settles as axios settles it, changing nothing.
    ensures !(reply.IsUnauthorized() && !req.retry) ==>
      outcome == Settled(reply) && storage.entries == old(storage.entries)
      && |sent| == 1 && redirect.None? && refreshCall.None?
    // A 401 with no stored refresh token is rejected, tokens kept, no redirect.
    ensures reply.IsUnauthorized() && !req.retry && !Truthy(Get(old(storage.entries), RefreshTokenKey)) ==>
      outcome == Rejected(reply) && storage.entries == old(storage.entries)
      && |sent| == 1 && redirect.None? && refreshCall.None?
    // Otherwise the stored refresh token is posted, once.
    ensures reply.IsUnauthorized() && !req.retry && Truthy(Get(old(storage.entries), RefreshTokenKey)) ==>
      refreshCall == Some(old(storage.entries)[RefreshTokenKey])
    // A refresh that throws clears both tokens, redirects to the login page and rejects the
    // original error.
    ensures (reply.IsUnauthorized() && !req.retry && Truthy(Get(old(storage.entries), RefreshTokenKey))
             && !RefreshGranted(refreshReply)) ==>
      outcome == Rejected(reply) && storage.entries == WithoutTokens(old(storage.entries))
      && |sent| == 1 && redirect == Some(RefreshFailedRedirect)
    // A granted refresh stores only the new access token and reissues the request once,
    // marked, with the new bearer header; the reissued request's reply settles the call.
    ensures (reply.IsUnauthorized() && !req.retry && Truthy(Get(old(storage.entries), RefreshTokenKey))
             && RefreshGranted(refreshReply)) ==>
      var access := refreshReply.body.tokens.value.accessToken;
      storage.entries == old(storage.entries)[AccessTokenKey := access]
      && Get(storage.entries, RefreshTokenKey) == Get(old(storage.entries), RefreshTokenKey)
      && |sent| == 2 && sent[1].path == req.path && sent[1].retry
      && AuthorizationHeader in sent[1].headers && sent[1].headers[AuthorizationHeader] == Bearer(access)
      && outcome == Settled(retryReply) && redirect.None?
  {
    var out := Authorize(req, storage.entries);
    sent := [out];
    redirect := None;
    refreshCall := None;
    if reply.Succeeded() {
      outcome := Resolved(reply.status, reply.body);
      return;
    }
    if reply.IsUnauthorized() && !req.retry {
      var original := out.(retry := true);
      var refreshToken := Get(storage.entries, RefreshTokenKey);
      if refreshToken.Some? && refreshToken.value != "" {
        refreshCall := refreshToken;
        if RefreshGranted(refreshReply) {
          var access := refreshReply.body.tokens.value.accessToken;
          storage.entries := storage.entries[AccessTokenKey := access];
          original := original.(headers := original.headers[AuthorizationHeader := Bearer(access)]);
          var retried, _, retriedSent, _ := Send(storage, original, retryReply, refreshReply, retryReply);
          outcome := retried;
          sent := sent + retriedSent;
          return;
        }
        storage.entries := storage.entries - {AccessTokenKey};
        storage.entries := storage.entries - {RefreshTokenKey};
        redirect := Some(RefreshFailedRedirect);
      }
    }
    outcome := Rejected(reply);
  }
}
