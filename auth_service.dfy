/** The authentication service: each call goes through the client, returns the reply body on
    success and rethrows a normalised error body on failure; `login`, `logout` and
    `refreshToken` also write the token store. The client's settled outcome is an input. */
module AuthService {
  import opened Wrappers
  import opened ApiClient

  /** A user as the API describes it. */
  datatype User = User(
    id: int,
    name: string,
    lastName: string,
    email: string,
    region: string,
    city: string,
    phone: string,
    bio: string,
    habits: string,
    profilePhoto: Option<string>,
    role: string,
    isEmailVerified: bool,
    createdAt: string,
    updatedAt: string)

  const ConnectionErrorMessage := "Error de conexión"

  /** What a service call does: return the response body, or throw an error body. */
  datatype ServiceResult<T> = Returned(body: ApiResponse<T>) | Threw(error: ApiResponse<T>)

  /** `error.response?.data || {success: false, message: 'Error de conexión'}`: the body the
      server answered with, or a connection error when there was no answer. */
  function Rethrown<T>(failure: Reply<T>): (e: ApiResponse<T>)
    ensures failure.Answer? ==> e == failure.body
    ensures failure.NoAnswer? ==> !e.success && e.message == ConnectionErrorMessage && e.tokens.None?
  {
    match failure
    case Answer(_, body) => body
    case NoAnswer => Failure(ConnectionErrorMessage)
  }

  /** The uniform shape of every service call (`register`, `verifyEmail`,
      `resendVerificationCode`, `getCurrentUser`, `changePassword`, `forgotPassword`,
      `resetPassword`, and the reply handling of the others): a resolved call returns its body,
      a rejected one throws the normalised error, which never reports success unless the
      server's own error body did. */
  function Settle<T>(o: Outcome<T>): (r: ServiceResult<T>)
    ensures r.Returned? <==> o.Resolved?
    ensures o.Resolved? ==> r.body == o.body
    ensures o.Rejected? && o.failure.Answer? ==> r.error == o.failure.body
    ensures o.Rejected? && o.failure.NoAnswer? ==> r.error == Failure(ConnectionErrorMessage)
  {
    match o
    case Resolved(_, body) => Returned(body)
    case Rejected(failure) => Threw(Rethrown(failure))
  }

  /** The tokens a login or refresh reply hands over: those of a resolved reply whose body
      reports success and carries `tokens`. */
  function IssuedTokens<T>(o: Outcome<T>): (t: Option<Tokens>)
    ensures t.Some? <==> o.Resolved? && o.body.success && o.body.tokens.Some?
    ensures t.Some? ==> t == o.body.tokens
  {
    if o.Resolved? && o.body.success then o.body.tokens else None
  }

  /** The token store after a login: both issued tokens stored, or nothing changed. */
  function LoginEntries<T>(m: Entries, o: Outcome<T>): (r: Entries)
    ensures IssuedTokens(o).None? ==> r == m
    ensures IssuedTokens(o).Some? ==>
      var t := IssuedTokens(o).value;
      Get(r, AccessTokenKey) == Some(t.accessToken) && Get(r, RefreshTokenKey) == Some(t.refreshToken)
  {
    match IssuedTokens(o)
    case None => m
    case Some(t) => WithTokens(m, t.accessToken, t.refreshToken)
  }

  /** `authService.login` */
  method Login(storage: LocalStorage, o: Outcome<User>) returns (r: ServiceResult<User>)
    modifies storage
    ensures r == Settle(o)
    ensures storage.entries == LoginEntries(old(storage.entries), o)
  {
    if o.Resolved? && o.body.success && o.body.tokens.Some? {
      SetTokens(storage, o.body.tokens.value.accessToken, o.body.tokens.value.refreshToken);
    }
    r := Settle(o);
  }

  /** `authService.logout`: the tokens go whether or not the server call succeeds. */
  method Logout<T>(storage: LocalStorage, o: Outcome<T>) returns (r: ServiceResult<T>)
    modifies storage
    ensures r == Settle(o)
    ensures storage.entries == WithoutTokens(old(storage.entries))
  {
    match o
    case Resolved(_, body) =>
      ClearTokens(storage);
      r := Returned(body);
    case Rejected(failure) =>
      ClearTokens(storage);
      r := Threw(Rethrown(failure));
  }

  /** `authService.refreshToken`. Without a stored refresh token nothing is posted, the tokens
      are cleared and the thrown error, having no `response`, becomes the connection error.
      Otherwise the stored refresh token is posted (`posted`); a successful reply with tokens
      replaces both, a successful reply without them changes nothing, and a failure clears
      both. */
  method RefreshToken<T>(storage: LocalStorage, o: Outcome<T>) returns (r: ServiceResult<T>, posted: Option<string>)
    modifies storage
    ensures !Truthy(Get(old(storage.entries), RefreshTokenKey)) ==>
      posted.None? && r == Threw(Failure(ConnectionErrorMessage))
      && storage.entries == WithoutTokens(old(storage.entries))
    ensures Truthy(Get(old(storage.entries), RefreshTokenKey)) ==>
      posted == Get(old(storage.entries), RefreshTokenKey) && r == Settle(o)
    ensures Truthy(Get(old(storage.entries), RefreshTokenKey)) && o.Resolved? ==>
      storage.entries == LoginEntries(old(storage.entries), o)
    ensures Truthy(Get(old(storage.entries), RefreshTokenKey)) && o.Rejected? ==>
      storage.entries == WithoutTokens(old(storage.entries))
  {
    var refresh := GetRefreshToken(storage);
    if !(refresh.Some? && refresh.value != "") {
      posted := None;
      ClearTokens(storage);
      r := Threw(Failure(ConnectionErrorMessage));
      return;
    }
    posted := refresh;
    match o
    case Resolved(_, body) =>
      if body.success && body.tokens.Some? {
        SetTokens(storage, body.tokens.value.accessToken, body.tokens.value.refreshToken);
      }
      r := Returned(body);
    case Rejected(failure) =>
      ClearTokens(storage);
      r := Threw(Rethrown(failure));
  }

  /** `authService.isAuthenticated` */
  method IsAuthenticated(storage: LocalStorage) returns (b: bool)
    ensures b <==> HasAccessToken(storage.entries)
  {
    b := ApiClient.IsAuthenticated(storage);
  }

  /** `authService.clearSession` */
  method ClearSession(storage: LocalStorage)
    modifies storage
    ensures storage.entries == WithoutTokens(old(storage.entries))
  {
    ClearTokens(storage);
  }

  /** After a login that issued a non-empty access token, the next request leaves with that
      token as its bearer credential; after a logout it leaves with no credential at all. */
  lemma {:induction false} LoginThenLogout<T>(m: Entries, o: Outcome<T>, req: Request)
    requires AuthorizationHeader !in req.headers
    requires IssuedTokens(o).Some? && IssuedTokens(o).value.accessToken != ""
    ensures var after := Authorize(req, LoginEntries(m, o)).headers;
      AuthorizationHeader in after && after[AuthorizationHeader] == Bearer(IssuedTokens(o).value.accessToken)
    ensures AuthorizationHeader !in Authorize(req, WithoutTokens(LoginEntries(m, o))).headers
  {
    BearerExactlyWhenStored(req, LoginEntries(m, o));
    BearerExactlyWhenStored(req, WithoutTokens(LoginEntries(m, o)));
  }
}
