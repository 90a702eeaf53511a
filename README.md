# Roomzy front end: the session, credential and validation core in Dafny

Roomzy's web front end (Next.js, TypeScript) keeps the logged-in session in a client-side
store. It talks to the API through an HTTP client that attaches a bearer token and renews an
expired access token once. It guards pages by login state and role, and it validates forms
before anything is sent. This project models that core and proves what it promises:

- **`ApiClient`** (`api_client.dfy`) models `src/services/apiClient.ts`.
  - The browser's `localStorage` is a class whose `entries` map the methods update.
  - `tokenUtils` operations are methods on that store.
  - The request interceptor (`Authorize`) adds `Authorization: Bearer <token>` (section 2.1 of RFC 6750).
  - The response interceptor is `Send`, a recursive method. It follows one request through a 401, at most one refresh and one reissue.
- **`AuthService`** (`auth_service.dfy`) models `src/services/authService.ts`.
  - The uniform error normalisation is `Settle`.
  - `login`, `logout` and `refreshToken` are methods that write the token store.
- **`AuthStore`** (`auth_store.dfy`) models `src/stores/authStore.ts`.
  - `Session` is the store's state. Pure functions give each commit an action makes (entry, final).
  - Lemmas state what each action does and that every commit keeps `isAuthenticated <==> user != null`.
  - An inductive lemma shows the invariant holds however the commits of concurrent actions interleave.
  - The class `Store` performs the same commits on its fields.
- **`AuthSchemas`** (`auth_schemas.dfy`) models the zod schemas of `src/types/auth.ts`: register, login and reset password.
- **`ProtectedRoute`**, **`AdminRoute`** and **`AdminAuth`** model the route guards and the admin hooks.
  - Each guard is a render decision, the refresh trigger and the redirects its effects push.
- **`UsersPage`** models the administrators' user list.
  - Pagination window and "Mostrando x - y" arithmetic.
  - The query each handler sends, and the page state the handlers and the listing reply leave.
- **`CreateUser`** models the create-user form.
  - The field-by-field validator builds an error map.
  - The input handler couples region and city.
  - The phone sanitiser.
- **`EditProfile`** models the profile form: its schema, initial values, payload and handlers.
- **`ForgotPassword`** models the forgot-password page: its schema, the submission, the two buttons and the reset link.
- **`ProfilePhoto`** models the photo dialog: the file acceptance rule and its handlers.
- **Helper modules:**
  - `Text` (`text.dfy`): the JavaScript string built-ins the core relies on (`trim`, `toLowerCase`, regex character filters, `replace` of a first occurrence, `encodeURIComponent`).
  - `Wrappers` (`wrappers.dfy`): `Option` and map lookup.

Replies from the server are inputs of the model, never I/O. An `Outcome` is how the client's promise settled. A `ServiceResult` is what a service call returned or threw. A `ListReply`, `UploadReply` or `ForgotReply` is what a page's call settled with.

Notes on the code as written, which the model follows:

- **E-mail normalisation.** The e-mail fields are checked as typed. Lower-casing (and, on the forgot-password page, trimming) happens after the checks, on the value that comes out.
- **Reset code.** The reset-password schema refuses lower-case codes outright. It does not upper-case them.
- **Refresh redirect.** A failed refresh inside the interceptor sends the browser to `/auth/login`. The guards send anonymous visitors to `/login`.

## Model

| member | source | states |
|---|---|---|
| Wrappers.Get | src/services/apiClient.ts:109-115 | `localStorage.getItem`: `Some` exactly for a stored key, with its value |
| ApiClient.Failure | src/services/authService.ts:72 | the body a service builds for its own error: not successful, the given message, no user, no tokens |
| ApiClient.Settled | src/services/apiClient.ts:44-47 | axios resolves exactly the 2xx replies, with their status and body, and rejects every other reply with that reply |
| ApiClient.WithTokens | src/services/apiClient.ts:104-107 | after `setTokens(a, r)` the two keys hold `a` and `r`, the session counts as authenticated exactly when `a` is non-empty, and no other key changes |
| ApiClient.WithoutTokens | src/services/apiClient.ts:117-120 | after `clearTokens` neither key is present, the session is not authenticated, and no other key changes |
| ApiClient.LocalStorage.constructor | src/services/apiClient.ts:103 | the store starts with the given entries |
| ApiClient.SetTokens | src/services/apiClient.ts:104-107 | the two writes leave exactly `WithTokens` of the old entries |
| ApiClient.GetAccessToken | src/services/apiClient.ts:109-111 | returns the stored access token, `None` (null) exactly when it is absent |
| ApiClient.GetRefreshToken | src/services/apiClient.ts:113-115 | returns the stored refresh token, `None` (null) exactly when it is absent |
| ApiClient.ClearTokens | src/services/apiClient.ts:117-120 | the two removals leave exactly `WithoutTokens` of the old entries |
| ApiClient.IsAuthenticated | src/services/apiClient.ts:122-124 | `!!getItem('accessToken')`: true exactly when an access token is stored and is not the empty string |
| ApiClient.TokenRoundTrip | src/services/apiClient.ts:103-125 | both getters see what `setTokens` stored; `isAuthenticated` holds exactly for a non-empty access token; after `clearTokens` both getters see null, `isAuthenticated` is false, and other keys keep their values |
| ApiClient.Bearer | src/services/apiClient.ts:34 | the header value is `Bearer ` followed by exactly the token |
| ApiClient.Authorize | src/services/apiClient.ts:30-37 | a truthy stored access token becomes the `Authorization` header; otherwise the request leaves unchanged; path and `_retry` mark are untouched |
| ApiClient.BearerExactlyWhenStored | src/services/apiClient.ts:30-37 | a request leaves with an `Authorization` header exactly when an access token is stored, and then it carries that token |
| ApiClient.Send | src/services/apiClient.ts:44-79 | non-401 replies and 401s on marked requests settle as axios settles them, with nothing changed; a 401 without a refresh token is rejected with tokens kept and no redirect; otherwise the refresh token is posted once; a failed refresh (rejection or no `tokens`) clears both tokens, redirects to `/auth/login` and rejects the original error; a granted one stores only the new access token and reissues the request once, marked, with the new bearer header, and its reply settles the call |
| AuthService.Rethrown | src/services/authService.ts:72 | `error.response?.data \|\| {...}`: the server's error body, or the connection error when there was no answer |
| AuthService.Settle | src/services/authService.ts:67-74 | every service call returns the body of a resolved call and throws the normalised error of a rejected one |
| AuthService.IssuedTokens | src/services/authService.ts:82 | tokens are taken exactly from a resolved reply whose body reports success and carries `tokens` |
| AuthService.LoginEntries | src/services/authService.ts:81-87 | a login stores both issued tokens, or leaves the store unchanged when none were issued |
| AuthService.Login | src/services/authService.ts:77-93 | returns the settled reply and leaves the store as `LoginEntries` says |
| AuthService.Logout | src/services/authService.ts:126-139 | both tokens are cleared whether the server call succeeds or fails; the reply is settled as usual |
| AuthService.RefreshToken | src/services/authService.ts:142-167 | without a refresh token nothing is posted, tokens are cleared and the connection error is thrown; otherwise the stored token is posted, a success with tokens replaces both, and a failure clears both |
| AuthService.IsAuthenticated | src/services/authService.ts:170-172 | true exactly when an access token is stored |
| AuthService.ClearSession | src/services/authService.ts:175-177 | both tokens are removed |
| AuthService.LoginThenLogout | src/services/authService.ts:77-139 | after a login that issued an access token the next request carries it as its bearer credential; after a logout it carries none |
| AuthStore.Flags.Set | src/stores/authStore.ts:83 | setting an action's loading flag changes that flag and no other |
| AuthStore.Initial | src/stores/authStore.ts:57-71 | `initialState` is consistent: no user, not authenticated, nothing loading, no error, no pending verification |
| AuthStore.WithBusy | src/stores/authStore.ts:82-85 | one flag changes; the session fields, the error and `isLoading` do not |
| AuthStore.DefaultError | src/stores/authStore.ts:106 | every action has a non-empty default error message |
| AuthStore.OrElse | src/stores/authStore.ts:106 | `message \|\| fallback`: an empty message counts as missing |
| AuthStore.Enter | src/stores/authStore.ts:82-85 | the entry commit raises the action's flag and clears the error, and touches nothing else |
| AuthStore.Finish | src/stores/authStore.ts:90-112 | the final commit of every asynchronous action keeps a consistent session consistent |
| AuthStore.Run | src/stores/authStore.ts:81-400 | a whole run of an asynchronous action keeps a consistent session consistent |
| AuthStore.RunLowersFlag | src/stores/authStore.ts:90-107 | every run ends with its own flag lowered on both the reply and the throw path, other flags and `isLoading` unchanged |
| AuthStore.RunError | src/stores/authStore.ts:103-112 | a throw records the thrown message or the action's default and changes no session field; a reply leaves no error |
| AuthStore.RunOtherActions | src/stores/authStore.ts:310-400 | `resendVerificationCode`, `changePassword`, `forgotPassword` and `resetPassword` leave the session fields unchanged |
| AuthStore.RunRegister | src/stores/authStore.ts:81-114 | `register` never changes user or authentication; success and only success records the pending e-mail and requires verification |
| AuthStore.RunLogin | src/stores/authStore.ts:117-152 | a successful login with a user authenticates even when verification is required, and the e-mail is pending exactly when the server requires verification; any other reply changes no session field |
| AuthStore.RunVerifyEmail | src/stores/authStore.ts:155-189 | a successful verification with a user authenticates and clears both verification fields; any other reply changes no session field |
| AuthStore.Returns | src/stores/authStore.ts:99-152 | an action resolves to the reply's success and message, and `login` also to the reply's `requiresEmailVerification`; a throw resolves to a failure with the thrown message, or the connection error when that message is empty |
| AuthStore.AfterRefresh | src/stores/authStore.ts:241-271 | without a token the state is reset and no request is made; a successful reply with a user installs it, authenticates and ends loading, leaving the error as it stood; any other reply or a throw resets to `initialState` |
| AuthStore.Partialize | src/stores/authStore.ts:406-411 | exactly `user`, `isAuthenticated`, `pendingVerificationEmail` and `requiresEmailVerification` are persisted |
| AuthStore.PersistRoundTrip | src/stores/authStore.ts:402-411 | reloading keeps the persisted part, stays consistent, resumes with no flag raised and no error, and restores an idle error-free session exactly |
| AuthStore.Rehydrate | src/stores/authStore.ts:402-411 | a reloaded session keeps exactly the persisted part, has no flag raised, is not loading and has no error; it is consistent when the persisted part was |
| AuthStore.Apply | src/stores/authStore.ts:81-307 | entry commits, `clearError`, `setLoading` and `setError` never change the user, authentication or pending verification |
| AuthStore.ApplyConsistent | src/stores/authStore.ts:81-307 | every single commit of every action and setter keeps the invariant |
| AuthStore.ReplayConsistent | src/stores/authStore.ts:81-400 | in any interleaving of commits, every state reached from a consistent one, `initialState` included, is consistent |
| AuthStore.RefreshKeepsLaterError | src/stores/authStore.ts:241-263 | a `register` that fails while a refresh is in flight leaves its error in place when the refresh then succeeds: the user is installed and the error stays |
| AuthStore.LogoutLastIsInitial | src/stores/authStore.ts:223-238 | however commits interleave, the state after a logout's final commit is exactly `initialState` |
| AuthStore.Store.constructor | src/stores/authStore.ts:57-78 | the store starts as `initialState` |
| AuthStore.Store.Reset | src/stores/authStore.ts:235 | `Object.assign(state, initialState)` leaves exactly `initialState` |
| AuthStore.Store.SetBusy | src/stores/authStore.ts:83 | sets one action's flag and nothing else |
| AuthStore.Store.RunAction | src/stores/authStore.ts:81-114 | performs the entry commit then the final commit, keeps the invariant, and returns what `Returns` says |
| AuthStore.Store.FinalCommit | src/stores/authStore.ts:90-107 | the final commit leaves exactly `Finish` of the old state |
| AuthStore.Store.Register | src/stores/authStore.ts:81-114 | `register`: entry commit, then the final commit on the settled reply |
| AuthStore.Store.Login | src/stores/authStore.ts:117-152 | `login`: the service stores the issued tokens, then the store commits |
| AuthStore.Store.VerifyEmail | src/stores/authStore.ts:155-189 | `verifyEmail`: entry commit, then the final commit |
| AuthStore.Store.ResendVerificationCode | src/stores/authStore.ts:192-220 | `resendVerificationCode`: entry commit, then the final commit |
| AuthStore.Store.ChangePassword | src/stores/authStore.ts:310-338 | `changePassword`: entry commit, then the final commit |
| AuthStore.Store.ForgotPassword | src/stores/authStore.ts:341-369 | `forgotPassword`: entry commit, then the final commit |
| AuthStore.Store.ResetPassword | src/stores/authStore.ts:372-400 | `resetPassword`: entry commit, then the final commit |
| AuthStore.Store.Logout | src/stores/authStore.ts:223-238 | `logout` ends in exactly `initialState` with both tokens cleared, whether or not the server call throws |
| AuthStore.Store.RefreshUser | src/stores/authStore.ts:241-272 | asks for the user exactly when an access token is stored, and ends as `AfterRefresh` says, with no error (the entry commit cleared it) |
| AuthStore.Store.ClearError | src/stores/authStore.ts:275-279 | clears the error and nothing else |
| AuthStore.Store.ClearPendingVerification | src/stores/authStore.ts:282-287 | clears the two verification fields and nothing else |
| AuthStore.Store.SetUser | src/stores/authStore.ts:290-295 | sets the user; authenticated exactly when a user is given, so the invariant holds whatever came before |
| AuthStore.Store.SetLoading | src/stores/authStore.ts:297-301 | sets `isLoading` and nothing else |
| AuthStore.Store.SetError | src/stores/authStore.ts:303-307 | sets the error and nothing else |
| AuthSchemas.Require | src/types/auth.ts:7 | one check reports nothing when it holds and its message on its path otherwise |
| AuthSchemas.FirstLine | src/types/auth.ts:45 | the text `.*` can scan: the longest prefix without a line terminator |
| AuthSchemas.NameIssues | src/types/auth.ts:5-17 | no issue exactly for a name of 2-50 characters of letters, accented vowels, ñ and white space; all issues on the field's path |
| AuthSchemas.EmailIssues | src/types/auth.ts:19-22 | no issue exactly for a non-empty text the e-mail test accepts; all issues on `email` |
| AuthSchemas.PasswordIssues | src/types/auth.ts:40-45 | no issue exactly for 8-100 characters with a lower-case letter, an upper-case letter and a digit |
| AuthSchemas.PhoneIssues | src/types/auth.ts:34-38 | no issue exactly for nine digits starting with 9 |
| AuthSchemas.MatchIssues | src/types/auth.ts:50-53 | no issue exactly when the two passwords are equal, otherwise the mismatch on `confirmPassword` |
| AuthSchemas.RegisterNameIssues | src/types/auth.ts:5-17 | no issue exactly when both names are valid |
| AuthSchemas.RegisterContactIssues | src/types/auth.ts:19-38 | no issue exactly for a well-formed e-mail of at most 100 characters, a region, a city and a mobile phone |
| AuthSchemas.RegisterPasswordIssues | src/types/auth.ts:40-53 | no issue exactly for a strong confirmed password; a mismatch is the last issue |
| AuthSchemas.RegisterSchema | src/types/auth.ts:4-53 | registration is accepted exactly when every field rule holds and the passwords match, and the accepted form has its e-mail lower-cased |
| AuthSchemas.LoginSchema | src/types/auth.ts:56-66 | login is accepted exactly for a well-formed e-mail and any non-empty password (no strength rule); the e-mail is lower-cased |
| AuthSchemas.CodeIssues | src/types/auth.ts:76-80 | no issue exactly for six upper-case letters or digits |
| AuthSchemas.ResetPasswordSchema | src/types/auth.ts:69-95 | reset is accepted exactly for a well-formed e-mail, a valid code, a strong new password and its confirmation; the e-mail is lower-cased |
| AuthSchemas.RegisterMismatchReported | src/types/auth.ts:50-53 | differing passwords fail registration, and the last issue is the mismatch on `confirmPassword`, whatever else is wrong |
| AuthSchemas.ResetMismatchReported | src/types/auth.ts:92-95 | the same for the reset form |
| AuthSchemas.PhoneExamples | src/types/auth.ts:34-38 | `987654321` is accepted; `812345678` and `98765432` are refused |
| AuthSchemas.NoCapitalRefused | src/types/auth.ts:45 | a password without an upper-case letter is refused, whatever its length |
| AuthSchemas.LowerCaseExampleRefused | src/types/auth.ts:40-45 | `abc12345` is refused |
| AuthSchemas.ThreeClassesAccepted | src/types/auth.ts:40-45 | `Abc12345` is accepted |
| AuthSchemas.EmailLowerCased | src/types/auth.ts:24 | `User@Example.COM` comes out as `user@example.com` |
| AuthSchemas.CodeExamples | src/types/auth.ts:76-80 | `AB12C9` is a valid code; a lower-case code and a five-character code are not |
| AuthSchemas.NameExamples | src/types/auth.ts:5-10 | `José Ñúñez` is a valid name; a one-letter name and a name with a digit are not |
| ProtectedRoute.Props.RequireVerification | src/components/auth/ProtectedRoute.tsx:17 | an omitted `requireEmailVerification` is false |
| ProtectedRoute.Props.Target | src/components/auth/ProtectedRoute.tsx:18 | an omitted `redirectTo` is `/login` |
| ProtectedRoute.Render | src/components/auth/ProtectedRoute.tsx:71-93 | the children render exactly when not loading, authenticated, and not (verification required and the loaded user unverified); while loading only the fallback or placeholder renders; authenticated with no user loaded renders the children |
| ProtectedRoute.RequestsRefresh | src/components/auth/ProtectedRoute.tsx:40-49 | `refreshUser` is requested exactly when no user is loaded and nothing is loading |
| ProtectedRoute.Navigations | src/components/auth/ProtectedRoute.tsx:52-68 | a settled anonymous visitor is sent to `redirectTo`; an authenticated, loaded, unverified user to `/verify-email` when verification is required; otherwise nowhere |
| ProtectedRoute.GuardOnConsistentSession | src/components/auth/ProtectedRoute.tsx:40-93 | on a consistent session, without verification, the page shows exactly when settled with a user; asking for the user goes with a redirect and a blank screen; an unverified user never sees a page that requires verification |
| AdminRoute.Props.Target | src/components/auth/AdminRoute.tsx:17 | an omitted `redirectTo` is `/inicio` |
| AdminRoute.Render | src/components/auth/AdminRoute.tsx:65-123 | the children render exactly when not loading, authenticated and not a loaded non-admin; loading renders the fallback; anonymous renders nothing; a loaded non-admin gets the access-denied view pointing to `redirectTo` |
| AdminRoute.RequestsRefresh | src/components/auth/AdminRoute.tsx:39-48 | `refreshUser` is requested exactly when no user is loaded and nothing is loading |
| AdminRoute.Navigations | src/components/auth/AdminRoute.tsx:51-62 | a settled anonymous visitor is sent to `/login`, never to `redirectTo`; an authenticated, loaded non-admin to `redirectTo`; otherwise nowhere |
| AdminRoute.AdminGuardOnConsistentSession | src/components/auth/AdminRoute.tsx:39-123 | on a consistent session the page shows exactly for a settled administrator, and a non-admin is both shown the denied view and redirected |
| AdminAuth.UseAdminAuth | src/hooks/useAdminAuth.ts:26-32 | `isAdmin` is `user.role == 'admin'` and `canAccess` is `isAuthenticated` and that |
| AdminAuth.Redirect | src/hooks/useAdminAuth.ts:12-24 | a settled anonymous visitor goes to `/login` and nothing else in that pass; a settled, authenticated, loaded non-admin goes to `/inicio`; an authenticated admin stays |
| AdminAuth.UseRequireAdmin | src/hooks/useAdminAuth.ts:38-55 | reports `(null, loading, no access)` unless access is established, then `(user, not loading, access)`; never access together with loading |
| AdminAuth.HookAgreesWithGuard | src/hooks/useAdminAuth.ts:38-55 | on a consistent session the strict hook grants access exactly when the admin guard shows the page, and their redirects agree under the default target |
| UsersPage.PageNumber | src/app/dashboard/admin/usuarios/page.tsx:249-259 | each button of the window, for a current page in range, is a page in `1..totalPages` |
| UsersPage.PageWindow | src/app/dashboard/admin/usuarios/page.tsx:249-259 | `min(5, totalPages)` buttons of consecutive pages; for a current page in range they lie in `1..totalPages` and include it; with at most five pages they are exactly `1..totalPages` |
| UsersPage.StartItem | src/app/dashboard/admin/usuarios/page.tsx:205 | the first row shown is numbered from 1 |
| UsersPage.EndItem | src/app/dashboard/admin/usuarios/page.tsx:206 | the last row shown is the smaller of `totalUsers` and the page's end `currentPage * limit` |
| UsersPage.RangeWithinUsers | src/app/dashboard/admin/usuarios/page.tsx:205-206 | on an existing page the range shown is a non-empty run of at most `limit` users inside `1..totalUsers`, and consecutive pages continue one another |
| UsersPage.NavigationButtons | src/app/dashboard/admin/usuarios/page.tsx:213-220 | on a shown bar (`ShowPagination`, line 558) prev and next (`PrevDisabled`, `NextDisabled`) are never both disabled, and a disabled one means the window reaches that end |
| UsersPage.OrUndefined | src/app/dashboard/admin/usuarios/page.tsx:319-320 | `x \|\| undefined`: an empty filter is omitted, any other is sent as it is |
| UsersPage.Override | src/app/dashboard/admin/usuarios/page.tsx:321 | a key the filters carry overrides the default, even with `undefined` |
| UsersPage.BuildQuery | src/app/dashboard/admin/usuarios/page.tsx:316-322 | the query has the current page and size, the search and role with an empty one omitted, each overridden by an explicit filter; an empty search or role is never sent unless passed explicitly |
| UsersPage.RoleFilters | src/app/dashboard/admin/usuarios/page.tsx:357 | `handleRoleFilter` passes page 1 and the new role (none when empty) |
| UsersPage.ClearFiltersQueryAsWritten | src/app/dashboard/admin/usuarios/page.tsx:361-366 | as written, clearing the filters sends page 1 with the search term and role of the view before they were cleared |
| UsersPage.ClearFiltersKeepsStaleSearch | src/app/dashboard/admin/usuarios/page.tsx:361-366 | with `ana` typed and role `host` on page 1, clearing asks again for `ana` and `host` |
| UsersPage.ClearFiltersQuery | src/app/dashboard/admin/usuarios/page.tsx:361-366 | clearing sends page 1 with neither filter, whatever the view; it is what a search from the cleared view sends |
| UsersPage.ReplyError | src/app/dashboard/admin/usuarios/page.tsx:324-336 | no error exactly after a successful listing with data; the fixed message after an unsuccessful reply; the thrown message or its default after a throw |
| UsersPage.UsersPage.constructor | src/app/dashboard/admin/usuarios/page.tsx:295-307 | the page starts on page 1 of 1, loading, with no users, no error and no filters |
| UsersPage.UsersPage.Snapshot | src/app/dashboard/admin/usuarios/page.tsx:316-321 | the view a handler closes over: current page, size and both filters |
| UsersPage.UsersPage.Shown | src/app/dashboard/admin/usuarios/page.tsx:295-301 | the listing state on screen: rows, current page, page count and user count |
| UsersPage.UsersPage.Receive | src/app/dashboard/admin/usuarios/page.tsx:324-336 | a successful listing replaces the rows, the current page and the page and user counts with the reply's; anything else records the error and keeps them; loading ends either way; the filters are untouched |
| UsersPage.UsersPage.ChangePage | src/app/dashboard/admin/usuarios/page.tsx:310-344 | choosing the page already shown changes nothing and lists nothing (React skips the equal state, so the effect does not run); another page lists that page with the current filters when the viewer may access the page, and the reply then sets the listing as `Receive` does; without access only the page moves |
| UsersPage.UsersPage.HandleSearch | src/app/dashboard/admin/usuarios/page.tsx:347-350 | back to page 1, listing with the current search and role; the reply then sets the listing, or the error over the page-1 view |
| UsersPage.UsersPage.HandleRoleFilter | src/app/dashboard/admin/usuarios/page.tsx:353-358 | the role filter takes the new role, back to page 1, listing with that role; the reply then sets the listing, or the error over the page-1 view |
| UsersPage.UsersPage.ClearFilters | src/app/dashboard/admin/usuarios/page.tsx:361-366 | both filters emptied, back to page 1, and the listing carries neither filter (the corrected query, see Findings); the reply then sets the listing, or the error over the page-1 view |
| CreateUser.MatchesEmailPattern | src/app/dashboard/admin/usuarios/crear/page.tsx:88 | the direct test accepts exactly what `^[^\s@]+@[^\s@]+\.[^\s@]+$` accepts |
| CreateUser.TestedSplit | src/app/dashboard/admin/usuarios/crear/page.tsx:88 | a split the direct test finds is a match of the pattern |
| CreateUser.SplitIsTested | src/app/dashboard/admin/usuarios/crear/page.tsx:88 | a match of the pattern has its `@` first and is found by the direct test |
| CreateUser.EmailPatternExamples | src/app/dashboard/admin/usuarios/crear/page.tsx:88 | `ana@roomzy.cl` matches; `ana@roomzy` does not |
| CreateUser.With | src/app/dashboard/admin/usuarios/crear/page.tsx:145 | `{...prev, [field]: value}` sets that field and no other |
| CreateUser.FilledIsTrimmedNonEmpty | src/app/dashboard/admin/usuarios/crear/page.tsx:78 | `!value.trim()` fails exactly when the value is not all white space |
| CreateUser.RequiredError | src/app/dashboard/admin/usuarios/crear/page.tsx:78-84 | a required field has no error exactly when it is not blank |
| CreateUser.EmailError | src/app/dashboard/admin/usuarios/crear/page.tsx:86-90 | no e-mail error exactly when the pattern matches |
| CreateUser.PhoneError | src/app/dashboard/admin/usuarios/crear/page.tsx:100-106 | no phone error exactly for nine digits starting with 9 |
| CreateUser.PasswordError | src/app/dashboard/admin/usuarios/crear/page.tsx:108-112 | no password error exactly for a non-blank password of at least six characters |
| CreateUser.FieldError | src/app/dashboard/admin/usuarios/crear/page.tsx:75-112 | role, bio and habits are never checked |
| CreateUser.NoKeysIsEmpty | src/app/dashboard/admin/usuarios/crear/page.tsx:115 | `Object.keys(m).length === 0` holds exactly of the empty map |
| CreateUser.Put | src/app/dashboard/admin/usuarios/crear/page.tsx:79 | a field's message is added when it has one, otherwise the map is unchanged |
| CreateUser.PutLookup | src/app/dashboard/admin/usuarios/crear/page.tsx:79 | what a key holds after a message is added |
| CreateUser.ErrorsFor | src/app/dashboard/admin/usuarios/crear/page.tsx:75-116 | the error map `validateForm` builds, field by field; what it holds is stated by `ErrorsForMeaning` |
| CreateUser.ErrorsForMeaning | src/app/dashboard/admin/usuarios/crear/page.tsx:75-116 | the error map holds a message for a field exactly when that field fails, and that message: at most one per field |
| CreateUser.NoErrorsIffAcceptable | src/app/dashboard/admin/usuarios/crear/page.tsx:75-116 | the map is empty exactly when every rule holds |
| CreateUser.PhoneMessages | src/app/dashboard/admin/usuarios/crear/page.tsx:100-106 | the three phone checks run in order, each with its own message |
| CreateUser.PasswordRule | src/app/dashboard/admin/usuarios/crear/page.tsx:108-112 | six characters suffice and five do not; there is no character-class rule |
| CreateUser.SanitizePhone | src/app/dashboard/admin/usuarios/crear/page.tsx:293 | the input keeps the first nine of its digits, in order: the result has exactly `min(9, number of digits)` characters; nine digits or fewer come back unchanged |
| CreateUser.SanitizeIdempotent | src/app/dashboard/admin/usuarios/crear/page.tsx:293 | sanitising twice is sanitising once |
| CreateUser.CreateUserPage.constructor | src/app/dashboard/admin/usuarios/crear/page.tsx:55-73 | the form starts empty with role `seeker`, no errors and no cities |
| CreateUser.CreateUserPage.ValidateForm | src/app/dashboard/admin/usuarios/crear/page.tsx:75-116 | replaces the errors with the map built from the form; valid exactly when it is empty |
| CreateUser.CreateUserPage.HandleInputChange | src/app/dashboard/admin/usuarios/crear/page.tsx:144-158 | the field takes the value; a new region selects its cities (none when unknown) and empties the city; a field that showed an error now shows the empty message |
| CreateUser.CreateUserPage.HandleSubmit | src/app/dashboard/admin/usuarios/crear/page.tsx:118-142 | an invalid form sends nothing and leaves `isCreating` as it was; a valid one is sent, and the new user's page is shown exactly when the reply succeeds with data; the cities offered never change |
| EditProfile.NameChecks | src/components/profile/EditProfileForm.tsx:25-37 | no issue exactly for 2-50 characters |
| EditProfile.PresentChecks | src/components/profile/EditProfileForm.tsx:49-58 | no issue exactly for 1-50 characters |
| EditProfile.CleanPhone | src/components/profile/EditProfileForm.tsx:45 | no separator (white space, `-`, `(`, `)`) is left, and text without separators is unchanged |
| EditProfile.PhoneChecks | src/components/profile/EditProfileForm.tsx:39-47 | the phone passes exactly when blank or a mobile number once cleaned |
| EditProfile.Checks | src/components/profile/EditProfileForm.tsx:24-69 | no issue exactly when every field's length rule and the phone rule hold |
| EditProfile.Output | src/components/profile/EditProfileForm.tsx:30-68 | name, last name, city, bio and habits come out trimmed; phone and region as given |
| EditProfile.ProfileSchemaAsWritten | src/components/profile/EditProfileForm.tsx:24-69 | as written the checks see the untrimmed text, and the accepted values come out trimmed |
| EditProfile.BlankCityAccepted | src/components/profile/EditProfileForm.tsx:49-53 | a city of three spaces passes as written and comes out empty although the city is required |
| EditProfile.ProfileSchema | src/components/profile/EditProfileForm.tsx:24-69 | with each trim before its field's checks: accepted exactly when the trimmed values pass, yielding the trimmed values |
| EditProfile.Checked | src/components/profile/EditProfileForm.tsx:25-53 | the checks see trimmed name, last name and city and the other fields as typed |
| EditProfile.ProfileSchemaAccepts | src/components/profile/EditProfileForm.tsx:24-69 | an accepted profile has names of 2-50 and city and region of 1-50 characters, no surrounding white space on the trimmed fields, an accepted phone, bio of at most 500 and habits of at most 1000 |
| EditProfile.BlankCityRefused | src/components/profile/EditProfileForm.tsx:49-53 | once the trim comes first, a blank city is refused |
| EditProfile.InitialPhone | src/components/profile/EditProfileForm.tsx:106 | the initial phone has no white space; with `+56 ` in it, it is the input with the first `+56 ` cut out and white space removed; without it, the input without white space |
| EditProfile.InitialPhoneDropsPrefix | src/components/profile/EditProfileForm.tsx:106 | a stored `+56 ` number starts as the digits after the prefix |
| EditProfile.StoredMobileAccepted | src/components/profile/EditProfileForm.tsx:106 | a stored mobile number with the prefix starts the form as a phone the schema accepts |
| EditProfile.InitialValues | src/components/profile/EditProfileForm.tsx:104-117 | the form resets to the user's fields, with the phone cleaned |
| EditProfile.Payload | src/components/profile/EditProfileForm.tsx:132-140 | the phone is trimmed and omitted when blank; every other field is sent as parsed |
| EditProfile.SeparatorsAreSent | src/components/profile/EditProfileForm.tsx:39-47 | a phone typed with spaces is accepted and sent with its spaces |
| EditProfile.MobileExample | src/components/profile/EditProfileForm.tsx:44 | `987654321` is a mobile number |
| EditProfile.SpacedNumberCleaned | src/components/profile/EditProfileForm.tsx:45 | `987 654 321` cleans to `987654321` |
| EditProfile.GroupsJoined | src/components/profile/EditProfileForm.tsx:45 | three groups without separators joined by spaces clean to the groups joined |
| EditProfile.ProfileForm.constructor | src/components/profile/EditProfileForm.tsx:84-96 | the form starts with empty values and defaults |
| EditProfile.ProfileForm.ResetFor | src/components/profile/EditProfileForm.tsx:104-118 | a user resets both values and defaults to that user's values, leaving the form clean; without one nothing changes |
| EditProfile.ProfileForm.HandleRegionChange | src/components/profile/EditProfileForm.tsx:166-169 | the region takes the value and the city is emptied |
| EditProfile.ProfileForm.HandleCityChange | src/components/profile/EditProfileForm.tsx:171-173 | the city takes the value |
| EditProfile.ProfileForm.Submit | src/components/profile/EditProfileForm.tsx:120-164 | the schema first (the corrected `ProfileSchema`, see Findings); nothing is sent without changes or without a user id; otherwise the payload of the parsed values is sent, and the user is reloaded exactly when the reply succeeds |
| ForgotPassword.ForgotSchema | src/app/forgot-password/page.tsx:26-33 | accepted exactly for a non-empty text the e-mail test accepts, checked as typed; failures are on `email`; the value is lower-cased then trimmed |
| ForgotPassword.LowerCharKeepsSpace | src/app/forgot-password/page.tsx:31 | lower-casing neither makes nor removes white space |
| ForgotPassword.LowerCharIdempotent | src/app/forgot-password/page.tsx:31 | lower-casing a lower-cased character changes nothing |
| ForgotPassword.ParsedEmailNormal | src/app/forgot-password/page.tsx:31-32 | the address the schema yields is fixed by lower-casing and by trimming |
| ForgotPassword.TrimRemovesNothing | src/app/forgot-password/page.tsx:29-32 | when the e-mail test refuses surrounding white space, the trim removes nothing and the address is the typed one lower-cased |
| ForgotPassword.ReplyToast | src/app/forgot-password/page.tsx:60-69 | a successful result shows its message green, an unsuccessful one red, an exception the connection message |
| ForgotPassword.ForgotPasswordPage.constructor | src/app/forgot-password/page.tsx:43-44 | the page starts on the form with no recorded address |
| ForgotPassword.ForgotPasswordPage.Submit | src/app/forgot-password/page.tsx:56-70 | only accepted input is submitted; success records the parsed address and shows the confirmation; a refusal or an exception leaves the page as it was |
| ForgotPassword.ForgotPasswordPage.SendToAnotherEmail | src/app/forgot-password/page.tsx:102 | back to the form; the recorded address stays |
| ForgotPassword.ForgotPasswordPage.ResetLink | src/app/forgot-password/page.tsx:92 | the link is `/reset-password?email=` followed only by unreserved characters and `%` escapes, and decoding that value gives back exactly the recorded address |
| ForgotPassword.ResetLinkIsOneParameter | src/app/forgot-password/page.tsx:92 | whatever address was recorded, the query value holds no `&`, `#`, `=`, `+` or space |
| ForgotPassword.PlainAddressInLink | src/app/forgot-password/page.tsx:92 | an address of unreserved characters goes into the link unchanged |
| ProfilePhoto.FileError | src/components/profile/ProfilePhotoModal.tsx:34-47 | a file has no error exactly when it is one of the four image types and at most 5 MB; the type is checked first |
| ProfilePhoto.SizeBoundary | src/components/profile/ProfilePhotoModal.tsx:43-47 | exactly 5·1024·1024 bytes is accepted; one byte more is refused for its size |
| ProfilePhoto.TypeCheckedFirst | src/components/profile/ProfilePhotoModal.tsx:36-40 | a GIF is refused for its type whatever its size; `image/jpg` is treated like `image/jpeg` |
| ProfilePhoto.UploadError | src/components/profile/ProfilePhotoModal.tsx:96-108 | no error exactly after a successful reply; otherwise the reply's or thrown message, or `Error al subir la imagen` when that message is empty |
| ProfilePhoto.PhotoModal.constructor | src/components/profile/ProfilePhotoModal.tsx:24-28 | nothing selected, no preview, not uploading, no error, not dragging |
| ProfilePhoto.PhotoModal.HandleFileSelect | src/components/profile/ProfilePhotoModal.tsx:34-58 | a refused file sets the error and keeps the selection; an accepted one clears the error and becomes the selection |
| ProfilePhoto.PhotoModal.HandleFileInputChange | src/components/profile/ProfilePhotoModal.tsx:60-65 | the first chosen file, if any, goes through the selection rule |
| ProfilePhoto.PhotoModal.HandleDragOver | src/components/profile/ProfilePhotoModal.tsx:67-70 | dragging starts; nothing else changes |
| ProfilePhoto.PhotoModal.HandleDragLeave | src/components/profile/ProfilePhotoModal.tsx:72-75 | dragging ends; nothing else changes |
| ProfilePhoto.PhotoModal.HandleDrop | src/components/profile/ProfilePhotoModal.tsx:77-85 | dragging ends and the first dropped file, if any, goes through the selection rule |
| ProfilePhoto.PhotoModal.HandleUpload | src/components/profile/ProfilePhotoModal.tsx:87-112 | without a selection nothing happens; success closes the dialog and clears selection and preview; failure keeps them and sets the error; not uploading afterwards |
| ProfilePhoto.PhotoModal.HandleCancel | src/components/profile/ProfilePhotoModal.tsx:114-119 | selection, preview and error are cleared and the dialog closes |
| Text.TrimStart | src/components/profile/EditProfileForm.tsx:30 | removes exactly the leading white space |
| Text.TrimEnd | src/components/profile/EditProfileForm.tsx:30 | removes exactly the trailing white space |
| Text.Trim | src/components/profile/EditProfileForm.tsx:30 | `trim()` yields a slice of the input without surrounding white space, empty exactly for blank input |
| Text.TrimIdempotent | src/components/profile/EditProfileForm.tsx:30 | trimming twice is trimming once |
| Text.TrimUnpadded | src/components/profile/EditProfileForm.tsx:30 | text without surrounding white space is unchanged by `trim()` |
| Text.LowerChar | src/types/auth.ts:24 | lower-casing leaves no upper-case ASCII letter and keeps digits, lower-case letters, white space, `@` and `.` |
| Text.ToLower | src/types/auth.ts:24 | `toLowerCase()` maps every character and keeps the length |
| Text.ToLowerIdempotent | src/types/auth.ts:24 | lower-casing twice is lower-casing once |
| Text.Filter | src/app/dashboard/admin/usuarios/crear/page.tsx:293 | a global `replace` of a character class keeps only the characters outside it |
| Text.FilterKeepsKept | src/app/dashboard/admin/usuarios/crear/page.tsx:293 | text with nothing to remove is unchanged |
| Text.FilterCounts | src/app/dashboard/admin/usuarios/crear/page.tsx:293 | every kept character keeps its number of occurrences, and every removed one disappears |
| Text.FilterAppend | src/components/profile/EditProfileForm.tsx:45 | removing characters distributes over concatenation |
| Text.FilterIdempotent | src/app/dashboard/admin/usuarios/crear/page.tsx:293 | removing twice is removing once |
| Text.Take | src/app/dashboard/admin/usuarios/crear/page.tsx:293 | `slice(0, n)` is the first `n` characters, or all of them |
| Text.IndexOf | src/components/profile/EditProfileForm.tsx:106 | finds the first occurrence of a pattern, or reports there is none |
| Text.ReplaceFirst | src/components/profile/EditProfileForm.tsx:106 | `replace` with a string pattern replaces its first occurrence only |
| Text.EncodeURIComponent | src/app/forgot-password/page.tsx:92 | the result holds only unreserved characters and `%` escapes, and unreserved text is unchanged |
| Text.HexDigit | src/app/forgot-password/page.tsx:92 | an escape digit is upper-case hexadecimal and reads back as its value |
| Text.ReadBytes | src/app/forgot-password/page.tsx:92 | `n` escapes read at the front of the text give `n` bytes, the first being the first escape's |
| Text.Utf8RoundTrip | src/app/forgot-password/page.tsx:92 | the UTF-8 bytes of a character decode back to it, and the first byte announces how many there are |
| Text.DecodeEncode | src/app/forgot-password/page.tsx:92 | `decodeURIComponent(encodeURIComponent(s))` is `s` for every string: the encoding loses nothing |

## Left out

- ApiClient.Send models a single request's path. Two requests that hit 401 at the same time can each start a refresh, because the client does not serialise them; that race is not modelled.
- ApiClient: axios instances, timeouts, endpoints and `API_CONFIG` are not modelled. Replies are inputs, so the request body and the URL do not appear.
- The browser redirect `window.location.href` is returned as a string. `router.push` targets are returned as sequences of route strings. Toasts are returned values or are left out.
- AuthStore: the zustand `persist`, `devtools` and `immer` middleware are not modelled. Persistence is the pure `Partialize`/`Rehydrate` pair, and the storage write itself is left out.
- AuthStore.Store keeps the seven per-action loading flags in one `flags` field of type `Flags` rather than seven separate fields. Each method changes the same flags the source changes.
- AuthStore.Store: the selector hooks (`useAuthUser` and the others) only read fields and are not modelled.
- AuthStore: the store action `logout` logs the server error to the console; console output is left out.
- AuthSchemas.EmailIssues: the e-mail format test of the validation library is the parameter `isEmail`, because its regular expression belongs to the library. The same holds for ForgotPassword.ForgotSchema.
- Text.LowerChar: lower-cases ASCII letters and the Latin-1 capitals U+00C0–U+00DE except ×, which include Á É Í Ó Ú Ñ. Other Unicode case mappings of `toLowerCase` are not modelled.
- Text: strings are sequences of characters; JavaScript's UTF-16 code units and surrogate pairs are not modelled. `.length` is taken as the number of characters.
- Text.EncodeURIComponent: encodes each character as UTF-8 bytes from its code point. Lone surrogates, on which the browser throws, do not arise.
- ProtectedRoute, AdminRoute and AdminAuth: React effect scheduling is not modelled. Effects are functions of the state they run on, and re-renders are not modelled.
- Hydration and server-side rendering timing are framework behaviour and are left out.
- UsersPage: a page change after a search lists twice in the source (the handler's call and the effect on `currentPage`). ChangePage models the effect's call only. A reply that reports a page other than the one requested changes `currentPage` and so triggers the effect again; that second listing is not modelled.
- UsersPage.UsersPage.ClearFilters: sends the corrected query `ClearFiltersQuery`; the source as written re-sends the stale search and role (`ClearFiltersQueryAsWritten`, see Findings).
- EditProfile.ProfileForm.Submit: validates with the corrected `ProfileSchema`; as written a blank city passes `.min(1)` and is sent empty (`ProfileSchemaAsWritten`, see Findings).
- AuthService.Login: takes the settled outcome as input; token writes the response interceptor makes during the call (`ApiClient.Send` on a 401: replace the access token, or clear both and redirect) are not composed in.
- AuthService.RefreshToken: takes the settled outcome as input; the interceptor's own token writes during the call are not composed in, as for `AuthService.Login`.
- AuthStore.Store.Login: takes the settled outcome as input; the interceptor's token writes during the call are not composed in, as for `AuthService.Login`.
- AuthStore.Store.RefreshUser: takes the settled outcome as input; the interceptor's token writes during `getCurrentUser` (a renewed access token, or both cleared and a redirect) are not composed in.
- UsersPage: `adminService` is a thin wrapper over the client. The listing reply is an input, and the other row actions (view, edit, delete) are left out.
- CreateUser: the region table `CHILE_REGIONS_CITIES` is the abstract map `regions`. A region named like an `Object.prototype` key (`toString`) would find an inherited value in the source; this is not modelled.
- CreateUser.CreateUserPage.HandleSubmit: the toasts and the navigation to the new user's page are returned as the user id to show.
- EditProfile: `userService.updateUserProfile` is a reply input. react-hook-form's dirty tracking is modelled as "values differ from the last reset", not field by field.
- ProfilePhoto: the preview produced later by `FileReader` is not modelled; `previewUrl` only keeps or clears its value. `userService.updateProfilePhoto` is not part of this model, and its reply is an input. The dialog's `isOpen` rendering is left out.
- ForgotPassword: the page's rendering, its loading and error display are left out. The store action's result is an input.
- The authentication pages (`login`, `register`, `verify-email`, `reset-password`, `change-password`) are UI wiring around the store actions and are not modelled.
- Presentational components, layouts, static data tables, date formatting and debugging utilities are left out.

## Findings

| source | as written | input that shows it | evidently intended | confidence | as-written member | corrected member |
|---|---|---|---|---|---|---|
| src/app/dashboard/admin/usuarios/page.tsx:361-366 | `clearFilters` empties the filters through setters but passes only `{page: 1}` to `loadUsers`, which reads `searchTerm` and `roleFilter` from the render it closed over | on page 1 with search `ana` and role `host`, clearing sends search `ana` and role `host` again; the page does not change, so no later load corrects it | the listing after clearing carries neither filter | not executed | UsersPage.ClearFiltersQueryAsWritten, UsersPage.ClearFiltersKeepsStaleSearch | UsersPage.ClearFiltersQuery |
| src/components/profile/EditProfileForm.tsx:49-53 | `.trim()` comes after `.min(1)` and `.max(50)`, so the checks see the untrimmed text (likewise for name and last name) | a city of three spaces passes `.min(1)` and is submitted as the empty string | a required city is non-blank; the trim comes before the length checks | not executed | EditProfile.ProfileSchemaAsWritten, EditProfile.BlankCityAccepted | EditProfile.ProfileSchema |
