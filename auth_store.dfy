/** The session store: who is logged in, the last error, one loading flag per action and the
    pending e-mail verification. Each action commits its changes in steps (an entry commit when
    it starts, a final commit when the service settles); `Session` and the functions below are
    those commits, and the class `Store` performs them on its fields. */
module AuthStore {
  import opened Wrappers
  import opened ApiClient
  import opened AuthService

  /** The actions that have a loading flag of their own. */
  datatype Action =
    | Registering | LoggingIn | VerifyingEmail | ResendingCode
    | ChangingPassword | ForgotPasswordLoading | ResetPasswordLoading

  /** The seven per-action loading flags. */
  datatype Flags = Flags(
    isRegistering: bool,
    isLoggingIn: bool,
    isVerifyingEmail: bool,
    isResendingCode: bool,
    isChangingPassword: bool,
    isForgotPasswordLoading: bool,
    isResetPasswordLoading: bool)
  {
    /** The flag of action `a`. */
    function Get(a: Action): bool {
      match a
      case Registering => isRegistering
      case LoggingIn => isLoggingIn
      case VerifyingEmail => isVerifyingEmail
      case ResendingCode => isResendingCode
      case ChangingPassword => isChangingPassword
      case ForgotPasswordLoading => isForgotPasswordLoading
      case ResetPasswordLoading => isResetPasswordLoading
    }

    /** `state.<flag of a> = b`: that flag and no other. */
    function Set(a: Action, b: bool): (r: Flags)
      ensures r.Get(a) == b
      ensures forall x :: x != a ==> r.Get(x) == Get(x)
    {
      match a
      case Registering => this.(isRegistering := b)
      case LoggingIn => this.(isLoggingIn := b)
      case VerifyingEmail => this.(isVerifyingEmail := b)
      case ResendingCode => this.(isResendingCode := b)
      case ChangingPassword => this.(isChangingPassword := b)
      case ForgotPasswordLoading => this.(isForgotPasswordLoading := b)
      case ResetPasswordLoading => this.(isResetPasswordLoading := b)
    }
  }

  const NoFlags := Flags(false, false, false, false, false, false, false)

  /** The state the store holds. */
  datatype Session = Session(
    user: Option<User>,
    isAuthenticated: bool,
    isLoading: bool,
    error: Option<string>,
    flags: Flags,
    pendingVerificationEmail: Option<string>,
    requiresEmailVerification: bool)
  {
    /** The store's invariant: a session is authenticated exactly when it holds a user. */
    predicate Consistent() {
      isAuthenticated <==> user.Some?
    }
  }

  /** `initialState` */
  function Initial(): (s: Session)
    ensures s.Consistent() && s.user.None? && !s.isLoading && s.error.None?
    ensures forall a :: !s.flags.Get(a)
    ensures s.pendingVerificationEmail.None? && !s.requiresEmailVerification
  {
    Session(None, false, false, None, NoFlags, None, false)
  }

  /** The four fields that describe who is logged in and what is pending, as opposed to the
      flags and the error that describe what is in flight. */
  predicate SameSession(r: Session, s: Session) {
    r.user == s.user && r.isAuthenticated == s.isAuthenticated
    && r.pendingVerificationEmail == s.pendingVerificationEmail
    && r.requiresEmailVerification == s.requiresEmailVerification
  }

  /** Sets the loading flag of `a` and nothing else. */
  function WithBusy(s: Session, a: Action, b: bool): (r: Session)
    ensures r.flags.Get(a) == b
    ensures forall x :: x != a ==> r.flags.Get(x) == s.flags.Get(x)
    ensures SameSession(r, s) && r.error == s.error && r.isLoading == s.isLoading
  {
    s.(flags := s.flags.Set(a, b))
  }

  const RegisterFailed := "Error en el registro"
  const LoginFailed := "Error en el login"
  const VerifyFailed := "Error verificando email"
  const ResendFailed := "Error reenviando código"
  const ChangePasswordFailed := "Error cambiando contraseña"
  const ForgotPasswordFailed := "Error olvidando contraseña"
  const ResetPasswordFailed := "Error reseteando contraseña"

  /** The error each action records when its service call throws an error without a message. */
  function DefaultError(a: Action): (m: string)
    ensures m != ""
  {
    match a
    case Registering => RegisterFailed
    case LoggingIn => LoginFailed
    case VerifyingEmail => VerifyFailed
    case ResendingCode => ResendFailed
    case ChangingPassword => ChangePasswordFailed
    case ForgotPasswordLoading => ForgotPasswordFailed
    case ResetPasswordLoading => ResetPasswordFailed
  }

  /** `message || fallback`: an empty message counts as missing. */
  function OrElse(message: string, fallback: string): (m: string)
    ensures message != "" ==> m == message
    ensures message == "" ==> m == fallback
  {
    if message != "" then message else fallback
  }

  /** The entry commit of an action: its flag raised and the error cleared. */
  function Enter(s: Session, a: Action): (r: Session)
    ensures r.flags.Get(a) && r.error.None?
    ensures forall x :: x != a ==> r.flags.Get(x) == s.flags.Get(x)
    ensures SameSession(r, s) && r.isLoading == s.isLoading
  {
    WithBusy(s, a, true).(error := None)
  }

  /** The final commit of an action once its service call has settled with `result`; `email`
      is the address the action was called with (used by `register` and `login`). */
  function Finish(s: Session, a: Action, email: string, result: ServiceResult<User>): (r: Session)
    ensures s.Consistent() ==> r.Consistent()
  {
    var t := WithBusy(s, a, false);
    match result
    case Threw(e) => t.(error := Some(OrElse(e.message, DefaultError(a))))
    case Returned(body) =>
      match a
      case Registering =>
        if body.success then t.(pendingVerificationEmail := Some(email), requiresEmailVerification := true)
        else t
      case LoggingIn =>
        if body.success && body.user.Some? then
          var required := body.requiresEmailVerification.GetOr(false);
          t.(user := body.user, isAuthenticated := true, requiresEmailVerification := required,
             pendingVerificationEmail := if required then Some(email) else None)
        else t
      case VerifyingEmail =>
        if body.success && body.user.Some? then
          t.(user := body.user, isAuthenticated := true, requiresEmailVerification := false,
             pendingVerificationEmail := None)
        else t
      case _ => t
  }

  /** One complete run of an asynchronous action (`register`, `login`, `verifyEmail`,
      `resendVerificationCode`, `changePassword`, `forgotPassword`, `resetPassword`): the
      state after its entry and final commits, with nothing interleaved. The lemmas below
      state what a run does. */
  function Run(s: Session, a: Action, email: string, result: ServiceResult<User>): (r: Session)
    ensures s.Consistent() ==> r.Consistent()
  {
    Finish(Enter(s, a), a, email, result)
  }

  /** Every run lowers its own flag again and moves no other flag nor the global loading
      flag. */
  lemma RunLowersFlag(s: Session, a: Action, email: string, result: ServiceResult<User>)
    ensures var r := Run(s, a, email, result);
      !r.flags.Get(a) && (forall x :: x != a ==> r.flags.Get(x) == s.flags.Get(x))
      && r.isLoading == s.isLoading
  {
    var e := Enter(s, a);
    var r := Finish(e, a, email, result);
    assert r.flags == e.flags.Set(a, false) && r.isLoading == e.isLoading;
  }

  /** A throw records the thrown message, or the action's default when it has none, and
      changes nothing else; any reply leaves no error behind. */
  lemma RunError(s: Session, a: Action, email: string, result: ServiceResult<User>)
    ensures var r := Run(s, a, email, result);
      result.Threw? ==> r.error == Some(OrElse(result.error.message, DefaultError(a))) && SameSession(r, s)
    ensures result.Returned? ==> Run(s, a, email, result).error.None?
  {
    var e := Enter(s, a);
    assert result.Returned? ==> Finish(e, a, email, result).error == e.error;
  }

  /** `resendVerificationCode`, `changePassword`, `forgotPassword` and `resetPassword` leave
      the session fields as they were, whatever the reply. */
  lemma RunOtherActions(s: Session, a: Action, email: string, result: ServiceResult<User>)
    requires a !in {Registering, LoggingIn, VerifyingEmail}
    ensures SameSession(Run(s, a, email, result), s)
  {
  }

  /** `register` never logs anyone in; a successful reply, and only that, records the e-mail
      awaiting verification. */
  lemma RunRegister(s: Session, email: string, result: ServiceResult<User>)
    ensures var r := Run(s, Registering, email, result);
      r.user == s.user && r.isAuthenticated == s.isAuthenticated
    ensures var r := Run(s, Registering, email, result);
      result.Returned? && result.body.success ==>
        r.pendingVerificationEmail == Some(email) && r.requiresEmailVerification
    ensures !(result.Returned? && result.body.success) ==> SameSession(Run(s, Registering, email, result), s)
  {
  }

  /** `login`: a successful reply with a user logs that user in even when the server still
      requires verification; the e-mail is pending exactly when the server says so. Any other
      reply leaves the session fields alone. */
  lemma RunLogin(s: Session, email: string, result: ServiceResult<User>)
    ensures var r := Run(s, LoggingIn, email, result);
      result.Returned? && result.body.success && result.body.user.Some? ==>
        r.user == result.body.user && r.isAuthenticated
        && (r.requiresEmailVerification <==> result.body.requiresEmailVerification == Some(true))
        && r.pendingVerificationEmail == (if r.requiresEmailVerification then Some(email) else None)
    ensures !(result.Returned? && result.body.success && result.body.user.Some?) ==>
      SameSession(Run(s, LoggingIn, email, result), s)
  {
  }

  /** `verifyEmail`: a successful reply with a user logs in and clears the pending
      verification; any other reply leaves the session fields alone. */
  lemma RunVerifyEmail(s: Session, email: string, result: ServiceResult<User>)
    ensures var r := Run(s, VerifyingEmail, email, result);
      result.Returned? && result.body.success && result.body.user.Some? ==>
        r.user == result.body.user && r.isAuthenticated
        && r.pendingVerificationEmail.None? && !r.requiresEmailVerification
    ensures !(result.Returned? && result.body.success && result.body.user.Some?) ==>
      SameSession(Run(s, VerifyingEmail, email, result), s)
  {
  }

  /** What an asynchronous action resolves to. */
  datatype ActionResult = ActionResult(success: bool, message: string, requiresEmailVerification: Option<bool>)

  /** The value an action returns to its caller: the reply's `success` and `message` (and, for
      `login`, its verification flag), or a failure carrying the thrown message or the
      connection error. */
  function Returns(a: Action, result: ServiceResult<User>): (r: ActionResult)
    ensures r.success <==> result.Returned? && result.body.success
    ensures result.Returned? ==> r.message == result.body.message
    ensures result.Threw? ==> r.message != "" && r.requiresEmailVerification.None?
    ensures result.Threw? && result.error.message != "" ==> r.message == result.error.message
    ensures result.Threw? && result.error.message == "" ==> r.message == ConnectionErrorMessage
    ensures result.Returned? && a == LoggingIn ==> r.requiresEmailVerification == result.body.requiresEmailVerification
    ensures r.requiresEmailVerification.Some? ==> a == LoggingIn
  {
    match result
    case Returned(body) =>
      ActionResult(body.success, body.message, if a == LoggingIn then body.requiresEmailVerification else None)
    case Threw(e) =>
      ActionResult(false, OrElse(e.message, ConnectionErrorMessage), None)
  }

  /** The final commit of `refreshUser`. Without a stored access token the state is reset and
      no request is made; otherwise a successful reply with a user installs that user and
      leaves the error as it stands (another action may have recorded one since the entry
      commit), and any other reply or a throw resets the state. The entry commit (loading
      raised, error cleared) happens only when a token is stored. */
  function AfterRefresh(s: Session, hasToken: bool, result: ServiceResult<User>): (r: Session)
    ensures r.Consistent()
    ensures !hasToken ==> r == Initial()
    ensures hasToken && result.Returned? && result.body.success && result.body.user.Some? ==>
      r.user == result.body.user && r.isAuthenticated && !r.isLoading && r.error == s.error
      && r.pendingVerificationEmail == s.pendingVerificationEmail
      && r.requiresEmailVerification == s.requiresEmailVerification
      && forall a :: r.flags.Get(a) == s.flags.Get(a)
    ensures !(hasToken && result.Returned? && result.body.success && result.body.user.Some?) ==> r == Initial()
  {
    if !hasToken then Initial()
    else
      match result
      case Returned(body) =>
        if body.success && body.user.Some? then
          s.(isLoading := false, user := body.user, isAuthenticated := true)
        else Initial()
      case Threw(_) => Initial()
  }

  // ---------------------------------------------------------------------------------------
  // Persistence

  /** The part of the state `partialize` writes to `roomzy-auth-storage`. */
  datatype Persisted = Persisted(
    user: Option<User>,
    isAuthenticated: bool,
    pendingVerificationEmail: Option<string>,
    requiresEmailVerification: bool)

  const PersistKey := "roomzy-auth-storage"

  /** `partialize`: the session fields, without flags or error. */
  function Partialize(s: Session): (p: Persisted)
    ensures p.user == s.user && p.isAuthenticated == s.isAuthenticated
    ensures p.pendingVerificationEmail == s.pendingVerificationEmail
    ensures p.requiresEmailVerification == s.requiresEmailVerification
  {
    Persisted(s.user, s.isAuthenticated, s.pendingVerificationEmail, s.requiresEmailVerification)
  }

  /** The state a fresh page load starts from: the initial state with the persisted fields
      merged over it. */
  function Rehydrate(p: Persisted): (r: Session)
    ensures Partialize(r) == p
    ensures !r.isLoading && r.error.None? && r.flags == NoFlags
    ensures (p.isAuthenticated <==> p.user.Some?) ==> r.Consistent()
  {
    Initial().(user := p.user, isAuthenticated := p.isAuthenticated,
               pendingVerificationEmail := p.pendingVerificationEmail,
               requiresEmailVerification := p.requiresEmailVerification)
  }

  /** Reloading keeps exactly the persisted part: a consistent session reloads consistent,
      nothing is in flight and no error survives, and an idle session without an error
      reloads unchanged. */
  lemma PersistRoundTrip(s: Session)
    ensures Partialize(Rehydrate(Partialize(s))) == Partialize(s)
    ensures SameSession(Rehydrate(Partialize(s)), s)
    ensures s.Consistent() ==> Rehydrate(Partialize(s)).Consistent()
    ensures var r := Rehydrate(Partialize(s)); !r.isLoading && r.error.None? && r.flags == NoFlags
    ensures (!s.isLoading && s.error.None? && s.flags == NoFlags) ==> Rehydrate(Partialize(s)) == s
  {
  }

  // ---------------------------------------------------------------------------------------
  // Interleaved commits

  /** One commit to the store. Asynchronous actions commit twice, and the commits of actions
      in flight at the same time may interleave in any order. */
  datatype Commit =
    | Entered(a: Action)
    | Finished(a: Action, email: string, result: ServiceResult<User>)
    | LogoutEntered
    | LogoutFinished
    | RefreshEntered
    | RefreshFinished(hasToken: bool, result: ServiceResult<User>)
    | ErrorCleared
    | PendingVerificationCleared
    | UserSet(newUser: Option<User>)
    | LoadingSet(loading: bool)
    | ErrorSet(newError: Option<string>)

  /** The state one commit leaves. Entry commits and the loading and error setters never touch
      the session fields (user, authentication, pending verification). */
  function Apply(s: Session, c: Commit): (r: Session)
    ensures (c.Entered? || c.LogoutEntered? || c.RefreshEntered? || c.ErrorCleared? || c.LoadingSet? || c.ErrorSet?)
      ==> SameSession(r, s)
  {
    match c
    case Entered(a) => Enter(s, a)
    case Finished(a, email, result) => Finish(s, a, email, result)
    case LogoutEntered => s.(isLoading := true)
    case LogoutFinished => Initial()
    case RefreshEntered => s.(isLoading := true, error := None)
    case RefreshFinished(hasToken, result) => AfterRefresh(s, hasToken, result)
    case ErrorCleared => s.(error := None)
    case PendingVerificationCleared => s.(pendingVerificationEmail := None, requiresEmailVerification := false)
    case UserSet(u) => s.(user := u, isAuthenticated := u.Some?)
    case LoadingSet(b) => s.(isLoading := b)
    case ErrorSet(e) => s.(error := e)
  }

  /** The state after a sequence of commits. */
  function Replay(s: Session, commits: seq<Commit>): Session
    decreases |commits|
  {
    if commits == [] then s else Replay(Apply(s, commits[0]), commits[1..])
  }

  /** Every commit keeps the invariant. */
  lemma ApplyConsistent(s: Session, c: Commit)
    requires s.Consistent()
    ensures Apply(s, c).Consistent()
  {
  }

  /** Whatever order the commits of concurrent actions arrive in, every state the store passes
      through from a consistent one is consistent; in particular every state reachable from
      `initialState`. */
  lemma {:induction false} ReplayConsistent(s: Session, commits: seq<Commit>)
    requires s.Consistent()
    ensures Replay(s, commits).Consistent()
    decreases |commits|
  {
    if commits != [] {
      ApplyConsistent(s, commits[0]);
      ReplayConsistent(Apply(s, commits[0]), commits[1..]);
    }
  }

  /** A registration that fails while the current user is being fetched records its error,
      and the fetch that then succeeds leaves that error in place. */
  lemma {:induction false} RefreshKeepsLaterError(s: Session, email: string, thrown: ApiResponse<User>, body: ApiResponse<User>)
    requires thrown.message != "" && body.success && body.user.Some?
    ensures var r := Replay(s, [RefreshEntered, Entered(Registering), Finished(Registering, email, Threw(thrown)),
                                RefreshFinished(true, Returned(body))]);
      r.error == Some(thrown.message) && r.user == body.user && r.isAuthenticated
  {
    var commits := [RefreshEntered, Entered(Registering), Finished(Registering, email, Threw(thrown)),
                    RefreshFinished(true, Returned(body))];
    var s1 := Apply(s, commits[0]);
    var s2 := Apply(s1, commits[1]);
    var s3 := Apply(s2, commits[2]);
    var s4 := Apply(s3, commits[3]);
    assert s3.error == Some(thrown.message);
    assert commits[1..][1..] == commits[2..] && commits[2..][1..] == commits[3..] && commits[3..][1..] == [];
    assert Replay(s, commits) == Replay(s1, commits[1..]);
    assert Replay(s1, commits[1..]) == Replay(s2, commits[2..]);
    assert Replay(s2, commits[2..]) == Replay(s3, commits[3..]);
    assert Replay(s3, commits[3..]) == Replay(s4, []);
  }

  /** However the commits interleave, a logout's final commit leaves exactly `initialState`. */
  lemma {:induction false} LogoutLastIsInitial(s: Session, commits: seq<Commit>)
    requires commits != [] && commits[|commits| - 1] == LogoutFinished
    ensures Replay(s, commits) == Initial()
    decreases |commits|
  {
    if |commits| > 1 {
      LogoutLastIsInitial(Apply(s, commits[0]), commits[1..]);
    }
  }

  // ---------------------------------------------------------------------------------------
  // The store

  class Store {
    var user: Option<User>
    var isAuthenticated: bool
    var isLoading: bool
    var error: Option<string>
    /** The seven per-action loading flags, kept together. */
    var flags: Flags
    var pendingVerificationEmail: Option<string>
    var requiresEmailVerification: bool

    function State(): Session
      reads this
    {
      Session(user, isAuthenticated, isLoading, error, flags, pendingVerificationEmail, requiresEmailVerification)
    }

    predicate Valid()
      reads this
    {
      State().Consistent()
    }

    /** The store as created: `initialState`. */
    constructor()
      ensures State() == Initial() && Valid()
    {
      user := None;
      isAuthenticated := false;
      isLoading := false;
      error := None;
      flags := NoFlags;
      pendingVerificationEmail := None;
      requiresEmailVerification := false;
    }

    /** `Object.assign(state, initialState)` */
    method Reset()
      modifies this
      ensures State() == Initial()
    {
      user := None;
      isAuthenticated := false;
      isLoading := false;
      error := None;
      flags := NoFlags;
      pendingVerificationEmail := None;
      requiresEmailVerification := false;
    }

    /** `state.<flag of a> = b` */
    method SetBusy(a: Action, b: bool)
      modifies this
      ensures State() == WithBusy(old(State()), a, b)
    {
      flags := flags.Set(a, b);
    }

    /** The common body of the asynchronous actions: the entry commit, the service call
        settling with `result`, and the final commit. `entered` is the state the entry commit
        leaves. */
    method RunAction(a: Action, email: string, result: ServiceResult<User>) returns (r: ActionResult, ghost entered: Session)
      requires Valid()
      modifies this
      ensures Valid()
      ensures entered == Enter(old(State()), a)
      ensures State() == Run(old(State()), a, email, result)
      ensures r == Returns(a, result)
    {
      SetBusy(a, true);
      error := None;
      entered := State();
      FinalCommit(a, email, result);
      match result {
        case Threw(e) =>
          r := ActionResult(false, OrElse(e.message, ConnectionErrorMessage), None);
        case Returned(body) =>
          r := ActionResult(body.success, body.message, if a == LoggingIn then body.requiresEmailVerification else None);
      }
    }

    /** The final commit of action `a` once its service call has settled with `result`. */
    method FinalCommit(a: Action, email: string, result: ServiceResult<User>)
      modifies this
      ensures State() == Finish(old(State()), a, email, result)
    {
      SetBusy(a, false);
      match result {
        case Threw(e) =>
          error := Some(OrElse(e.message, DefaultError(a)));
        case Returned(body) =>
          if a == Registering && body.success {
            pendingVerificationEmail := Some(email);
            requiresEmailVerification := true;
          } else if a == LoggingIn && body.success && body.user.Some? {
            user := body.user;
            isAuthenticated := true;
            requiresEmailVerification := body.requiresEmailVerification.GetOr(false);
            pendingVerificationEmail := if body.requiresEmailVerification.GetOr(false) then Some(email) else None;
          } else if a == VerifyingEmail && body.success && body.user.Some? {
            user := body.user;
            isAuthenticated := true;
            requiresEmailVerification := false;
            pendingVerificationEmail := None;
          }
      }
    }

    /** `register(data)`: the service call settles with outcome `o`. */
    method Register(email: string, o: Outcome<User>) returns (r: ActionResult, ghost entered: Session)
      requires Valid()
      modifies this
      ensures Valid()
      ensures entered == Enter(old(State()), Registering)
      ensures State() == Run(old(State()), Registering, email, Settle(o))
      ensures r == Returns(Registering, Settle(o))
    {
      r, entered := RunAction(Registering, email, Settle(o));
    }

    /** `login(data)`: `authService.login` stores the issued tokens, then the store commits. */
    method Login(storage: LocalStorage, email: string, o: Outcome<User>) returns (r: ActionResult, ghost entered: Session)
      requires Valid()
      modifies this, storage
      ensures Valid()
      ensures entered == Enter(old(State()), LoggingIn)
      ensures State() == Run(old(State()), LoggingIn, email, Settle(o))
      ensures storage.entries == LoginEntries(old(storage.entries), o)
      ensures r == Returns(LoggingIn, Settle(o))
    {
      var result := AuthService.Login(storage, o);
      r, entered := RunAction(LoggingIn, email, result);
    }

    /** `verifyEmail(data)` */
    method VerifyEmail(o: Outcome<User>) returns (r: ActionResult, ghost entered: Session)
      requires Valid()
      modifies this
      ensures Valid()
      ensures entered == Enter(old(State()), VerifyingEmail)
      ensures State() == Run(old(State()), VerifyingEmail, "", Settle(o))
      ensures r == Returns(VerifyingEmail, Settle(o))
    {
      r, entered := RunAction(VerifyingEmail, "", Settle(o));
    }

    /** `resendVerificationCode(data)` */
    method ResendVerificationCode(o: Outcome<User>) returns (r: ActionResult, ghost entered: Session)
      requires Valid()
      modifies this
      ensures Valid()
      ensures entered == Enter(old(State()), ResendingCode)
      ensures State() == Run(old(State()), ResendingCode, "", Settle(o))
      ensures r == Returns(ResendingCode, Settle(o))
    {
      r, entered := RunAction(ResendingCode, "", Settle(o));
    }

    /** `changePassword(data)` */
    method ChangePassword(o: Outcome<User>) returns (r: ActionResult, ghost entered: Session)
      requires Valid()
      modifies this
      ensures Valid()
      ensures entered == Enter(old(State()), ChangingPassword)
      ensures State() == Run(old(State()), ChangingPassword, "", Settle(o))
      ensures r == Returns(ChangingPassword, Settle(o))
    {
      r, entered := RunAction(ChangingPassword, "", Settle(o));
    }

    /** `forgotPassword(data)` */
    method ForgotPassword(o: Outcome<User>) returns (r: ActionResult, ghost entered: Session)
      requires Valid()
      modifies this
      ensures Valid()
      ensures entered == Enter(old(State()), ForgotPasswordLoading)
      ensures State() == Run(old(State()), ForgotPasswordLoading, "", Settle(o))
      ensures r == Returns(ForgotPasswordLoading, Settle(o))
    {
      r, entered := RunAction(ForgotPasswordLoading, "", Settle(o));
    }

    /** `resetPassword(data)` */
    method ResetPassword(o: Outcome<User>) returns (r: ActionResult, ghost entered: Session)
      requires Valid()
      modifies this
      ensures Valid()
      ensures entered == Enter(old(State()), ResetPasswordLoading)
      ensures State() == Run(old(State()), ResetPasswordLoading, "", Settle(o))
      ensures r == Returns(ResetPasswordLoading, Settle(o))
    {
      r, entered := RunAction(ResetPasswordLoading, "", Settle(o));
    }

    /** `logout()`: loading is raised, the service clears the tokens whatever the server
        answers, and the state ends as `initialState` whether or not the call threw. */
    method Logout<T>(storage: LocalStorage, o: Outcome<T>) returns (ghost entered: Session)
      requires Valid()
      modifies this, storage
      ensures Valid()
      ensures entered == old(State()).(isLoading := true)
      ensures State() == Initial()
      ensures storage.entries == WithoutTokens(old(storage.entries))
    {
      isLoading := true;
      entered := State();
      var _ := AuthService.Logout(storage, o);
      Reset();
    }

    /** `refreshUser()`. `fetched` tells whether the current user was requested at all. */
    method RefreshUser(storage: LocalStorage, o: Outcome<User>) returns (fetched: bool, ghost entered: Session)
      requires Valid()
      modifies this
      ensures Valid()
      ensures fetched <==> HasAccessToken(storage.entries)
      ensures fetched ==> entered == old(State()).(isLoading := true, error := None)
      ensures error.None?
      ensures State() == AfterRefresh(if fetched then entered else old(State()), fetched, Settle(o))
    {
      var hasToken := AuthService.IsAuthenticated(storage);
      if !hasToken {
        Reset();
        fetched := false;
        entered := State();
        return;
      }
      fetched := true;
      isLoading := true;
      error := None;
      entered := State();
      match Settle(o) {
        case Returned(body) =>
          isLoading := false;
          if body.success && body.user.Some? {
            user := body.user;
            isAuthenticated := true;
          } else {
            Reset();
          }
        case Threw(_) =>
          Reset();
      }
    }

    /** `clearError()` */
    method ClearError()
      requires Valid()
      modifies this
      ensures Valid()
      ensures State() == old(State()).(error := None)
    {
      error := None;
    }

    /** `clearPendingVerification()`: the two verification fields and nothing else. */
    method ClearPendingVerification()
      requires Valid()
      modifies this
      ensures Valid()
      ensures State() == old(State()).(pendingVerificationEmail := None, requiresEmailVerification := false)
    {
      pendingVerificationEmail := None;
      requiresEmailVerification := false;
    }

    /** `setUser(user)`: authenticated exactly when a user is given. */
    method SetUser(u: Option<User>)
      modifies this
      ensures Valid()
      ensures State() == old(State()).(user := u, isAuthenticated := u.Some?)
    {
      user := u;
      isAuthenticated := u.Some?;
    }

    /** `setLoading(loading)` */
    method SetLoading(loading: bool)
      requires Valid()
      modifies this
      ensures Valid()
      ensures State() == old(State()).(isLoading := loading)
    {
      isLoading := loading;
    }

    /** `setError(error)` */
    method SetError(e: Option<string>)
      requires Valid()
      modifies this
      ensures Valid()
      ensures State() == old(State()).(error := e)
    {
      error := e;
    }
  }
}
