/** The authentication endpoints: sign-up, login, logout, forgot-password and
    reset-password. Every call into the identity provider's client is an
    input `Outcome` (what the call returned or raised), and every handler is
    a total function from those outcomes to the HTTP response it produces,
    together with the provider calls it made, in order. */
module Auth {
  import opened Options
  import opened Text
  import opened Http

  /** The provider's session: the two tokens the backend relays. */
  datatype Session = Session(accessToken: string, refreshToken: string)

  /** What `sign_up` and `sign_in_with_password` return; the session may be
      absent (an account awaiting email confirmation has none). */
  datatype AuthResponse = AuthResponse(session: Option<Session>)

  /** The provider's user record, opaque here. */
  datatype User = User(id: string, email: string)

  /** What `update_user` returns. */
  datatype UserResponse = UserResponse(user: Option<User>)

  /** The process-wide settings. The settings class defines only the
      provider URL and key; `formattedResetPasswordUrl` is None when, as in
      that class, no such attribute exists. */
  datatype Settings = Settings(
    supabaseUrl: string,
    supabaseKey: string,
    formattedResetPasswordUrl: Option<string>)

  /** A call into the identity provider's client. */
  datatype ProviderCall =
    | SignUp(email: string, password: string)
    | SignInWithPassword(email: string, password: string)
    | ResetPasswordEmail(email: string, redirectTo: string)
    | SetSession(accessToken: string, refreshToken: string)
    | UpdateUser(password: string)

  /** A handler's result: the response and the provider calls made. */
  datatype Handled = Handled(response: Response, calls: seq<ProviderCall>)

  const SignupMessage: string := "Signup successful. Please check your email for verification."
  const LoginFailedDetail: string := "Incorrect email or password"
  const LogoutMessage: string := "Logout successful"
  const ResetEmailMessage: string := "Password reset email sent successfully"
  const ResetMessage: string := "Password reset successfully"
  const ResetFailedDetail: string := "Password reset failed"
  const MissingResetUrlMessage: string :=
    "'Settings' object has no attribute 'formatted_reset_password_url'"
  const BearerChallenge: (string, string) := ("WWW-Authenticate", "Bearer")
  const AccessCookieName: string := "access_token"
  const RefreshCookieName: string := "refresh_token"

  // ---------------------------------------------------------------------
  // POST /signup

  /** Sign-up: whatever the provider returns, the same confirmation message;
      whatever it raises, 400 with the exception's text. */
  function Signup(email: string, password: string, signUp: Outcome<AuthResponse>): (h: Handled)
    ensures h.calls == [SignUp(email, password)]
    ensures h.response.cookies == [] && h.response.headers == []
    ensures h.response.status == 200 <==> signUp.Returned?
    ensures signUp.Returned? ==> h.response.payload == Message(SignupMessage)
    ensures signUp.Raised? ==>
      h.response.status == 400 && h.response.payload == Detail(Str(signUp.error))
  {
    var calls := [SignUp(email, password)];
    match signUp
    case Returned(_) => Handled(Success(Message(SignupMessage), []), calls)
    case Raised(e) => Handled(Raise(400, Str(e), []), calls)
  }

  /** The sign-up response does not depend on what the provider returned. */
  lemma SignupIgnoresProviderResult(email: string, password: string, a: AuthResponse, b: AuthResponse)
    ensures Signup(email, password, Returned(a)) == Signup(email, password, Returned(b))
  {
  }

  // ---------------------------------------------------------------------
  // POST /login

  /** The cookies login sets: host-only, path `/`, session lifetime,
      HTTP-only, secure, `SameSite=Lax`. */
  function SessionCookie(name: string, value: string): Cookie
  {
    Cookie(name, value, "/", None, None, true, true, Lax)
  }

  /** The one failure response of login. */
  const LoginFailure: Response := Raise(401, LoginFailedDetail, [BearerChallenge])

  /** Login: with a session, both tokens as cookies and in the body; on any
      exception (including reading the tokens of an absent session), 401
      with a fixed message and a Bearer challenge. */
  function Login(email: string, password: string, signIn: Outcome<AuthResponse>): (h: Handled)
    ensures h.calls == [SignInWithPassword(email, password)]
    ensures h.response.status == 200 <==> signIn.Returned? && signIn.value.session.Some?
    ensures h.response.status == 200 ==>
      var session := signIn.value.session.value;
      && |h.response.cookies| == 2
      && h.response.cookies[0].name == AccessCookieName
      && h.response.cookies[0].value == session.accessToken
      && h.response.cookies[1].name == RefreshCookieName
      && h.response.cookies[1].value == session.refreshToken
      && (forall c :: c in h.response.cookies ==>
            && c.httpOnly && c.secure && c.sameSite == Lax && c.domain == None && c.path == "/"
            && c.maxAge == None)
      && h.response.headers == []
      && h.response.payload == TokenPair(session.accessToken, session.refreshToken, "bearer")
    ensures h.response.status != 200 ==>
      && h.response.status == 401
      && h.response.payload == Detail(LoginFailedDetail)
      && h.response.headers == [BearerChallenge]
      && h.response.cookies == []
  {
    var calls := [SignInWithPassword(email, password)];
    match signIn
    case Raised(_) => Handled(LoginFailure, calls)
    case Returned(auth) =>
      match auth.session
      case None => Handled(LoginFailure, calls)
      case Some(s) =>
        var cookies := [SessionCookie(AccessCookieName, s.accessToken),
                        SessionCookie(RefreshCookieName, s.refreshToken)];
        Handled(Success(TokenPair(s.accessToken, s.refreshToken, "bearer"), cookies), calls)
  }

  /** Login never reveals why it failed: any two failures, whatever the
      provider raised, give the same response. */
  lemma LoginHidesProviderError(email: string, password: string, a: Outcome<AuthResponse>, b: Outcome<AuthResponse>)
    requires Login(email, password, a).response.status != 200
    requires Login(email, password, b).response.status != 200
    ensures Login(email, password, a).response == Login(email, password, b).response
  {
  }

  // ---------------------------------------------------------------------
  // POST /logout

  /** What `delete_cookie(name)` emits: an expired, empty cookie with the
      framework's default attributes. */
  function ExpiredCookie(name: string): (c: Cookie)
    ensures c.name == name && c.path == "/" && c.domain == None
    ensures c.value == "" && c.maxAge == Some(0)
    ensures !c.httpOnly && !c.secure && c.sameSite == Lax
  {
    Cookie(name, "", "/", None, Some(0), false, false, Lax)
  }

  /** Logout: no provider call, both cookies expired, always 200. */
  function Logout(): (h: Handled)
    ensures h.calls == []
    ensures h.response.status == 200 && h.response.payload == Message(LogoutMessage)
    ensures |h.response.cookies| == 2
    ensures h.response.cookies[0].name == AccessCookieName
    ensures h.response.cookies[1].name == RefreshCookieName
    ensures forall c :: c in h.response.cookies ==> c.maxAge == Some(0) && c.value == ""
    ensures h.response.headers == []
  {
    Handled(Success(Message(LogoutMessage), [ExpiredCookie(AccessCookieName), ExpiredCookie(RefreshCookieName)]), [])
  }

  /** Each cookie a successful login sets, a session cookie with no
      max-age, is expired by logout: same name, same path, same (absent)
      domain, which is what identifies a cookie to a browser. */
  lemma LogoutExpiresLoginCookies(email: string, password: string, signIn: Outcome<AuthResponse>)
    requires Login(email, password, signIn).response.status == 200
    ensures var issued := Login(email, password, signIn).response.cookies;
      var cleared := Logout().response.cookies;
      |issued| == |cleared| &&
      forall i :: 0 <= i < |issued| ==>
        && cleared[i].name == issued[i].name
        && cleared[i].path == issued[i].path
        && cleared[i].domain == issued[i].domain
        && issued[i].maxAge == None
        && cleared[i].maxAge == Some(0)
  {
  }

  // ---------------------------------------------------------------------
  // POST /forgot-password

  /** Reading `settings.formatted_reset_password_url`: an `AttributeError`
      when the settings have no such attribute. */
  function ResetRedirect(settings: Settings): Outcome<string>
  {
    match settings.formattedResetPasswordUrl
    case None => Raised(OtherError(MissingResetUrlMessage))
    case Some(url) => Returned(url)
  }

  /** Forgot-password. The redirect lookup happens inside the `try`, before
      the provider call: if it fails, nothing is sent and the handler
      answers 400 with the lookup's error. */
  function ForgotPassword(settings: Settings, email: string, resetEmail: Outcome<()>): (h: Handled)
    ensures settings.formattedResetPasswordUrl.None? ==> h.calls == []
    ensures settings.formattedResetPasswordUrl.Some? ==>
      h.calls == [ResetPasswordEmail(email, settings.formattedResetPasswordUrl.value)]
    ensures h.response.status == 200 <==>
      settings.formattedResetPasswordUrl.Some? && resetEmail.Returned?
    ensures h.response.status == 200 ==> h.response.payload == Message(ResetEmailMessage)
    ensures h.response.status != 200 ==> h.response.status == 400
    ensures settings.formattedResetPasswordUrl.None? ==>
      h.response.payload == Detail(MissingResetUrlMessage)
    ensures settings.formattedResetPasswordUrl.Some? && resetEmail.Raised? ==>
      h.response.payload == Detail(Str(resetEmail.error))
    ensures h.response.cookies == [] && h.response.headers == []
  {
    match ResetRedirect(settings)
    case Raised(e) => Handled(Raise(400, Str(e), []), [])
    case Returned(redirectTo) =>
      var calls := [ResetPasswordEmail(email, redirectTo)];
      match resetEmail
      case Returned(_) => Handled(Success(Message(ResetEmailMessage), []), calls)
      case Raised(e) => Handled(Raise(400, Str(e), []), calls)
  }

  /** With the settings class as it stands (no reset URL attribute), every
      forgot-password request fails with 400 and reaches no provider. */
  lemma ForgotPasswordWithoutResetUrl(url: string, key: string, email: string, resetEmail: Outcome<()>)
    ensures var h := ForgotPassword(Settings(url, key, None), email, resetEmail);
      h.calls == [] && h.response.status == 400 && h.response.payload == Detail(MissingResetUrlMessage)
  {
  }

  // ---------------------------------------------------------------------
  // POST /reset-password

  /** The exception raised by the provider calls of reset-password, if any:
      `set_session` first, `update_user` only after it succeeded. */
  function ProviderFailure(setSession: Outcome<()>, update: Outcome<UserResponse>): Option<Exception>
  {
    if setSession.Raised? then Some(setSession.error)
    else if update.Raised? then Some(update.error)
    else None
  }

  /** The `try` block of reset-password: what it returned or raised, and
      the provider calls it made. */
  function ResetPasswordAttempt(
    accessToken: string, refreshToken: string, newPassword: string,
    setSession: Outcome<()>, update: Outcome<UserResponse>): (Outcome<Payload>, seq<ProviderCall>)
  {
    match setSession
    case Raised(e) => (Raised(e), [SetSession(accessToken, refreshToken)])
    case Returned(_) =>
      var calls := [SetSession(accessToken, refreshToken), UpdateUser(newPassword)];
      match update
      case Raised(e) => (Raised(e), calls)
      case Returned(r) =>
        if r.user.Some? then (Returned(Message(ResetMessage)), calls)
        else (Raised(HttpException(400, ResetFailedDetail)), calls)
  }

  /** Reset-password as written: the provider's `AuthApiError` becomes 400
      with its text; every other exception, including the handler's own
      400 for a missing user, is caught by the generic handler and becomes
      500 with its text. */
  function ResetPassword(
    accessToken: string, refreshToken: string, newPassword: string,
    setSession: Outcome<()>, update: Outcome<UserResponse>): (h: Handled)
    ensures h.calls == [SetSession(accessToken, refreshToken)]
      + (if setSession.Returned? then [UpdateUser(newPassword)] else [])
    ensures h.response.status == 200 <==>
      ProviderFailure(setSession, update).None? && update.value.user.Some?
    ensures h.response.status == 200 ==> h.response.payload == Message(ResetMessage)
    ensures h.response.status == 400 <==>
      ProviderFailure(setSession, update).Some? && ProviderFailure(setSession, update).value.AuthApiError?
    ensures h.response.status == 400 ==>
      h.response.payload == Detail(ProviderFailure(setSession, update).value.message)
    ensures h.response.status in {200, 400, 500}
    ensures h.response.status == 500 ==>
      h.response.payload == Detail(Str(
        if ProviderFailure(setSession, update).Some? then ProviderFailure(setSession, update).value
        else HttpException(400, ResetFailedDetail)))
    ensures h.response.cookies == [] && h.response.headers == []
  {
    var (outcome, calls) := ResetPasswordAttempt(accessToken, refreshToken, newPassword, setSession, update);
    match outcome
    case Returned(payload) => Handled(Success(payload, []), calls)
    case Raised(AuthApiError(m)) => Handled(Raise(400, m, []), calls)
    case Raised(e) => Handled(Raise(500, Str(e), []), calls)
  }

  /** How the handler's own exception prints. */
  lemma ResetFailedPrints()
    ensures Str(HttpException(400, ResetFailedDetail)) == "400: Password reset failed"
  {
    FourHundredPrints();
    assert Str(HttpException(400, ResetFailedDetail)) == "400: " + ResetFailedDetail;
    ResetFailedText();
  }

  // Solver hint: the literal concatenation spelled out, which keeps
  // `ResetFailedPrints` fast.
  lemma ResetFailedText()
    ensures "400: " + ResetFailedDetail == "400: Password reset failed"
  {
  }

  lemma FourHundredPrints()
    ensures DecimalString(400) == "400"
  {
    assert Digits(4) == "4";
    assert Digits(40) == "40";
  }

  /** A session that updates no user is reported as a server error, not as
      the 400 the handler raises for it. */
  lemma ResetPasswordMissingUserIs500(accessToken: string, refreshToken: string, newPassword: string)
    ensures ResetPassword(accessToken, refreshToken, newPassword, Returned(()), Returned(UserResponse(None))).response
      == Raise(500, "400: Password reset failed", [])
  {
    ResetFailedPrints();
  }

  /** Reset-password as its author evidently meant it: the handler's own
      `HTTPException` passes through the generic handler unchanged. */
  function ResetPasswordIntended(
    accessToken: string, refreshToken: string, newPassword: string,
    setSession: Outcome<()>, update: Outcome<UserResponse>): (h: Handled)
    ensures ProviderFailure(setSession, update).None? && update.value.user.None? ==>
      h.response == Raise(400, ResetFailedDetail, [])
  {
    var (outcome, calls) := ResetPasswordAttempt(accessToken, refreshToken, newPassword, setSession, update);
    match outcome
    case Returned(payload) => Handled(Success(payload, []), calls)
    case Raised(AuthApiError(m)) => Handled(Raise(400, m, []), calls)
    case Raised(HttpException(status, detail)) => Handled(Raise(status, detail, []), calls)
    case Raised(e) => Handled(Raise(500, Str(e), []), calls)
  }

  /** The intended handler differs from the written one only for a missing
      user, as long as the provider raises no `HTTPException` of its own. */
  lemma ResetPasswordIntendedAgrees(
    accessToken: string, refreshToken: string, newPassword: string,
    setSession: Outcome<()>, update: Outcome<UserResponse>)
    requires ProviderFailure(setSession, update).Some? ==> !ProviderFailure(setSession, update).value.HttpException?
    requires ProviderFailure(setSession, update).None? ==> update.value.user.Some?
    ensures ResetPasswordIntended(accessToken, refreshToken, newPassword, setSession, update)
         == ResetPassword(accessToken, refreshToken, newPassword, setSession, update)
  {
  }
}
