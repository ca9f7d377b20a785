/**
 * The session store behind the authentication context: the in-memory user, the two persisted entries
 * "user" and "token", the global alert shown in the snackbar, and the last navigation it requested.
 */
module AuthContext {

  import opened Common
  import opened Api

  datatype Severity = Info | Success | Warning | Error

  /** The snackbar's record; `open` is whether it is shown. */
  datatype Alert = Alert(message: string, severity: Severity, open: bool)

  const ClosedAlert := Alert("", Info, false)

  const LoginSucceeded := "Login successful!"
  const VerifySucceeded := "OTP Verified Successfully!"
  const OtpSent := "OTP sent to your email."
  const LoggedOut := "Logged out successfully!"
  const LoginFallback := "Login failed"
  const VerifyFallback := "Verification failed"
  const RegisterFallback := "Registration failed"

  /**
   * The user that loading at start-up restores from the persisted entries: the stored record when both
   * entries are present and non-empty (a serialized record is never empty, a token may be), else none.
   */
  function RestoredUser(savedUser: Option<User>, savedToken: Option<string>): (u: Option<User>)
    ensures u.Some? <==> savedUser.Some? && savedToken.Some? && savedToken.value != ""
    ensures u.Some? ==> u == savedUser
  {
    if savedUser.Some? && savedToken.Some? && savedToken.value != "" then savedUser else None
  }

  /** The alert `register` shows for a reply: info on success, the service's text as a warning otherwise, an error on a failed call. */
  function SignupAlert(reply: SignupReply): (a: Alert)
    ensures a.open
    ensures a.severity == Error <==> reply.SignupRejected?
    ensures reply.SignupRejected? ==> a.message == MessageOr(reply.reason, RegisterFallback) && a.message != ""
    ensures reply.SignupAnswered? && reply.success ==> a == Alert(OtpSent, Info, true)
    ensures reply.SignupAnswered? && !reply.success ==> a == Alert(reply.message, Warning, true)
  {
    match reply
    case SignupAnswered(success, message) => if success then Alert(OtpSent, Info, true) else Alert(message, Warning, true)
    case SignupRejected(reason) => Alert(MessageOr(reason, RegisterFallback), Error, true)
  }

  class SessionStore {
    const gateway: Gateway
    var user: Option<User>
    var storedUser: Option<User>
    var storedToken: Option<string>
    var alert: Alert
    var nav: Option<Destination>

    /** A user in memory is always the persisted one, and a token is persisted beside it. */
    ghost predicate Valid()
      reads this
    {
      user.Some? ==> user == storedUser && storedToken.Some?
    }

    /** The persisted user and token are both present or both absent. */
    ghost predicate Paired()
      reads this
    {
      storedUser.Some? <==> storedToken.Some?
    }

    /** The signed-in state that a successful login or verification leaves. */
    ghost predicate SignedIn(u: User, token: string)
      reads this
    {
      user == Some(u) && storedUser == Some(u) && storedToken == Some(token)
    }

    /** The provider mounts with no user, over whatever the browser has persisted. */
    constructor (gateway: Gateway, savedUser: Option<User>, savedToken: Option<string>)
      ensures Valid()
      ensures this.gateway == gateway
      ensures user == None && storedUser == savedUser && storedToken == savedToken
      ensures alert == ClosedAlert && nav == None
    {
      this.gateway := gateway;
      user := None;
      storedUser := savedUser;
      storedToken := savedToken;
      alert := ClosedAlert;
      nav := None;
    }

    /** The mount effect, run once while no user is set: restore the user from storage, without contacting the gateway. */
    method Load()
      requires Valid() && user == None
      modifies this`user
      ensures Valid()
      ensures user == RestoredUser(storedUser, storedToken)
    {
      if storedUser.Some? && storedToken.Some? && storedToken.value != "" {
        user := storedUser;
      }
    }

    method ShowAlert(message: string, severity: Severity)
      modifies this`alert
      ensures alert == Alert(message, severity, true)
    {
      alert := Alert(message, severity, true);
    }

    /** Hides the snackbar and keeps its message and severity. */
    method HandleCloseAlert()
      modifies this`alert
      ensures alert == old(alert).(open := false)
    {
      alert := alert.(open := false);
    }

    /**
     * The common body of `verify` and `login`: send the request; on a user and token, set the user,
     * persist both, show the success alert and go to the dashboard; otherwise show the gateway's message
     * (or the fallback) as an error and raise it, leaving the session as it was.
     */
    method Authenticate(request: Request, reply: AuthReply, succeeded: string, fallback: string)
      returns (r: Outcome)
      requires Valid()
      modifies this, gateway
      ensures Valid()
      ensures gateway.sent == old(gateway.sent) + [request]
      ensures reply.Authenticated? ==>
        && r == Pass && SignedIn(reply.user, reply.token) && Paired()
        && alert == Alert(succeeded, Success, true) && nav == Some(ToDashboard)
      ensures reply.AuthRejected? ==>
        && r == Fail(MessageOr(reply.reason, fallback))
        && alert == Alert(MessageOr(reply.reason, fallback), Error, true)
        && user == old(user) && storedUser == old(storedUser) && storedToken == old(storedToken)
        && nav == old(nav)
    {
      gateway.Post(request);
      match reply
      case Authenticated(u, token) =>
        user := Some(u);
        storedUser := Some(u);
        storedToken := Some(token);
        ShowAlert(succeeded, Success);
        nav := Some(ToDashboard);
        r := Pass;
      case AuthRejected(reason) =>
        var message := MessageOr(reason, fallback);
        ShowAlert(message, Error);
        r := Fail(message);
    }

    /** Confirms a signup OTP; on success the user is signed in exactly as by `Login`. */
    method Verify(email: string, otp: string, reply: AuthReply) returns (r: Outcome)
      requires Valid()
      modifies this, gateway
      ensures Valid()
      ensures gateway.sent == old(gateway.sent) + [VerifyOtpRequest(email, otp)]
      ensures reply.Authenticated? ==>
        && r == Pass && SignedIn(reply.user, reply.token) && Paired()
        && alert == Alert(VerifySucceeded, Success, true) && nav == Some(ToDashboard)
      ensures reply.AuthRejected? ==>
        && r == Fail(MessageOr(reply.reason, VerifyFallback))
        && alert == Alert(MessageOr(reply.reason, VerifyFallback), Error, true)
        && user == old(user) && storedUser == old(storedUser) && storedToken == old(storedToken)
        && nav == old(nav)
    {
      r := Authenticate(VerifyOtpRequest(email, otp), reply, VerifySucceeded, VerifyFallback);
    }

    /** Signs in with a username and password. */
    method Login(username: string, password: string, reply: AuthReply) returns (r: Outcome)
      requires Valid()
      modifies this, gateway
      ensures Valid()
      ensures gateway.sent == old(gateway.sent) + [LoginRequest(username, password)]
      ensures reply.Authenticated? ==>
        && r == Pass && SignedIn(reply.user, reply.token) && Paired()
        && alert == Alert(LoginSucceeded, Success, true) && nav == Some(ToDashboard)
      ensures reply.AuthRejected? ==>
        && r == Fail(MessageOr(reply.reason, LoginFallback))
        && alert == Alert(MessageOr(reply.reason, LoginFallback), Error, true)
        && user == old(user) && storedUser == old(storedUser) && storedToken == old(storedToken)
        && nav == old(nav)
    {
      r := Authenticate(LoginRequest(username, password), reply, LoginSucceeded, LoginFallback);
    }

    /**
     * Signs up. The session is never touched and nothing navigates. An answer with `success` shows
     * "OTP sent"; an answer without it shows the gateway's message as a warning and does NOT raise;
     * only a failed call raises.
     */
    method Register(name: string, email: string, username: string, password: string, reply: SignupReply)
      returns (r: Outcome)
      requires Valid()
      modifies this, gateway
      ensures Valid()
      ensures gateway.sent == old(gateway.sent) + [SignupRequest(name, email, username, password)]
      ensures user == old(user) && storedUser == old(storedUser) && storedToken == old(storedToken)
      ensures nav == old(nav)
      ensures r == (if reply.SignupRejected? then Fail(MessageOr(reply.reason, RegisterFallback)) else Pass)
      ensures alert == SignupAlert(reply)
    {
      gateway.Post(SignupRequest(name, email, username, password));
      match reply
      case SignupAnswered(success, message) =>
        if success {
          ShowAlert(OtpSent, Info);
        } else {
          ShowAlert(message, Warning);
        }
        r := Pass;
      case SignupRejected(reason) =>
        var message := MessageOr(reason, RegisterFallback);
        ShowAlert(message, Error);
        r := Fail(message);
    }

    /** Signs out unconditionally: no user, neither entry persisted, an info alert, and a request for the login page. */
    method Logout()
      modifies this
      ensures Valid() && Paired()
      ensures user == None && storedUser == None && storedToken == None
      ensures alert == Alert(LoggedOut, Info, true) && nav == Some(ToLogin)
    {
      user := None;
      storedUser := None;
      storedToken := None;
      ShowAlert(LoggedOut, Info);
      nav := Some(ToLogin);
    }
  }
}
