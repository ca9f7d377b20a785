/**
 * Short runs of the store, the pages and the guard over fresh objects, each ending in the state the
 * application promises after that run.
 */
module Scenarios {

  import opened Common
  import opened Api
  import opened Text
  import opened PasswordPolicy
  import opened AuthContext
  import Registration
  import OtpVerification
  import ResetPassword
  import ProtectRoute

  /**
   * A successful login, then a restart over what it persisted: the same user comes back, provided the
   * token the service issued is not empty (an empty token is stored but is falsy when loading).
   */
  method LoginThenRestart(savedUser: Option<User>, savedToken: Option<string>,
                          username: string, password: string, u: User, token: string)
    returns (restored: Option<User>, sent: seq<Request>)
    ensures restored == (if token != "" then Some(u) else None)
    ensures sent == [LoginRequest(username, password)]
  {
    var gateway := new Gateway();
    var store := new SessionStore(gateway, savedUser, savedToken);
    store.Load();
    var r := store.Login(username, password, Authenticated(u, token));
    var restarted := new SessionStore(gateway, store.storedUser, store.storedToken);
    restarted.Load();
    restored := restarted.user;
    sent := gateway.sent;
  }

  /** A logout, then a restart: no session comes back and neither entry is persisted, whatever was there. */
  method LogoutThenRestart(savedUser: Option<User>, savedToken: Option<string>)
    returns (restored: Option<User>, storedUser: Option<User>, storedToken: Option<string>)
    ensures restored == None && storedUser == None && storedToken == None
  {
    var gateway := new Gateway();
    var store := new SessionStore(gateway, savedUser, savedToken);
    store.Load();
    store.Logout();
    var restarted := new SessionStore(gateway, store.storedUser, store.storedToken);
    restarted.Load();
    restored, storedUser, storedToken := restarted.user, restarted.storedUser, restarted.storedToken;
  }

  /** Logging out twice leaves the same state as logging out once. */
  method LogoutTwice(savedUser: Option<User>, savedToken: Option<string>)
    returns (once: (Option<User>, Option<User>, Option<string>, Alert, Option<Destination>),
             twice: (Option<User>, Option<User>, Option<string>, Alert, Option<Destination>))
    ensures once == twice
    ensures once == (None, None, None, Alert(LoggedOut, Info, true), Some(ToLogin))
  {
    var gateway := new Gateway();
    var store := new SessionStore(gateway, savedUser, savedToken);
    store.Load();
    store.Logout();
    once := (store.user, store.storedUser, store.storedToken, store.alert, store.nav);
    store.Logout();
    twice := (store.user, store.storedUser, store.storedToken, store.alert, store.nav);
  }

  /** A failed login keeps the session that loading restored, and raises the text it alerts. */
  method FailedLoginKeepsSession(savedUser: Option<User>, savedToken: Option<string>, reason: Option<string>)
    returns (user: Option<User>, raised: Outcome, alert: Alert)
    ensures user == RestoredUser(savedUser, savedToken)
    ensures raised.Fail? && raised.message != ""
    ensures alert == Alert(raised.message, Error, true)
    ensures reason == None ==> raised == Fail(LoginFallback)
  {
    var gateway := new Gateway();
    var store := new SessionStore(gateway, savedUser, savedToken);
    store.Load();
    raised := store.Login("alice", "P@ssw0rd1", AuthRejected(reason));
    user, alert := store.user, store.alert;
  }

  /** The guard follows the session: a login makes it redirect to the dashboard, a logout brings the children back. */
  method GuardFollowsSession(u: User, token: string)
    returns (afterLogin: ProtectRoute.Decision, afterLogout: ProtectRoute.Decision)
    ensures afterLogin == ProtectRoute.Decision(ProtectRoute.Nothing, Some(ToDashboard))
    ensures afterLogout == ProtectRoute.Decision(ProtectRoute.Children, None)
  {
    var gateway := new Gateway();
    var store := new SessionStore(gateway, None, None);
    store.Load();
    var r := store.Login("alice", "P@ssw0rd1", Authenticated(u, token));
    afterLogin := ProtectRoute.ProtectedRoute(store.user);
    store.Logout();
    afterLogout := ProtectRoute.ProtectedRoute(store.user);
  }

  /** Entering verification without an email redirects to login and verifies nothing. */
  method VerificationWithoutEmail(email: Option<string>)
    returns (nav: Option<Destination>, sent: seq<Request>)
    requires !OtpVerification.HasEmail(email)
    ensures nav == Some(ToLogin) && sent == []
  {
    var gateway := new Gateway();
    var store := new SessionStore(gateway, None, None);
    store.Load();
    var page := new OtpVerification.OtpVerificationPage(store, email);
    nav, sent := page.nav, gateway.sent;
  }

  function JaneForm(): (f: Registration.SignupForm)
  {
    Registration.SignupForm("Jane Doe", "jane@x.com", "janed", "P@ssw0rd!", "P@ssw0rd!")
  }

  /** Jane's form passes validation. */
  lemma JaneFormPasses()
    ensures Registration.RegistrationError(JaneForm()) == None
  {
  }

  /** Trimming leaves Jane's fields as they are. */
  lemma JaneFieldsUnpadded()
    ensures Trim("Jane Doe") == "Jane Doe" && Trim("jane@x.com") == "jane@x.com" && Trim("janed") == "janed"
  {
    Unpadded("Jane Doe");
    Unpadded("jane@x.com");
    Unpadded("janed");
  }

  /** A successful signup of Jane hands her email, as typed, to the verification page. */
  method SignupHandsOffEmail(form: Registration.SignupForm)
    returns (nav: Option<Destination>, sent: seq<Request>)
    requires form == JaneForm()
    ensures nav == Some(ToVerification("jane@x.com"))
    ensures sent == [SignupRequest("Jane Doe", "jane@x.com", "janed", "P@ssw0rd!")]
  {
    var gateway := new Gateway();
    var store := new SessionStore(gateway, None, None);
    store.Load();
    var page := new Registration.RegisterPage(store);
    JaneFormPasses();
    JaneFieldsUnpadded();
    page.HandleSubmit(form, SignupAnswered(true, ""));
    nav, sent := page.nav, gateway.sent;
  }

  /**
   * A signup the service answers with success=false only warns and raises nothing, so the page still
   * goes to verification.
   */
  method UnsuccessfulSignupStillNavigates(form: Registration.SignupForm, message: string)
    returns (nav: Option<Destination>, error: string, alert: Alert)
    requires Registration.RegistrationError(form) == None
    ensures nav == Some(ToVerification(form.email)) && error == ""
    ensures alert == Alert(message, Warning, true)
  {
    var gateway := new Gateway();
    var store := new SessionStore(gateway, None, None);
    store.Load();
    var page := new Registration.RegisterPage(store);
    page.HandleSubmit(form, SignupAnswered(false, message));
    nav, error, alert := page.nav, page.error, store.alert;
  }

  /**
   * With "Abc12345" and "Abc12346" the reset page reports the policy, which it checks before the match,
   * and sends nothing; the signup page reports the mismatch for the same pair.
   */
  method ResetReportsPolicyBeforeMismatch(email: string)
    returns (resetError: string, sent: seq<Request>, signupError: Option<string>)
    ensures resetError == PolicyMessage && sent == []
    ensures signupError == Some(Registration.PasswordsDiffer)
  {
    var gateway := new Gateway();
    var page := new ResetPassword.ResetPasswordPage(gateway, email);
    RejectsWithoutSymbol();
    AcceptsIffSatisfies("Abc12345");
    ResetPassword.ResetErrorOrder("123456", "Abc12345", "Abc12346");
    page.HandleVerifyOtp("123456", "Abc12345", "Abc12346", Acknowledged);
    resetError, sent := page.error, gateway.sent;
    var form := Registration.SignupForm("Jane", "jane@x.com", "janed", "Abc12345", "Abc12346");
    Registration.RegistrationErrorOrder(form);
    signupError := Registration.RegistrationError(form);
  }

  /**
   * The resend handler called directly on a freshly mounted page (the mounted page's button is disabled,
   * so this run bypasses it): after a successful resend the button is disabled with 120 seconds left.
   */
  method ResendDisablesButton(email: string)
    returns (canResend: bool, sent: seq<Request>, timer: nat)
    ensures !canResend && timer == ResetPassword.ResendSeconds
    ensures sent == [ResetOtpRequest(email)]
  {
    var gateway := new Gateway();
    var page := new ResetPassword.ResetPasswordPage(gateway, email);
    page.HandleResendOtp(Acknowledged);
    canResend, sent, timer := page.CanResend(), gateway.sent, page.timer;
  }
}
