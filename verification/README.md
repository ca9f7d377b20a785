# Authentication and session logic of the to-do client, modelled in Dafny

This project models the authentication and session part of a React client for a task-management service,
with rendering and HTTP stripped away. What remains is a set of small sequential state machines:

- **Session store** (`AuthContext`, class `SessionStore`). It holds the in-memory `user`, the two persisted
  entries `"user"` and `"token"`, the global snackbar alert and the last navigation it requested. Its
  operations are `load` (on mount), `login`, `verify`, `register`, `logout`, `showAlert` and
  `handleCloseAlert`.
- **Form pages**, one class each, with the page's own fields and one method per handler:
  - signup (`Registration`), with ordered validation, trimming, and hand-off of the email to verification;
  - OTP verification (`OtpVerification`);
  - login (`Login`);
  - password reset phase A (`ResetPasswordRequest`);
  - password reset phase B (`ResetPassword`), with validation, confirm, resend and the countdown tick.
- **Password policy** (`PasswordPolicy`). The regular expression shared by the signup and reset pages,
  written as a character-class predicate and proved equal to a direct statement of the policy.
- **Route guard** (`ProtectRoute`). A pure decision on whether a user is present.

The remote service is a parameter. Each handler receives the reply the service would give, such as
`Authenticated(user, token)` or `AuthRejected(reason)`. A `Gateway` object records every request sent, so
"no request was made" is stated as "the gateway's log is unchanged". A thrown error becomes an `Outcome`
(`Pass` or `Fail(message)`). A navigation scheduled with `setTimeout` becomes a `pending` field. The interval
callback of the reset page becomes the method `IntervalTick`. The `disabled` attribute of a button becomes a
predicate (`CanSubmit`, `CanSend`, `CanResend`) that the handlers' contracts speak about.

Behaviour of the code that the model keeps, and proves:

- The two pages validate in different orders. The signup page checks the match before the policy; the reset
  page checks the policy first. So with "Abc12345" and "Abc12346" the reset page reports the policy message,
  not "Passwords do not match.", because "Abc12345" has no symbol (`Scenarios.ResetReportsPolicyBeforeMismatch`).
- `register` raises only when the call itself fails. A reply with `success=false` only shows a warning, so
  the signup page still navigates to verification (`Scenarios.UnsuccessfulSignupStillNavigates`).
- Fields are checked for emptiness before trimming. Any non-empty name made only of whitespace passes
  validation and is sent as "" (`Registration.BlankNamePassesAsEmpty`).
- The reset page mounts with `timer = 0` and the resend button disabled. No interval runs at 0, so resend is
  never offered from the mounted state (`ResetPassword.NeverEnabledFromMount`).
- A login whose token is the empty string is persisted, but loading treats it as absent, so it does not
  survive a restart (`Scenarios.LoginThenRestart`).
- After a successful login the login page keeps `loading` on, so its form stays disabled.

## Model

| member | source | states |
|---|---|---|
| `Common.MessageOr` | src/context/AuthContext.jsx:43-44 | `text \|\| fallback`: the gateway text when present and non-empty, else the fallback; never empty when the fallback is not |
| `Text.Trim` | src/pages/registration.jsx:42 | the trimmed string is the slice of the input after its leading spaces, its ends are not spaces, everything cut off is space, and it is empty iff the input is all spaces |
| `Text.TrimIdempotent` | src/pages/registration.jsx:42 | trimming twice equals trimming once |
| `Text.Unpadded` | src/pages/registration.jsx:42 | a string whose ends are not spaces is its own trim |
| `PasswordPolicy.ClassifyMeans` | src/pages/registration.jsx:23 | each flag of the one-pass classification holds iff some character of that class occurs (or, for `onlyAllowed`, every character is allowed) |
| `PasswordPolicy.AcceptsIffSatisfies` | src/pages/resetPassword.jsx:19 | the policy accepts exactly the strings of length at least 5 over `A-Za-z0-9@$!%*?&` with a lower-case letter, an upper-case letter, a digit and a symbol |
| `PasswordPolicy.RejectsWithoutSymbol` | src/pages/resetPassword.jsx:19 | "Abc12345" is rejected |
| `PasswordPolicy.AcceptsExamples` | src/pages/registration.jsx:23 | "P@ssw0rd!" and "P@ssw0rd1" are accepted |
| `PasswordPolicy.RejectsShort` | src/pages/registration.jsx:23 | a four-character password is rejected even with every class present |
| `Validation.FirstFailingIndex` | src/pages/registration.jsx:25-39 | the index of the first failing check: all earlier checks pass, and the check at the index fails |
| `Validation.FirstFailure` | src/pages/resetPassword.jsx:49-62 | a chain reports nothing iff every check passes, else the message of a failing check that all earlier checks pass |
| `Validation.FirstFailureStep` | src/pages/registration.jsx:25-39 | a failing first check decides the message; a passing one defers to the rest |
| `AuthContext.RestoredUser` | src/context/AuthContext.jsx:11-18 | loading restores a user iff both entries are present and the token is non-empty, and then it restores the stored record |
| `AuthContext.SignupAlert` | src/context/AuthContext.jsx:53-59 | the signup alert is an error iff the call failed, carrying the gateway message or "Registration failed"; `success=true` gives the "OTP sent" info alert; `success=false` gives a warning with the service's message |
| `AuthContext.SessionStore.constructor` | src/context/AuthContext.jsx:7-9 | the provider mounts with no user, a closed alert, and storage as the browser kept it |
| `AuthContext.SessionStore.Load` | src/context/AuthContext.jsx:11-18 | the mount effect sets the user to the restored one and touches nothing else, with no request |
| `AuthContext.SessionStore.ShowAlert` | src/context/AuthContext.jsx:20-22 | the alert becomes the given message and severity, open |
| `AuthContext.SessionStore.HandleCloseAlert` | src/context/AuthContext.jsx:24-26 | only `open` becomes false; message and severity are kept |
| `AuthContext.SessionStore.Authenticate` | src/context/AuthContext.jsx:65-82 | on a user and token the session is set and persisted as a pair, with a success alert and the dashboard; on failure the session and navigation are unchanged and the error alert carries the same text that is raised |
| `AuthContext.SessionStore.Verify` | src/context/AuthContext.jsx:29-45 | sends (email, otp); success signs in with "OTP Verified Successfully!"; failure raises the gateway message or "Verification failed" and keeps the session |
| `AuthContext.SessionStore.Login` | src/context/AuthContext.jsx:65-82 | sends (username, password); success signs in with "Login successful!" and the dashboard; failure raises the gateway message or "Login failed" and keeps the session |
| `AuthContext.SessionStore.Register` | src/context/AuthContext.jsx:49-62 | sends the four fields and never changes the session or navigation; raises only when the call fails |
| `AuthContext.SessionStore.Logout` | src/context/AuthContext.jsx:86-93 | clears the user and both persisted entries, shows "Logged out successfully!" and requests the login page |
| `Registration.RegistrationPassesIff` | src/pages/registration.jsx:25-39 | signup validation passes iff all five fields are filled, the passwords agree and the policy holds |
| `Registration.RegistrationErrorOrder` | src/pages/registration.jsx:25-39 | an empty field wins over a mismatch, which wins over the policy |
| `Registration.BlankNamePassesAsEmpty` | src/pages/registration.jsx:25-42 | any non-empty all-whitespace name passes the empty check and trims to "" |
| `Registration.RegisterPage.constructor` | src/pages/registration.jsx:12-13 | the page mounts with no error, not loading, no navigation |
| `Registration.RegisterPage.HandleSubmit` | src/pages/registration.jsx:18-49 | a validation error is shown with no request; otherwise the trimmed name, email and username and the raw password are sent; a raise shows its message, otherwise the page goes to verification with the untrimmed email; loading is off on every path; the session is never touched |
| `OtpVerification.OtpVerificationPage.constructor` | src/pages/otpVerification.jsx:17-22 | without an email in the navigation state the page requests the login page at mount |
| `OtpVerification.OtpVerificationPage.HandleSubmit` | src/pages/otpVerification.jsx:24-49 | messages are cleared; an empty OTP is an error with no request; otherwise verify gets (context email, otp); success shows the confirmation, schedules the dashboard, signs the session in and raises the "OTP Verified Successfully!" alert; failure shows the fixed text whatever the gateway said, while the global alert carries the gateway's text, and leaves the session, its storage and the context navigation as they were; an empty OTP changes nothing in the session; loading is off afterwards |
| `Login.LoginPage.constructor` | src/pages/login.jsx:9-10 | the page mounts with no error and not loading |
| `Login.LoginPage.HandleSubmit` | src/pages/login.jsx:14-29 | an empty field is an error with no request and loading unchanged; otherwise login gets the fields as typed; success keeps the old error, leaves loading on (form disabled), signs the session in and raises the "Login successful!" alert; an empty field leaves the session and its storage untouched; failure leaves the session, its storage and the context navigation as they were and shows "Invalid username or password." in place of the gateway's text, which only the global alert shows, and turns loading off |
| `ResetPasswordRequest.ResetPasswordRequestPage.constructor` | src/pages/resetPasswordRequest.jsx:7-10 | the page mounts with empty messages and not loading |
| `ResetPasswordRequest.ResetPasswordRequestPage.HandleSendOtp` | src/pages/resetPasswordRequest.jsx:13-36 | messages are cleared; an empty email is an error with no request; success shows the confirmation, keeps loading on and schedules the reset page with the email; failure shows the gateway `error` text or the fallback and can be retried at once |
| `ResetPassword.ResetPassesIff` | src/pages/resetPassword.jsx:49-62 | reset validation passes iff all three fields are filled, the policy holds and the passwords agree |
| `ResetPassword.ResetErrorOrder` | src/pages/resetPassword.jsx:49-62 | an empty field wins over the policy, which wins over a mismatch |
| `ResetPassword.Tick` | src/pages/resetPassword.jsx:31-38 | a tick takes one second off and disables resend only while seconds remain; the last tick enables it |
| `ResetPassword.Ticks` | src/pages/resetPassword.jsx:27-42 | k ticks in a row, while the timer keeps them running, take exactly k seconds off |
| `ResetPassword.TicksCountDown` | src/pages/resetPassword.jsx:27-42 | after k > 0 ticks the timer is k lower and resend is enabled exactly when all seconds have run |
| `ResetPassword.ReenabledAfterFullCountdown` | src/pages/resetPassword.jsx:84-86 | from a fresh resend, exactly 120 ticks enable resend and every smaller count leaves it disabled |
| `ResetPassword.RunStaysCoherent` | src/pages/resetPassword.jsx:27-42 | under any sequence of submits, ticks and clicks, resend is enabled only when no seconds remain |
| `ResetPassword.NeverEnabledFromMount` | src/pages/resetPassword.jsx:16-17 | from the mounted state (0 seconds, disabled) no sequence of events ever changes the cooldown |
| `ResetPassword.ResetPasswordPage.constructor` | src/pages/resetPassword.jsx:9-25 | the page mounts with 0 seconds and resend disabled, and without an email it requests the reset-request page |
| `ResetPassword.ResetPasswordPage.HandleVerifyOtp` | src/pages/resetPassword.jsx:44-76 | messages are cleared; a validation error is shown with no request; otherwise (email, otp, new password) is sent; success schedules the login page; failure shows the gateway `error` text or the fallback; the cooldown never changes, which is `Step` on a submit event |
| `ResetPassword.ResetPasswordPage.HandleResendOtp` | src/pages/resetPassword.jsx:78-90 | sends the page's email; success restarts the cooldown at 120 seconds with resend disabled; failure shows the fixed text and leaves the cooldown exactly as it was |
| `ResetPassword.ResetPasswordPage.IntervalTick` | src/pages/resetPassword.jsx:30-39 | the interval callback moves the page's cooldown by one `Tick`, which is `Step` on a tick event |
| `ResetPassword.ResetPasswordPage.ClickResend` | src/pages/resetPassword.jsx:136-143 | a click on the disabled resend button sends nothing and changes no message; an enabled one sends the page's email and shows "OTP resent successfully." with no error on success, or no message and "Failed to resend OTP. Please try again." on failure; either way the cooldown moves as `Step` on a click event says |
| `ProtectRoute.ProtectedRoute` | src/protectRoute.jsx:5-20 | with no user the guard renders its children and requests nothing; with a user it renders nothing and requests the dashboard |
| `ProtectRoute.DecidesOnPresenceOnly` | src/protectRoute.jsx:10-15 | two sessions that both have, or both lack, a user get the same decision |
| `Scenarios.LoginThenRestart` | src/context/AuthContext.jsx:11-77 | a successful login survives a restart exactly when its token is non-empty, after one login request |
| `Scenarios.LogoutThenRestart` | src/context/AuthContext.jsx:86-93 | after logout and a restart there is no user and neither entry is persisted |
| `Scenarios.LogoutTwice` | src/context/AuthContext.jsx:86-93 | a second logout leaves the same state as the first |
| `Scenarios.FailedLoginKeepsSession` | src/context/AuthContext.jsx:79-82 | a failed login keeps the loaded session, raises a non-empty text, and the error alert shows that same text |
| `Scenarios.GuardFollowsSession` | src/protectRoute.jsx:9-19 | after a login the guard redirects to the dashboard and renders nothing; after a logout it renders its children |
| `Scenarios.VerificationWithoutEmail` | src/pages/otpVerification.jsx:17-22 | entering verification without an email requests the login page and sends nothing |
| `Scenarios.JaneFormPasses` | src/pages/registration.jsx:25-39 | Jane's signup form passes validation |
| `Scenarios.JaneFieldsUnpadded` | src/pages/registration.jsx:42 | trimming leaves Jane's name, email and username unchanged |
| `Scenarios.SignupHandsOffEmail` | src/pages/registration.jsx:41-43 | Jane's signup sends her fields and hands "jane@x.com" to verification |
| `Scenarios.UnsuccessfulSignupStillNavigates` | src/context/AuthContext.jsx:53-57 | a signup answered with `success=false` only warns, so the page shows no error and still goes to verification |
| `Scenarios.ResetReportsPolicyBeforeMismatch` | src/pages/resetPassword.jsx:54-62 | "Abc12345" vs "Abc12346": the reset page reports the policy and sends nothing; the signup page reports the mismatch |
| `Scenarios.ResendDisablesButton` | src/pages/resetPassword.jsx:82-86 | calling the resend handler directly (the mounted page's button is disabled): after success the button is disabled with 120 seconds left, after exactly one request |

## Left out

- HTTP transport (src/utils/axiosInstance.js): base URL, headers and the bearer-token interceptor. The gateway is a request log, and each reply is a handler input.
- JSON serialization of the user record. The stored user is the record itself, so a stored and restored user is the same value. A serialized record is never empty, so only the token's emptiness matters when loading.
- Timing. `setTimeout` delays become `pending` navigations. The 4-second snackbar auto-hide is not modelled; `HandleCloseAlert` is what it calls. The `setInterval` scheduling and `clearInterval` cleanup are runtime concerns, and only the tick's state update is modelled.
- Asynchrony and React's batching of state updates: each handler runs to completion in one step, with the reply known up front. Single-in-flight rests on the buttons' `disabled` attribute, modelled as predicates.
- Rendering: MUI components, field change handlers (the typed text is a handler argument), labels and `console.error`.
- `AuthContext.SessionStore.Load`: requires that no user is set yet, as at mount, where the effect runs once.
- `OtpVerification.OtpVerificationPage.HandleSubmit`: requires that the page has an email. Without one, the mount effect has already navigated away, so the form is never submitted.
- `ResetPassword.ResetPasswordPage.IntervalTick`: requires a positive timer, because the interval exists only while the timer is positive.
- The require-authenticated guard is not part of this model. `PrivateRoute` is imported from a file that is not available (src/App.jsx:12).
- The sidebar calls `logout()` without a navigate function (src/components/sidebar.jsx:26). That call throws after the state changes; `Logout` models the call with a navigate function.
- `setUser` is exposed through the context but no core file calls it, so it is not modelled.
- Task pages and components (src/pages/todo.jsx, src/components/taskbox.jsx, src/components/addtask.jsx): task CRUD over HTTP and presentation.
- The regular-expression engine: the policy is a character-class predicate, and `\d` is the ASCII digits, as in a JavaScript regex.
