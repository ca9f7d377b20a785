/**
 * Phase B of password reset: confirm the OTP with a new password, resend the OTP, and the resend
 * cooldown that a one-second interval counts down.
 */
module ResetPassword {

  import opened Common
  import opened Api
  import opened PasswordPolicy
  import opened Validation

  const AllRequired := "All fields are required."
  const PasswordsDiffer := "Passwords do not match."
  const ResetSucceeded := "Password reset successful. Redirecting to login..."
  const ResetFallback := "Failed to reset password. Try again."
  const OtpResent := "OTP resent successfully."
  const ResendFailed := "Failed to resend OTP. Please try again."

  /** Seconds the resend button stays disabled after a successful resend. */
  const ResendSeconds := 120

  /** The page's checks in the order it runs them: all fields filled, policy, passwords equal. */
  function ResetChecks(otp: string, newPassword: string, confirmPassword: string): (cs: seq<Check>)
  {
    [ Check(otp != "" && newPassword != "" && confirmPassword != "", AllRequired),
      Check(Accepts(newPassword), PolicyMessage),
      Check(newPassword == confirmPassword, PasswordsDiffer) ]
  }

  /** The validation error the page shows before any request, if any. */
  function ResetError(otp: string, newPassword: string, confirmPassword: string): (e: Option<string>)
  {
    FirstFailure(ResetChecks(otp, newPassword, confirmPassword))
  }

  /** Validation passes exactly when every field is filled, the policy holds and the passwords agree. */
  lemma ResetPassesIff(otp: string, newPassword: string, confirmPassword: string)
    ensures ResetError(otp, newPassword, confirmPassword) == None <==>
      otp != "" && newPassword != "" && confirmPassword != "" && Satisfies(newPassword) && newPassword == confirmPassword
  {
    AcceptsIffSatisfies(newPassword);
    var cs := ResetChecks(otp, newPassword, confirmPassword);
    assert (forall i :: 0 <= i < |cs| ==> cs[i].passes) <==> cs[0].passes && cs[1].passes && cs[2].passes;
  }

  /** The first failing check decides the message: empty fields, then the policy, then a mismatch. */
  lemma ResetErrorOrder(otp: string, newPassword: string, confirmPassword: string)
    ensures (otp == "" || newPassword == "" || confirmPassword == "")
              ==> ResetError(otp, newPassword, confirmPassword) == Some(AllRequired)
    ensures (otp != "" && newPassword != "" && confirmPassword != "" && !Satisfies(newPassword))
              ==> ResetError(otp, newPassword, confirmPassword) == Some(PolicyMessage)
    ensures (otp != "" && newPassword != "" && confirmPassword != "" && Satisfies(newPassword)
             && newPassword != confirmPassword) ==> ResetError(otp, newPassword, confirmPassword) == Some(PasswordsDiffer)
  {
    AcceptsIffSatisfies(newPassword);
    var cs := ResetChecks(otp, newPassword, confirmPassword);
    FirstFailureStep(cs);
    FirstFailureStep(cs[1..]);
    FirstFailureStep(cs[2..]);
  }

  /** The resend cooldown: seconds left, and whether the resend button is disabled. */
  datatype Cooldown = Cooldown(timer: nat, resendDisabled: bool)

  /** On mount the timer is 0 and the resend button is disabled. */
  const InitialCooldown := Cooldown(0, true)

  /** One interval tick, which runs only while the timer is positive: the last one re-enables resend. */
  function Tick(c: Cooldown): (d: Cooldown)
    requires c.timer > 0
    ensures d.timer == c.timer - 1
    ensures d.resendDisabled == (c.resendDisabled && d.timer > 0)
  {
    if c.timer <= 1 then Cooldown(0, false) else Cooldown(c.timer - 1, c.resendDisabled)
  }

  /** `k` ticks in a row, as long as the timer keeps them running. */
  function Ticks(c: Cooldown, k: nat): (d: Cooldown)
    requires k <= c.timer
    ensures d.timer == c.timer - k
    decreases k
  {
    if k == 0 then c else Ticks(Tick(c), k - 1)
  }

  /** After k > 0 of the timer's ticks, k seconds are gone and resend is enabled exactly when all have run. */
  lemma {:induction false} TicksCountDown(c: Cooldown, k: nat)
    requires k <= c.timer
    ensures Ticks(c, k) == if k == 0 then c else Cooldown(c.timer - k, c.resendDisabled && k < c.timer)
    decreases k
  {
    if k > 0 {
      TicksCountDown(Tick(c), k - 1);
    }
  }

  /** From a fresh resend, exactly 120 ticks re-enable the button; every earlier count leaves it disabled. */
  lemma ReenabledAfterFullCountdown()
    ensures Ticks(Cooldown(ResendSeconds, true), ResendSeconds) == Cooldown(0, false)
    ensures forall k :: 0 <= k < ResendSeconds ==> Ticks(Cooldown(ResendSeconds, true), k).resendDisabled
  {
    TicksCountDown(Cooldown(ResendSeconds, true), ResendSeconds);
    forall k | 0 <= k < ResendSeconds
      ensures Ticks(Cooldown(ResendSeconds, true), k).resendDisabled
    {
      TicksCountDown(Cooldown(ResendSeconds, true), k);
    }
  }

  /** What can happen to the cooldown on the page: a submit, an interval tick, or a click on resend. */
  datatype Event = Submitted | Ticked | ResendClicked(succeeds: bool)

  /**
   * The cooldown after one event. A tick happens only while an interval exists, that is while the timer
   * is positive; a click reaches the handler only while the button is enabled.
   */
  function Step(c: Cooldown, e: Event): (d: Cooldown)
  {
    match e
    case Submitted => c
    case Ticked => if c.timer > 0 then Tick(c) else c
    case ResendClicked(succeeds) =>
      if c.resendDisabled then c else if succeeds then Cooldown(ResendSeconds, true) else c
  }

  /** The cooldown after a sequence of events, in order. */
  function Run(c: Cooldown, events: seq<Event>): (d: Cooldown)
    decreases |events|
  {
    if events == [] then c else Run(Step(c, events[0]), events[1..])
  }

  /** While seconds remain the button is disabled. */
  ghost predicate Coherent(c: Cooldown)
  {
    c.timer > 0 ==> c.resendDisabled
  }

  /** Every sequence of events keeps a coherent cooldown coherent: resend is enabled only at 0 seconds. */
  lemma {:induction false} RunStaysCoherent(c: Cooldown, events: seq<Event>)
    requires Coherent(c)
    ensures Coherent(Run(c, events))
    decreases |events|
  {
    if events != [] {
      RunStaysCoherent(Step(c, events[0]), events[1..]);
    }
  }

  /**
   * From the mounted state nothing ever enables resend: no interval runs at 0 seconds and the disabled
   * button cannot be clicked, so the page never offers a resend.
   */
  lemma {:induction false} NeverEnabledFromMount(events: seq<Event>)
    ensures Run(InitialCooldown, events) == InitialCooldown
  {
    if events != [] {
      assert Step(InitialCooldown, events[0]) == InitialCooldown;
      NeverEnabledFromMount(events[1..]);
    }
  }

  class ResetPasswordPage {
    const gateway: Gateway
    /** The email from the navigation state, or "" when there is none. */
    const email: string
    var message: string
    var error: string
    var timer: nat
    var isResendDisabled: bool
    var nav: Option<Destination>
    /** The navigation a timer will issue later. */
    var pending: Option<Destination>

    /** The page's cooldown, as the value `Step` works on. */
    function CooldownState(): (c: Cooldown)
      reads this
    {
      Cooldown(timer, isResendDisabled)
    }

    /** Mounting runs the redirect effect: without an email the page sends the user back to phase A. */
    constructor (gateway: Gateway, email: string)
      ensures this.gateway == gateway && this.email == email
      ensures message == "" && error == "" && CooldownState() == InitialCooldown && pending == None
      ensures nav == if email == "" then Some(ToResetRequest) else None
    {
      this.gateway := gateway;
      this.email := email;
      message := "";
      error := "";
      timer := 0;
      isResendDisabled := true;
      pending := None;
      nav := if email == "" then Some(ToResetRequest) else None;
    }

    /** The resend button is disabled while `isResendDisabled` holds. */
    predicate CanResend()
      reads this
    {
      !isResendDisabled
    }

    /**
     * Submit: clear both messages and validate; a validation error is shown with no request. Otherwise
     * confirm (email, otp, new password): on success show the confirmation and schedule the login page,
     * on failure show the gateway's `error` text or the fallback. The cooldown is never touched.
     */
    method HandleVerifyOtp(otp: string, newPassword: string, confirmPassword: string, reply: AckReply)
      modifies this, gateway
      ensures CooldownState() == old(CooldownState()) == Step(old(CooldownState()), Submitted) && nav == old(nav)
      ensures ResetError(otp, newPassword, confirmPassword).Some? ==>
        && error == ResetError(otp, newPassword, confirmPassword).value && message == ""
        && gateway.sent == old(gateway.sent) && pending == old(pending)
      ensures ResetError(otp, newPassword, confirmPassword).None? ==>
        && gateway.sent == old(gateway.sent) + [VerifyResetOtpRequest(email, otp, newPassword)]
        && if reply.Acknowledged? then
             message == ResetSucceeded && error == "" && pending == Some(ToLogin)
           else
             message == "" && error == MessageOr(reply.error, ResetFallback) && pending == old(pending)
    {
      error := "";
      message := "";
      var invalid := ResetError(otp, newPassword, confirmPassword);
      if invalid.Some? {
        error := invalid.value;
        return;
      }
      gateway.Post(VerifyResetOtpRequest(email, otp, newPassword));
      match reply
      case Acknowledged =>
        message := ResetSucceeded;
        pending := Some(ToLogin);
      case AckRejected(e) =>
        error := MessageOr(e, ResetFallback);
    }

    /**
     * Resend: clear both messages and request a new OTP for the page's email. Success shows the
     * confirmation and restarts the cooldown at 120 seconds with the button disabled; failure shows a
     * fixed text and leaves the cooldown exactly as it was.
     */
    method HandleResendOtp(reply: AckReply)
      modifies this, gateway
      ensures gateway.sent == old(gateway.sent) + [ResetOtpRequest(email)]
      ensures nav == old(nav) && pending == old(pending)
      ensures reply.Acknowledged? ==>
        message == OtpResent && error == "" && CooldownState() == Cooldown(ResendSeconds, true) && !CanResend()
      ensures reply.AckRejected? ==>
        message == "" && error == ResendFailed && CooldownState() == old(CooldownState())
    {
      error := "";
      message := "";
      gateway.Post(ResetOtpRequest(email));
      match reply
      case Acknowledged =>
        message := OtpResent;
        isResendDisabled := true;
        timer := ResendSeconds;
      case AckRejected(_) =>
        error := ResendFailed;
    }

    /**
     * A click on the resend button: while the button is disabled the click does nothing and no request
     * is sent; otherwise it runs the resend handler. Either way the cooldown moves as `Step` says.
     */
    method ClickResend(reply: AckReply)
      modifies this, gateway
      ensures CooldownState() == Step(old(CooldownState()), ResendClicked(reply.Acknowledged?))
      ensures nav == old(nav) && pending == old(pending)
      ensures !old(CanResend()) ==>
        gateway.sent == old(gateway.sent) && message == old(message) && error == old(error)
      ensures old(CanResend()) ==> gateway.sent == old(gateway.sent) + [ResetOtpRequest(email)]
      ensures old(CanResend()) && reply.Acknowledged? ==> message == OtpResent && error == ""
      ensures old(CanResend()) && reply.AckRejected? ==> message == "" && error == ResendFailed
    {
      if isResendDisabled {
        return;
      }
      HandleResendOtp(reply);
    }

    /** One interval callback; an interval exists only while the timer is positive. */
    method IntervalTick()
      requires timer > 0
      modifies this`timer, this`isResendDisabled
      ensures CooldownState() == Tick(old(CooldownState())) == Step(old(CooldownState()), Ticked)
    {
      if timer <= 1 {
        isResendDisabled := false;
        timer := 0;
      } else {
        timer := timer - 1;
      }
    }
  }
}
