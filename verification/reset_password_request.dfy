/** Phase A of password reset: ask the service to email an OTP, then move on to phase B with the email. */
module ResetPasswordRequest {

  import opened Common
  import opened Api

  const EnterEmail := "Please enter your email."
  const OtpSentRedirecting := "OTP sent successfully. Redirecting..."
  const SendFallback := "Failed to send OTP. Please try again."

  class ResetPasswordRequestPage {
    const gateway: Gateway
    var message: string
    var error: string
    var loading: bool
    /** The navigation a timer will issue later. */
    var pending: Option<Destination>

    constructor (gateway: Gateway)
      ensures this.gateway == gateway && message == "" && error == "" && !loading && pending == None
    {
      this.gateway := gateway;
      message := "";
      error := "";
      loading := false;
      pending := None;
    }

    /** The email field and the send button are disabled while loading. */
    predicate CanSend()
      reads this
    {
      !loading
    }

    /**
     * Send: clear both messages; an empty email is an error with no request. Otherwise request an OTP:
     * on success show the confirmation, keep loading on and schedule the reset page with the email; on
     * failure show the gateway's `error` text (or the fallback) and turn loading off, so the page can
     * send again at once.
     */
    method HandleSendOtp(email: string, reply: AckReply)
      modifies this, gateway
      ensures email == "" ==>
        && error == EnterEmail && message == "" && CanSend()
        && gateway.sent == old(gateway.sent) && pending == old(pending)
      ensures email != "" ==>
        && gateway.sent == old(gateway.sent) + [ResetOtpRequest(email)]
        && if reply.Acknowledged? then
             && message == OtpSentRedirecting && error == "" && !CanSend()
             && pending == Some(ToResetPassword(email))
           else
             && message == "" && error == MessageOr(reply.error, SendFallback) && CanSend()
             && pending == old(pending)
    {
      message := "";
      error := "";
      loading := true;
      if email == "" {
        error := EnterEmail;
        loading := false;
        return;
      }
      gateway.Post(ResetOtpRequest(email));
      match reply
      case Acknowledged =>
        message := OtpSentRedirecting;
        pending := Some(ToResetPassword(email));
      case AckRejected(e) =>
        error := MessageOr(e, SendFallback);
        loading := false;
    }
  }
}
