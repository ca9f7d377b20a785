/** The OTP page reached from signup: it needs the email carried in the navigation state, then confirms the OTP. */
module OtpVerification {

  import opened Common
  import opened Api
  import opened AuthContext

  const EnterOtp := "Please enter the OTP!"
  const OtpVerified := "OTP Verified Successfully! \U{2705}"
  const VerificationFailed := "Verification failed! Please try again."

  /** Whether the navigation state carries a (truthy) email. */
  predicate HasEmail(email: Option<string>)
  {
    email.Some? && email.value != ""
  }

  class OtpVerificationPage {
    const store: SessionStore
    const email: Option<string>
    var error: string
    var success: string
    var loading: bool
    var nav: Option<Destination>
    /** The navigation a timer will issue later. */
    var pending: Option<Destination>

    /** Mounting runs the redirect effect: without an email the page asks for the login page at once. */
    constructor (store: SessionStore, email: Option<string>)
      ensures this.store == store && this.email == email
      ensures error == "" && success == "" && !loading && pending == None
      ensures nav == if HasEmail(email) then None else Some(ToLogin)
    {
      this.store := store;
      this.email := email;
      error := "";
      success := "";
      loading := false;
      pending := None;
      nav := if HasEmail(email) then None else Some(ToLogin);
    }

    /** The verify button is disabled while a submission is loading. */
    predicate CanSubmit()
      reads this
    {
      !loading
    }

    /**
     * Submit with the OTP as typed, reachable only once the page has an email: clear both messages; an
     * empty OTP is an error with no request; otherwise verify the context email with the entered OTP and show either the
     * confirmation (with a delayed trip to the dashboard) or a fixed failure text that ignores the
     * gateway's message. Loading is off afterwards.
     */
    method HandleSubmit(otp: string, reply: AuthReply)
      requires HasEmail(email) && store.Valid()
      modifies this, store, store.gateway
      ensures store.Valid() && (old(store.Paired()) ==> store.Paired()) && CanSubmit() && nav == old(nav)
      ensures otp == "" ==>
        && error == EnterOtp && success == ""
        && store.gateway.sent == old(store.gateway.sent)
        && store.user == old(store.user) && store.storedUser == old(store.storedUser)
        && store.storedToken == old(store.storedToken)
        && store.alert == old(store.alert) && store.nav == old(store.nav)
        && pending == old(pending)
      ensures otp != "" ==>
        && store.gateway.sent == old(store.gateway.sent) + [VerifyOtpRequest(email.value, otp)]
        && if reply.Authenticated? then
             && error == "" && success == OtpVerified && pending == Some(ToDashboard)
             && store.SignedIn(reply.user, reply.token) && store.nav == Some(ToDashboard)
             && store.alert == Alert(VerifySucceeded, Success, true)
           else
             && error == VerificationFailed && success == "" && pending == old(pending)
             && store.alert == Alert(MessageOr(reply.reason, VerifyFallback), Error, true)
             && store.user == old(store.user) && store.storedUser == old(store.storedUser)
             && store.storedToken == old(store.storedToken) && store.nav == old(store.nav)
    {
      error := "";
      success := "";
      loading := true;
      if otp == "" {
        error := EnterOtp;
        loading := false;
        return;
      }
      var r := store.Verify(email.value, otp, reply);
      if r.Pass? {
        success := OtpVerified;
        pending := Some(ToDashboard);
      } else {
        error := VerificationFailed;
      }
      loading := false;
    }
  }
}
