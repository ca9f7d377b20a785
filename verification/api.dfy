/**
 * The remote authentication service as the client sees it. Transport, headers and the bearer-token
 * interceptor are not modelled: a gateway only records the requests it is sent, and the reply to each
 * request is an input of the handler that sends it.
 */
module Api {

  import opened Common

  /** The identity record the service returns with a token; stored and restored as an opaque value. */
  datatype User = User(id: string, username: string, name: string, email: string)

  datatype Request =
    | SignupRequest(name: string, email: string, username: string, password: string)  // POST /api/auth/signup
    | VerifyOtpRequest(email: string, otp: string)                                     // POST /api/auth/verifyOTP
    | LoginRequest(username: string, password: string)                                 // POST /api/auth/login
    | ResetOtpRequest(email: string)                                                   // POST /api/auth/resetOTP
    | VerifyResetOtpRequest(email: string, otp: string, newPassword: string)           // POST /api/auth/verifyResetOTP

  /**
   * Reply to login and verifyOTP. A response without `userDetails` makes the destructuring throw with no
   * response attached, which is `AuthRejected(None)`.
   */
  datatype AuthReply = Authenticated(user: User, token: string) | AuthRejected(reason: Option<string>)

  /** Reply to signup: an answer carrying `success` and `message`, or a failed call with an optional message. */
  datatype SignupReply = SignupAnswered(success: bool, message: string) | SignupRejected(reason: Option<string>)

  /** Reply to resetOTP and verifyResetOTP: an acknowledgement, or a failed call with an optional `error` field. */
  datatype AckReply = Acknowledged | AckRejected(error: Option<string>)

  /** The shared HTTP client, reduced to the log of requests it has sent. */
  class Gateway {
    var sent: seq<Request>

    constructor ()
      ensures sent == []
    {
      sent := [];
    }

    method Post(request: Request)
      modifies this
      ensures sent == old(sent) + [request]
    {
      sent := sent + [request];
    }
  }
}
