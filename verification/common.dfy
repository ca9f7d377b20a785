/** Values shared by the session store, the form pages and the route guard. */
module Common {

  datatype Option<+T> = None | Some(value: T)

  /** How an awaited handler ends: normally, or by raising an error that carries a message. */
  datatype Outcome = Pass | Fail(message: string)

  /** The destinations a flow may ask the router for, with the email carried as navigation state. */
  datatype Destination =
    | ToLogin                        // "/login"
    | ToDashboard                    // "/dashboard"
    | ToVerification(email: string)  // "/verification", state { email }
    | ToResetRequest                 // "/reset-request"
    | ToResetPassword(email: string) // "/reset-password", state { email }

  /** JavaScript's `text || fallback` for a text the gateway may omit: an absent or empty text is falsy. */
  function MessageOr(text: Option<string>, fallback: string): (r: string)
    ensures text.Some? && text.value != "" ==> r == text.value
    ensures !(text.Some? && text.value != "") ==> r == fallback
    ensures fallback != "" ==> r != ""
  {
    if text.Some? && text.value != "" then text.value else fallback
  }
}
