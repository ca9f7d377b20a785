/** The login page: an empty-field check, then login through the session store. */
module Login {

  import opened Common
  import opened Api
  import opened AuthContext

  const FillAllFields := "Please fill in all fields."
  const InvalidCredentials := "Invalid username or password."

  class LoginPage {
    const store: SessionStore
    var error: string
    var loading: bool

    constructor (store: SessionStore)
      ensures this.store == store && error == "" && !loading
    {
      this.store := store;
      error := "";
      loading := false;
    }

    /** Inputs and the login button are disabled while loading. */
    predicate CanSubmit()
      reads this
    {
      !loading
    }

    /**
     * Submit. A previous error is not cleared. An empty field is an error with no request and no change
     * to loading. Otherwise loading turns on and login is called with the fields exactly as typed; only a
     * failure turns loading off again, with a fixed text in place of the gateway's message, so after a
     * success the form stays disabled.
     */
    method HandleSubmit(username: string, password: string, reply: AuthReply)
      requires store.Valid()
      modifies this, store, store.gateway
      ensures store.Valid() && (old(store.Paired()) ==> store.Paired())
      ensures username == "" || password == "" ==>
        && error == FillAllFields && loading == old(loading)
        && store.gateway.sent == old(store.gateway.sent)
        && store.user == old(store.user) && store.storedUser == old(store.storedUser)
        && store.storedToken == old(store.storedToken)
        && store.alert == old(store.alert) && store.nav == old(store.nav)
      ensures username != "" && password != "" ==>
        && store.gateway.sent == old(store.gateway.sent) + [LoginRequest(username, password)]
        && if reply.Authenticated? then
             && error == old(error) && loading && !CanSubmit()
             && store.SignedIn(reply.user, reply.token) && store.nav == Some(ToDashboard)
             && store.alert == Alert(LoginSucceeded, Success, true)
           else
             && error == InvalidCredentials && !loading
             && store.alert == Alert(MessageOr(reply.reason, LoginFallback), Error, true)
             && store.user == old(store.user) && store.storedUser == old(store.storedUser)
             && store.storedToken == old(store.storedToken) && store.nav == old(store.nav)
    {
      if username == "" || password == "" {
        error := FillAllFields;
        return;
      }
      loading := true;
      var r := store.Login(username, password, reply);
      if r.Fail? {
        error := InvalidCredentials;
        loading := false;
      }
    }
  }
}
