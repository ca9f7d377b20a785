/** The signup page: ordered local validation, then signup through the session store, then hand-off to verification. */
module Registration {

  import opened Common
  import opened Api
  import opened Text
  import opened PasswordPolicy
  import opened Validation
  import opened AuthContext

  const FillAllFields := "Please fill in all fields."
  const PasswordsDiffer := "Passwords do not match."
  const RegistrationFallback := "Registration failed."

  /** What the user typed into the five fields, as typed. */
  datatype SignupForm = SignupForm(name: string, email: string, username: string, password: string, confirmPassword: string)

  /** The page's checks in the order it runs them: all fields filled, passwords equal, policy. */
  function RegistrationChecks(f: SignupForm): (cs: seq<Check>)
  {
    [ Check(f.name != "" && f.email != "" && f.username != "" && f.password != "" && f.confirmPassword != "", FillAllFields),
      Check(f.password == f.confirmPassword, PasswordsDiffer),
      Check(Accepts(f.password), PolicyMessage) ]
  }

  /** The validation error the page shows before any request, if any. */
  function RegistrationError(f: SignupForm): (e: Option<string>)
  {
    FirstFailure(RegistrationChecks(f))
  }

  /** Validation passes exactly when every field is filled, the passwords agree and the policy holds. */
  lemma RegistrationPassesIff(f: SignupForm)
    ensures RegistrationError(f) == None <==>
      && f.name != "" && f.email != "" && f.username != "" && f.password != "" && f.confirmPassword != ""
      && f.password == f.confirmPassword && Satisfies(f.password)
  {
    AcceptsIffSatisfies(f.password);
    var cs := RegistrationChecks(f);
    assert (forall i :: 0 <= i < |cs| ==> cs[i].passes) <==> cs[0].passes && cs[1].passes && cs[2].passes;
  }

  /** The first failing check decides the message: empty fields, then a mismatch, then the policy. */
  lemma RegistrationErrorOrder(f: SignupForm)
    ensures (f.name == "" || f.email == "" || f.username == "" || f.password == "" || f.confirmPassword == "")
              ==> RegistrationError(f) == Some(FillAllFields)
    ensures (f.name != "" && f.email != "" && f.username != "" && f.password != "" && f.confirmPassword != ""
             && f.password != f.confirmPassword) ==> RegistrationError(f) == Some(PasswordsDiffer)
    ensures (f.name != "" && f.email != "" && f.username != "" && f.password != "" && f.confirmPassword != ""
             && f.password == f.confirmPassword && !Satisfies(f.password)) ==> RegistrationError(f) == Some(PolicyMessage)
  {
    AcceptsIffSatisfies(f.password);
    var cs := RegistrationChecks(f);
    FirstFailureStep(cs);
    FirstFailureStep(cs[1..]);
    FirstFailureStep(cs[2..]);
  }

  /** Fields are tested for emptiness before trimming, so a name of spaces passes and is sent as "". */
  lemma BlankNamePassesAsEmpty(f: SignupForm)
    requires f.name != "" && (forall i :: 0 <= i < |f.name| ==> IsSpace(f.name[i]))
    requires f.email != "" && f.username != ""
    requires f.password == f.confirmPassword && Accepts(f.password)
    ensures RegistrationError(f) == None && Trim(f.name) == ""
  {
  }

  class RegisterPage {
    const store: SessionStore
    var error: string
    var loading: bool
    var nav: Option<Destination>

    constructor (store: SessionStore)
      ensures this.store == store && error == "" && !loading && nav == None
    {
      this.store := store;
      error := "";
      loading := false;
      nav := None;
    }

    /** The submit button is disabled while a submission is loading. */
    predicate CanSubmit()
      reads this
    {
      !loading
    }

    /**
     * Submit: clear the error, validate; on a validation error show it and send nothing; otherwise sign up
     * with name, email and username trimmed and the password as typed, then go to verification with the
     * email as typed, or show the raised message. Loading is off afterwards on every path.
     */
    method HandleSubmit(form: SignupForm, reply: SignupReply)
      requires store.Valid()
      modifies this, store, store.gateway
      ensures store.Valid() && CanSubmit()
      ensures store.user == old(store.user) && store.storedUser == old(store.storedUser)
      ensures store.storedToken == old(store.storedToken) && store.nav == old(store.nav)
      ensures RegistrationError(form).Some? ==>
        && error == RegistrationError(form).value
        && store.gateway.sent == old(store.gateway.sent)
        && store.alert == old(store.alert) && nav == old(nav)
      ensures RegistrationError(form).None? ==>
        && store.gateway.sent == old(store.gateway.sent)
             + [SignupRequest(Trim(form.name), Trim(form.email), Trim(form.username), form.password)]
        && store.alert == SignupAlert(reply)
        && if reply.SignupRejected? then
             error == MessageOr(reply.reason, RegisterFallback) && nav == old(nav)
           else
             error == "" && nav == Some(ToVerification(form.email))
    {
      error := "";
      loading := true;
      var invalid := RegistrationError(form);
      if invalid.Some? {
        error := invalid.value;
        loading := false;
        return;
      }
      var r := store.Register(Trim(form.name), Trim(form.email), Trim(form.username), form.password, reply);
      if r.Pass? {
        nav := Some(ToVerification(form.email));
      } else {
        error := MessageOr(Some(r.message), RegistrationFallback);
      }
      loading := false;
    }
  }
}
