/** The doctor and EPA sign-in forms. Both are the same component around
    the session store's `login`, differing only in the portal they pass. */
module LoginForms {
  import opened Wrappers
  import opened Accounts
  import opened Forms
  import opened Auth

  const InvalidCredentials := "Invalid credentials. Please try again."

  /** The error a submit leaves on the form: none after a login that returned,
      else the thrown message, or the fixed fallback when that is empty. */
  function SubmitError(o: Outcome): (e: string)
    ensures e == "" <==> o.Done?
    ensures o.Thrown? && o.message != "" ==> e == o.message
    ensures o.Thrown? && o.message == "" ==> e == InvalidCredentials
  {
    match o
    case Done => ""
    case Thrown(m) => if m != "" then m else InvalidCredentials
  }

  /** A form shows an error exactly when the server refused, the request
      failed, or the account's role is not admitted to the form's portal. */
  lemma ErrorShownIffRejected(portal: Portal, reply: Reply)
    ensures SubmitError(LoginOutcome(Some(portal), reply)) != "" <==>
      !(reply.Ok? && PortalAdmits(Some(portal), reply.user.role))
  {
  }

  /** The gate seen from the forms: an EPA administrator on the doctor form
      and a health administrator on the EPA form get their portal's denial,
      while a super administrator passes both. */
  lemma PortalsAdmitAsDocumented(token: string, u: User)
    ensures u.role == EpaAdmin ==>
      SubmitError(LoginOutcome(Some(Doctor), Ok(token, u))) == DenialMessage(Doctor)
    ensures u.role == HealthAdmin ==>
      SubmitError(LoginOutcome(Some(Epa), Ok(token, u))) == DenialMessage(Epa)
    ensures u.role == SuperAdmin ==>
      SubmitError(LoginOutcome(Some(Doctor), Ok(token, u))) == "" && SubmitError(LoginOutcome(Some(Epa), Ok(token, u))) == ""
  {
    if u.role == EpaAdmin {
      DeniedShowsDenial(Doctor, token, u);
    } else if u.role == HealthAdmin {
      DeniedShowsDenial(Epa, token, u);
    }
  }

  /** A role the portal does not admit gets that portal's denial on its form. */
  lemma DeniedShowsDenial(portal: Portal, token: string, u: User)
    requires !PortalAdmits(Some(portal), u.role)
    ensures SubmitError(LoginOutcome(Some(portal), Ok(token, u))) == DenialMessage(portal)
  {
    assert LoginOutcome(Some(portal), Ok(token, u)) == Thrown(DenialMessage(portal));
  }

  /** The form the component starts with. */
  const Initial: FormData := map["email" := Str(""), "password" := Str(""), "remember" := Flag(false)]

  /** One sign-in form; `portal` is the role the component passes to `login`. */
  class LoginForm {
    const portal: Portal
    const store: SessionStore
    var form: FormData
    var error: string
    var isLoading: bool
    /** Every value given to `setIsLoading`, in order. */
    ghost var isLoadingLog: seq<bool>

    /** `DoctorLoginAuth` for `Doctor`, `EPALoginAuth` for `Epa`. */
    constructor (portal: Portal, store: SessionStore)
      ensures this.portal == portal && this.store == store
      ensures form == Initial && error == "" && !isLoading && isLoadingLog == []
    {
      this.portal := portal;
      this.store := store;
      form := Initial;
      error := "";
      isLoading := false;
      isLoadingLog := [];
    }

    /** `handleInputChange(e)` */
    method HandleInputChange(e: InputEvent)
      modifies this
      ensures form == ApplyInput(old(form), e)
      ensures error == old(error) && isLoading == old(isLoading) && isLoadingLog == old(isLoadingLog)
    {
      form := ApplyInput(form, e);
    }

    /** `handleSubmit`: clear the error, start loading, call `login` with the
        form's email and password and this form's portal, show the error it
        throws, and stop loading whatever happened. */
    method HandleSubmit(reply: Reply) returns (outcome: Outcome)
      modifies this, store, store.window
      ensures outcome == LoginOutcome(Some(portal), reply)
      ensures error == SubmitError(outcome)
      ensures !isLoading && isLoadingLog == old(isLoadingLog) + [true, false]
      ensures form == old(form)
      ensures store.requests == old(store.requests)
        + [LoginRequest(TextOf(Get(old(form), "email")), TextOf(Get(old(form), "password")))]
      ensures !store.loading && store.loadingLog == old(store.loadingLog) + [true, false]
      ensures store.window.hrefs == old(store.window.hrefs)
      ensures outcome.Thrown? ==>
        store.user == old(store.user) && store.token == old(store.token)
        && store.window.localStorage == old(store.window.localStorage)
        && store.window.pushes == old(store.window.pushes)
      ensures outcome.Done? ==>
        reply.Ok? && store.user == Some(reply.user) && store.token == Some(reply.accessToken)
        && store.window.localStorage == Committed(old(store.window.localStorage), reply.accessToken, reply.user)
        && store.window.pushes == old(store.window.pushes) + [LandingRoute(Some(portal))]
    {
      error := "";
      isLoading := true;
      isLoadingLog := isLoadingLog + [true];
      outcome := store.Login(TextOf(Get(form, "email")), TextOf(Get(form, "password")), Some(portal), reply);
      Settle(outcome);
    }

    /** The `catch` and `finally` of `handleSubmit`. */
    method Settle(outcome: Outcome)
      requires error == ""
      modifies this
      ensures error == SubmitError(outcome)
      ensures !isLoading && isLoadingLog == old(isLoadingLog) + [false] && form == old(form)
    {
      if outcome.Thrown? {
        error := if outcome.message != "" then outcome.message else InvalidCredentials;
      }
      isLoading := false;
      isLoadingLog := isLoadingLog + [false];
    }
  }
}
