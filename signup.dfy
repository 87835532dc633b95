/** The sign-up form: it does not register anyone itself; it builds the
    signup record, parks it in `sessionStorage` under 'pendingSignup' and
    sends the browser to the onboarding form. */
module Signup {
  import opened Text
  import opened Forms
  import Browser

  const PendingSignupKey := "pendingSignup"

  /** The record stored for the onboarding step. */
  datatype SignupData = SignupData(
    email: string, password: string, firstName: string, lastName: string,
    fullName: string, username: string)

  /** The record built from the form: the four fields as entered, the full
      name as first and last name joined by a space, the username as the
      first name in lower case. */
  function SignupRecord(form: FormData): (d: SignupData)
    ensures d.email == TextOf(Get(form, "email")) && d.password == TextOf(Get(form, "password"))
    ensures d.firstName == TextOf(Get(form, "firstName")) && d.lastName == TextOf(Get(form, "lastName"))
    ensures |d.fullName| == |d.firstName| + 1 + |d.lastName|
    ensures d.fullName[..|d.firstName|] == d.firstName && d.fullName[|d.firstName|] == ' '
    ensures d.fullName[|d.firstName| + 1..] == d.lastName
    ensures |d.username| == |d.firstName|
    ensures forall i | 0 <= i < |d.username| :: d.username[i] == LowerChar(d.firstName[i])
  {
    var first := TextOf(Get(form, "firstName"));
    var last := TextOf(Get(form, "lastName"));
    var full := first + " " + last;
    assert full[..|first|] == first && full[|first| + 1..] == last;
    SignupData(TextOf(Get(form, "email")), TextOf(Get(form, "password")), first, last, full, Lower(first))
  }

  /** When the first name has no space, the full name splits back at its
      first space into the first and last name. */
  lemma FullNameSplitsBack(form: FormData)
    requires ' ' !in TextOf(Get(form, "firstName"))
    ensures var d := SignupRecord(form);
      var k := FirstSpace(d.fullName);
      k == |d.firstName| && d.fullName[..k] == d.firstName && d.fullName[k + 1..] == d.lastName
  {
    var d := SignupRecord(form);
    FirstSpaceAt(d.fullName, |d.firstName|);
  }

  /** The position of the first space, or the length when there is none. */
  function FirstSpace(s: string): (k: nat)
    ensures k <= |s|
    ensures k < |s| ==> s[k] == ' '
    ensures forall i | 0 <= i < k :: s[i] != ' '
  {
    if s == [] || s[0] == ' ' then 0 else 1 + FirstSpace(s[1..])
  }

  lemma FirstSpaceAt(s: string, k: nat)
    requires k < |s| && s[k] == ' '
    requires forall i | 0 <= i < k :: s[i] != ' '
    ensures FirstSpace(s) == k
  {
  }

  /** The username is already in lower case: lower-casing it again changes nothing. */
  lemma {:induction false} UsernameIsLowerCase(form: FormData)
    ensures Lower(SignupRecord(form).username) == SignupRecord(form).username
  {
    var u := SignupRecord(form).username;
    var l := Lower(u);
    forall i | 0 <= i < |u| ensures l[i] == u[i] {
      assert !('A' <= u[i] <= 'Z');
    }
  }

  /** The form the component starts with. */
  const Initial: FormData := map["firstName" := Str(""), "lastName" := Str(""), "email" := Str(""), "password" := Str("")]

  /** The page's state and its `sessionStorage`. */
  class SignupPage {
    var form: FormData
    var error: string
    var isLoading: bool
    var sessionStorage: map<string, SignupData>

    constructor (session: map<string, SignupData>)
      ensures form == Initial && error == "" && !isLoading && sessionStorage == session
    {
      form := Initial;
      error := "";
      isLoading := false;
      sessionStorage := session;
    }

    /** `handleInputChange(e)` */
    method HandleInputChange(e: InputEvent)
      modifies this
      ensures form == ApplyInput(old(form), e)
      ensures error == old(error) && isLoading == old(isLoading) && sessionStorage == old(sessionStorage)
    {
      form := ApplyInput(form, e);
    }

    /** `handleSubmit`: clear the error, store the record, go to onboarding.
        Nothing reaches the auth API and the session in `localStorage` is
        left alone. */
    method HandleSubmit(w: Browser.Window)
      modifies this, w
      ensures error == "" && form == old(form) && isLoading == old(isLoading)
      ensures sessionStorage == old(sessionStorage)[PendingSignupKey := SignupRecord(old(form))]
      ensures w.hrefs == old(w.hrefs) + ["/onboarding"]
      ensures w.localStorage == old(w.localStorage) && w.pushes == old(w.pushes)
    {
      error := "";
      sessionStorage := sessionStorage[PendingSignupKey := SignupRecord(form)];
      w.hrefs := w.hrefs + ["/onboarding"];
    }
  }
}
