/** The session store of `AuthContext`: the signed-in user and bearer token,
    their copies under two `localStorage` keys, and the hydrate, login,
    register and logout transitions. */
module Auth {
  import opened Wrappers
  import opened Accounts
  import opened Browser

  const AccessTokenKey := "access_token"
  const UserKey := "user"

  /** The role-specific portal a login form passes as `role`. */
  datatype Portal = Doctor | Epa

  /** The auth API's reply to a login or register request: a 2xx body, a
      non-2xx error body (`detail` and `msg`, empty when absent), or a
      `fetch` that rejected with an error message. */
  datatype Reply =
    | Ok(accessToken: string, user: User)
    | Err(detail: string, msg: string)
    | NetworkError(message: string)

  /** The `formData` handed to `register`; an absent text field is "". */
  datatype RegisterForm = RegisterForm(
    email: string, password: string, username: string, fullName: string,
    phoneNumber: string, name: string, skipOnboarding: bool)

  /** The JSON body sent to `/auth/register`. */
  datatype RegisterBody = RegisterBody(
    email: string, password: string, username: string, fullName: string,
    phoneNumber: Option<string>, name: Option<string>)

  /** A request sent to the auth API. */
  datatype Request = LoginRequest(email: string, password: string) | RegisterRequest(body: RegisterBody)

  /** What hydration finds in storage. */
  datatype Hydration = NoSession | Restored(token: string, user: User) | Malformed(token: string)

  /** Hydration restores a session only when both keys hold non-empty strings;
      then the `user` text must parse as a user record, or parsing throws. */
  function HydrationOf(storage: map<string, Stored>): (h: Hydration)
    ensures h.NoSession? <==> !Truthy(GetItem(storage, AccessTokenKey)) || !Truthy(GetItem(storage, UserKey))
    ensures !h.NoSession? ==> h.token == AsString(storage[AccessTokenKey])
    ensures h.Restored? ==> storage[UserKey] == UserJson(h.user)
  {
    var storedToken := GetItem(storage, AccessTokenKey);
    var storedUser := GetItem(storage, UserKey);
    if Truthy(storedToken) && Truthy(storedUser) then
      match storage[UserKey]
      case UserJson(u) => Restored(storedToken.value, u)
      case Text(_) => Malformed(storedToken.value)
    else
      NoSession
  }

  /** The portal role gate: the doctor portal admits health_admin and
      super_admin, the EPA portal epa_admin and super_admin, no portal everyone.
      Its negation is the disjunction of `login`'s two role checks, one per
      portal, so a single test of it takes both. */
  predicate PortalAdmits(portal: Option<Portal>, role: Role) {
    match portal
    case None => true
    case Some(Doctor) => role == HealthAdmin || role == SuperAdmin
    case Some(Epa) => role == EpaAdmin || role == SuperAdmin
  }

  /** The gate read as the source writes it: the role's API name is in the
      portal's list of admitted names. */
  lemma PortalGateByName(role: Role)
    ensures PortalAdmits(Some(Doctor), role) <==> RoleName(role) in ["health_admin", "super_admin"]
    ensures PortalAdmits(Some(Epa), role) <==> RoleName(role) in ["epa_admin", "super_admin"]
  {
    var names := ["health_admin", "super_admin", "epa_admin", "user"];
    assert names[0] != RoleName(EpaAdmin) && names[0] != RoleName(UserRole);
    assert names[1] != RoleName(EpaAdmin) && names[1] != RoleName(UserRole) && names[1] != RoleName(HealthAdmin);
    assert names[2] != RoleName(HealthAdmin) && names[2] != RoleName(UserRole) && names[2] != RoleName(SuperAdmin);
  }

  /** The message each portal's role check throws. */
  function DenialMessage(p: Portal): (m: string)
    ensures |m| > 0
  {
    match p
    case Doctor => "Access denied: Doctor dashboard requires health_admin or super_admin role"
    case Epa => "Access denied: EPA dashboard requires epa_admin or super_admin role"
  }

  /** How a login call ends for a given reply. */
  function LoginOutcome(portal: Option<Portal>, reply: Reply): (o: Outcome)
    ensures o.Done? <==> reply.Ok? && PortalAdmits(portal, reply.user.role)
    ensures reply.Err? ==> o == Thrown(if reply.detail != "" then reply.detail else "Login failed")
    ensures reply.NetworkError? ==> o == Thrown(reply.message)
    ensures reply.Ok? && o.Thrown? ==> portal.Some? && o.message == DenialMessage(portal.value)
  {
    match reply
    case NetworkError(m) => Thrown(m)
    case Err(detail, _) => Thrown(if detail != "" then detail else "Login failed")
    case Ok(_, u) =>
      if !PortalAdmits(portal, u.role) then Thrown(DenialMessage(portal.value)) else Done
  }

  /** Where a successful login navigates. */
  function LandingRoute(portal: Option<Portal>): string {
    match portal
    case Some(Doctor) => "/doctor-dashboard"
    case Some(Epa) => "/epa-dashboard"
    case None => "/dashboard"
  }

  /** The body `register` sends: the four required fields always, phone
      number and name only when they are non-empty. */
  function RegisterBodyOf(form: RegisterForm): (b: RegisterBody)
    ensures b.email == form.email && b.password == form.password
    ensures b.username == form.username && b.fullName == form.fullName
    ensures b.phoneNumber.Some? <==> form.phoneNumber != ""
    ensures b.phoneNumber.Some? ==> b.phoneNumber.value == form.phoneNumber
    ensures b.name.Some? <==> form.name != ""
    ensures b.name.Some? ==> b.name.value == form.name
  {
    RegisterBody(form.email, form.password, form.username, form.fullName,
      if form.phoneNumber != "" then Some(form.phoneNumber) else None,
      if form.name != "" then Some(form.name) else None)
  }

  /** How a register call ends: the error falls back from `detail` to `msg`
      to "Registration failed". */
  function RegisterOutcome(reply: Reply): (o: Outcome)
    ensures o.Done? <==> reply.Ok?
    ensures reply.Err? && reply.detail != "" ==> o == Thrown(reply.detail)
    ensures reply.Err? && reply.detail == "" && reply.msg != "" ==> o == Thrown(reply.msg)
    ensures reply.Err? && reply.detail == "" && reply.msg == "" ==> o == Thrown("Registration failed")
    ensures reply.NetworkError? ==> o == Thrown(reply.message)
  {
    match reply
    case NetworkError(m) => Thrown(m)
    case Err(detail, msg) =>
      Thrown(if detail != "" then detail else if msg != "" then msg else "Registration failed")
    case Ok(_, _) => Done
  }

  /** Storage after a session is committed. */
  function Committed(storage: map<string, Stored>, token: string, user: User): map<string, Stored> {
    storage[AccessTokenKey := Text(token)][UserKey := UserJson(user)]
  }

  /** Storage after the session keys are removed. */
  function Cleared(storage: map<string, Stored>): map<string, Stored> {
    storage - {AccessTokenKey, UserKey}
  }

  /** A committed session comes back on the next hydration exactly when its
      token is non-empty (an empty token is falsy and hydration skips it). */
  lemma CommitThenHydrate(storage: map<string, Stored>, token: string, user: User)
    ensures token != "" ==> HydrationOf(Committed(storage, token, user)) == Restored(token, user)
    ensures token == "" ==> HydrationOf(Committed(storage, token, user)) == NoSession
  {
    var s := Committed(storage, token, user);
    assert s[AccessTokenKey] == Text(token);
    assert s[UserKey] == UserJson(user);
  }

  /** After the keys are removed, hydration finds no session, whatever else is stored. */
  lemma ClearThenHydrate(storage: map<string, Stored>)
    ensures HydrationOf(Cleared(storage)) == NoSession
  {
    assert AccessTokenKey !in Cleared(storage);
  }

  class SessionStore {
    const window: Window
    var user: Option<User>
    var token: Option<string>
    var loading: bool
    /** Requests sent to the auth API, in order. */
    var requests: seq<Request>
    /** Every value given to `setLoading`, in order. */
    ghost var loadingLog: seq<bool>

    /** The provider's initial state: no user, no token, loading. */
    constructor (w: Window)
      ensures window == w && user == None && token == None && loading
      ensures requests == [] && loadingLog == []
    {
      window := w;
      user := None;
      token := None;
      loading := true;
      requests := [];
      loadingLog := [];
    }

    /** `isAuthenticated: !!user && !!token` */
    predicate IsAuthenticated()
      reads this
    {
      user.Some? && token.Some? && token.value != ""
    }

    /** The mount effect: restore the session from storage. A `user` key that
        does not parse throws after the token has been set, before `loading`
        is cleared. */
    method Hydrate() returns (outcome: Outcome)
      modifies this
      ensures requests == old(requests)
      ensures var h := HydrationOf(window.localStorage);
        match h
        case NoSession =>
          outcome == Done && user == old(user) && token == old(token)
          && !loading && loadingLog == old(loadingLog) + [false]
        case Restored(t, u) =>
          outcome == Done && user == Some(u) && token == Some(t)
          && !loading && loadingLog == old(loadingLog) + [false]
        case Malformed(t) =>
          outcome.Thrown? && user == old(user) && token == Some(t)
          && loading == old(loading) && loadingLog == old(loadingLog)
    {
      var storedToken := GetItem(window.localStorage, AccessTokenKey);
      var storedUser := GetItem(window.localStorage, UserKey);
      if Truthy(storedToken) && Truthy(storedUser) {
        token := storedToken;
        match window.localStorage[UserKey]
        case Text(_) =>
          outcome := Thrown("SyntaxError: stored user is not valid JSON");
          return;
        case UserJson(u) =>
          user := Some(u);
      }
      loading := false;
      loadingLog := loadingLog + [false];
      outcome := Done;
    }

    /** The success path shared by `login` and `register`: the token and
        user in memory, then under their two storage keys. */
    method Commit(accessToken: string, u: User)
      modifies this, window
      ensures user == Some(u) && token == Some(accessToken)
      ensures window.localStorage == Committed(old(window.localStorage), accessToken, u)
      ensures window.pushes == old(window.pushes) && window.hrefs == old(window.hrefs)
      ensures loading == old(loading) && loadingLog == old(loadingLog) && requests == old(requests)
    {
      token := Some(accessToken);
      user := Some(u);
      window.localStorage := window.localStorage[AccessTokenKey := Text(accessToken)];
      window.localStorage := window.localStorage[UserKey := UserJson(u)];
    }

    /** `login(email, password, role?)`. */
    method Login(email: string, password: string, portal: Option<Portal>, reply: Reply) returns (outcome: Outcome)
      modifies this, window
      ensures outcome == LoginOutcome(portal, reply)
      ensures requests == old(requests) + [LoginRequest(email, password)]
      ensures !loading && loadingLog == old(loadingLog) + [true, false]
      ensures window.hrefs == old(window.hrefs)
      ensures outcome.Thrown? ==>
        user == old(user) && token == old(token)
        && window.localStorage == old(window.localStorage) && window.pushes == old(window.pushes)
      ensures outcome.Done? ==>
        reply.Ok? && user == Some(reply.user) && token == Some(reply.accessToken)
        && window.localStorage == Committed(old(window.localStorage), reply.accessToken, reply.user)
        && window.pushes == old(window.pushes) + [LandingRoute(portal)]
    {
      loading := true;
      loadingLog := loadingLog + [true];
      requests := requests + [LoginRequest(email, password)];
      match reply {
        case NetworkError(m) =>
          outcome := Thrown(m);
        case Err(detail, _) =>
          outcome := Thrown(if detail != "" then detail else "Login failed");
        case Ok(accessToken, u) =>
          outcome := Admit(portal, accessToken, u);
      }
      loading := false;
      loadingLog := loadingLog + [false];
    }

    /** The part of `login` after a successful reply: the portal's role check,
        then the session is kept and the browser sent to the portal's dashboard. */
    method Admit(portal: Option<Portal>, accessToken: string, u: User) returns (outcome: Outcome)
      modifies this, window
      ensures outcome == LoginOutcome(portal, Ok(accessToken, u))
      ensures outcome.Thrown? ==>
        user == old(user) && token == old(token)
        && window.localStorage == old(window.localStorage) && window.pushes == old(window.pushes)
      ensures outcome.Done? ==>
        user == Some(u) && token == Some(accessToken)
        && window.localStorage == Committed(old(window.localStorage), accessToken, u)
        && window.pushes == old(window.pushes) + [LandingRoute(portal)]
      ensures window.hrefs == old(window.hrefs)
      ensures loading == old(loading) && loadingLog == old(loadingLog) && requests == old(requests)
    {
      if !PortalAdmits(portal, u.role) {
        outcome := Thrown(DenialMessage(portal.value));
      } else {
        Commit(accessToken, u);
        window.pushes := window.pushes + [LandingRoute(portal)];
        outcome := Done;
      }
    }

    /** `register(formData)`. */
    method Register(form: RegisterForm, reply: Reply) returns (outcome: Outcome)
      modifies this, window
      ensures outcome == RegisterOutcome(reply)
      ensures requests == old(requests) + [RegisterRequest(RegisterBodyOf(form))]
      ensures !loading && loadingLog == old(loadingLog) + [true, false]
      ensures window.hrefs == old(window.hrefs)
      ensures outcome.Thrown? ==>
        user == old(user) && token == old(token)
        && window.localStorage == old(window.localStorage) && window.pushes == old(window.pushes)
      ensures outcome.Done? ==>
        user == Some(reply.user) && token == Some(reply.accessToken)
        && window.localStorage == Committed(old(window.localStorage), reply.accessToken, reply.user)
        && window.pushes == old(window.pushes) + (if form.skipOnboarding then ["/dashboard"] else [])
    {
      loading := true;
      loadingLog := loadingLog + [true];
      var body := RegisterBody(form.email, form.password, form.username, form.fullName, None, None);
      if form.phoneNumber != "" {
        body := body.(phoneNumber := Some(form.phoneNumber));
      }
      if form.name != "" {
        body := body.(name := Some(form.name));
      }
      requests := requests + [RegisterRequest(body)];
      match reply {
        case NetworkError(m) =>
          outcome := Thrown(m);
        case Err(detail, msg) =>
          outcome := Thrown(if detail != "" then detail else if msg != "" then msg else "Registration failed");
        case Ok(accessToken, u) =>
          Commit(accessToken, u);
          if form.skipOnboarding {
            window.pushes := window.pushes + ["/dashboard"];
          }
          outcome := Done;
      }
      loading := false;
      loadingLog := loadingLog + [false];
    }

    /** `logout()`: forget the session in memory and in storage, go to "/". */
    method Logout()
      modifies this, window
      ensures user == None && token == None && !IsAuthenticated()
      ensures window.localStorage == Cleared(old(window.localStorage))
      ensures AccessTokenKey !in window.localStorage && UserKey !in window.localStorage
      ensures window.pushes == old(window.pushes) + ["/"]
      ensures window.hrefs == old(window.hrefs)
      ensures loading == old(loading) && loadingLog == old(loadingLog) && requests == old(requests)
    {
      user := None;
      token := None;
      window.localStorage := window.localStorage - {AccessTokenKey};
      window.localStorage := window.localStorage - {UserKey};
      window.pushes := window.pushes + ["/"];
    }
  }

  /** A successful login survives a reload: a fresh store over the same
      window hydrates to the same user and token (when the token is non-empty). */
  method LoginSurvivesReload(w: Window, email: string, password: string, portal: Option<Portal>, token: string, u: User)
    returns (before: SessionStore, after: SessionStore)
    requires PortalAdmits(portal, u.role) && token != ""
    modifies w
    ensures after.user == before.user == Some(u) && after.token == before.token == Some(token)
    ensures after.IsAuthenticated() && !after.loading
  {
    before := new SessionStore(w);
    var o := before.Login(email, password, portal, Ok(token, u));
    CommitThenHydrate(old(w.localStorage), token, u);
    after := new SessionStore(w);
    var h := after.Hydrate();
  }

  /** Logging out survives a reload: a fresh store finds no session. */
  method LogoutSurvivesReload(s: SessionStore) returns (after: SessionStore)
    modifies s, s.window
    ensures after.user == None && after.token == None && !after.IsAuthenticated() && !after.loading
  {
    s.Logout();
    ClearThenHydrate(old(s.window.localStorage));
    after := new SessionStore(s.window);
    var h := after.Hydrate();
  }
}
