/** Session bootstrap (`AuthContext`): decoding the token's claims, detecting
    the role, and the provider's state across start-up, login and logout.

    `atob`, `decodeURIComponent` and `JSON.parse` together are the parameter
    `parse`, which yields `None` wherever one of them would throw. Each probe
    (`GET /users/me`, `GET /organisations/me`) is a boolean or an optional
    record saying whether it succeeded and what it returned. */
module Auth {
  import opened Wrappers
  import opened Text

  const UserRole := "user"
  const OrganisationRole := "organisation"
  const AdminRole := "admin"

  /** The claims of the payload that the client reads. */
  datatype Claims = Claims(role: Option<string>, sub: Option<string>, username: Option<string>)

  /** A profile record returned by a `me` endpoint. */
  datatype Profile = Profile(username: string)

  /** The base64url alphabet (section 5 of RFC 4648) mapped back to base64: '-' to '+', '_' to '/'. */
  function Base64UrlToBase64(s: string): (r: string)
    ensures |r| == |s|
    ensures forall i :: 0 <= i < |s| && s[i] == '-' ==> r[i] == '+'
    ensures forall i :: 0 <= i < |s| && s[i] == '_' ==> r[i] == '/'
    ensures forall i :: 0 <= i < |s| && s[i] != '-' && s[i] != '_' ==> r[i] == s[i]
    ensures !ContainsChar(r, '-') && !ContainsChar(r, '_')
  {
    ReplaceChar(ReplaceChar(s, '-', '+'), '_', '/')
  }

  /** The payload segment of a compact JWS (section 7.2 of RFC 7519): the text between the
      first and the second '.', or after the first '.' when there is no second one. */
  function PayloadSegment(token: string): (seg: Option<string>)
    ensures !ContainsChar(token, '.') ==> seg.None?
    ensures seg.Some? ==> !ContainsChar(seg.value, '.')
  {
    var parts := Split(token, '.');
    if |parts| < 2 then None else Some(parts[1])
  }

  /** `decodeJWT`: the claims, or `None` (null) whenever any step fails. */
  function DecodeJwt(token: string, parse: string -> Option<Claims>): (c: Option<Claims>)
    ensures !ContainsChar(token, '.') ==> c.None?
    ensures c.Some? ==> PayloadSegment(token).Some? && c == parse(Base64UrlToBase64(PayloadSegment(token).value))
  {
    match PayloadSegment(token)
    case None => None
    case Some(seg) => parse(Base64UrlToBase64(seg))
  }

  datatype Probe = UserProbe | OrganisationProbe

  /** The detected role (`None` is null) and the probes made, in order. */
  datatype Detection = Detection(role: Option<string>, probes: seq<Probe>)

  /** A claim that hints at a signed-in principal: `decoded?.sub || decoded?.username`. */
  predicate HasSubjectHint(decoded: Option<Claims>) {
    decoded.Some? && (Truthy(decoded.value.sub) || Truthy(decoded.value.username))
  }

  predicate AdminClaim(decoded: Option<Claims>) {
    decoded.Some? && decoded.value.role == Some(AdminRole)
  }

  /** `detectRole`: probe failures are caught, so detection always yields a role or null. */
  function DetectRole(decoded: Option<Claims>, userProbeOk: bool, orgProbeOk: bool): Detection {
    if AdminClaim(decoded) then Detection(Some(AdminRole), [])
    else if userProbeOk then Detection(Some(UserRole), [UserProbe])
    else if orgProbeOk then Detection(Some(OrganisationRole), [UserProbe, OrganisationProbe])
    else if HasSubjectHint(decoded) then Detection(Some(UserRole), [UserProbe, OrganisationProbe])
    else Detection(None, [UserProbe, OrganisationProbe])
  }

  /** What the network answers during one `initializeAuth`. */
  datatype InitAnswers = InitAnswers(
    userProbeOk: bool,           // detectRole's GET /users/me
    orgProbeOk: bool,            // detectRole's GET /organisations/me
    userFetch: Option<Profile>,  // the second GET /users/me, None when it fails
    orgFetch: Option<Profile>)   // the second GET /organisations/me, None when it fails

  datatype State = State(
    token: Option<string>,   // localStorage "token"
    isAuthenticated: bool,
    role: Option<string>,
    user: Option<Profile>,
    organisation: Option<Profile>,
    loading: bool)

  /** `logout` */
  function LogoutStep(st: State): State {
    st.(token := None, isAuthenticated := false, role := None, user := None, organisation := None)
  }

  /** The profile load that follows detection; a failure of a required load signs out. */
  function LoadProfile(st: State, role: Option<string>, a: InitAnswers): State {
    if role == Some(UserRole) then
      match a.userFetch
      case Some(u) => st.(user := Some(u))
      case None => LogoutStep(st)
    else if role == Some(OrganisationRole) then
      match a.orgFetch
      case Some(o) => st.(organisation := Some(o))
      case None => LogoutStep(st)
    else if role == Some(AdminRole) then
      match a.userFetch
      case Some(u) => st.(user := Some(u))
      case None => st
    else st
  }

  /** `initializeAuth(token)` */
  function InitStep(st: State, token: string, parse: string -> Option<Claims>, a: InitAnswers): State {
    var d := DetectRole(DecodeJwt(token, parse), a.userProbeOk, a.orgProbeOk);
    LoadProfile(st.(role := d.role, isAuthenticated := true), d.role, a).(loading := false)
  }

  /** The provider's mount effect: initialise from a stored token, else stop loading. */
  function MountStep(st: State, parse: string -> Option<Claims>, a: InitAnswers): State {
    if Truthy(st.token) then InitStep(st, st.token.value, parse, a) else st.(loading := false)
  }

  /** `loginUser` / `loginOrg`: `issued` is the access token of a successful login,
      `None` when the login request fails (the error propagates, nothing changes). */
  function LoginStep(st: State, issued: Option<string>, parse: string -> Option<Claims>, a: InitAnswers): State {
    match issued
    case None => st
    case Some(t) => InitStep(st.(token := Some(t)), t, parse, a)
  }

  /** The provider's state, updated in place by its callbacks. */
  class AuthProvider {
    var token: Option<string>
    var isAuthenticated: bool
    var role: Option<string>
    var user: Option<Profile>
    var organisation: Option<Profile>
    var loading: bool

    function Snapshot(): State
      reads this
    {
      State(token, isAuthenticated, role, user, organisation, loading)
    }

    /** The initial render, with whatever token local storage holds. */
    constructor (stored: Option<string>)
      ensures Snapshot() == State(stored, false, None, None, None, true)
    {
      token := stored;
      isAuthenticated := false;
      role := None;
      user := None;
      organisation := None;
      loading := true;
    }

    method Logout()
      modifies this
      ensures Snapshot() == LogoutStep(old(Snapshot()))
    {
      token := None;
      isAuthenticated := false;
      role := None;
      user := None;
      organisation := None;
    }

    method InitializeAuth(t: string, parse: string -> Option<Claims>, a: InitAnswers)
      modifies this
      ensures Snapshot() == InitStep(old(Snapshot()), t, parse, a)
    {
      var d := DetectRole(DecodeJwt(t, parse), a.userProbeOk, a.orgProbeOk);
      role := d.role;
      isAuthenticated := true;
      if d.role == Some(UserRole) {
        if a.userFetch.Some? {
          user := a.userFetch;
        } else {
          Logout();
        }
      } else if d.role == Some(OrganisationRole) {
        if a.orgFetch.Some? {
          organisation := a.orgFetch;
        } else {
          Logout();
        }
      } else if d.role == Some(AdminRole) {
        if a.userFetch.Some? {
          user := a.userFetch;
        }
      }
      loading := false;
    }

    method Mount(parse: string -> Option<Claims>, a: InitAnswers)
      modifies this
      ensures Snapshot() == MountStep(old(Snapshot()), parse, a)
    {
      if Truthy(token) {
        InitializeAuth(token.value, parse, a);
      } else {
        loading := false;
      }
    }

    method Login(issued: Option<string>, parse: string -> Option<Claims>, a: InitAnswers)
      modifies this
      ensures Snapshot() == LoginStep(old(Snapshot()), issued, parse, a)
    {
      if issued.Some? {
        token := issued;
        InitializeAuth(issued.value, parse, a);
      }
    }
  }
}

/** What session bootstrap promises. */
module AuthProperties {
  import opened Wrappers
  import opened Text
  import opened Auth

  /** Role precedence: an admin claim wins without any probe; then the user probe; then the
      organisation probe; then a subject hint; else null. */
  lemma DetectRolePrecedence(decoded: Option<Claims>, userOk: bool, orgOk: bool)
    ensures var d := DetectRole(decoded, userOk, orgOk);
      && (d.role == Some(AdminRole) <==> AdminClaim(decoded))
      && (AdminClaim(decoded) ==> d.probes == [])
      && (!AdminClaim(decoded) && userOk ==> d.role == Some(UserRole) && d.probes == [UserProbe])
      && (d.role == Some(OrganisationRole) <==> !AdminClaim(decoded) && !userOk && orgOk)
      && (d.role.None? <==> !AdminClaim(decoded) && !userOk && !orgOk && !HasSubjectHint(decoded))
      && (OrganisationProbe in d.probes <==> !AdminClaim(decoded) && !userOk)
  {
  }

  /** A token without '.' decodes to no claims, so detection relies on the probes alone. */
  lemma UndottedTokenHasNoClaims(token: string, parse: string -> Option<Claims>, userOk: bool, orgOk: bool)
    requires !ContainsChar(token, '.')
    ensures DecodeJwt(token, parse) == None
    ensures DetectRole(DecodeJwt(token, parse), userOk, orgOk).role
      == (if userOk then Some(UserRole) else if orgOk then Some(OrganisationRole) else None)
  {
  }

  /** Signed out: the state `logout` leaves behind. */
  predicate SignedOut(st: State) {
    st.token.None? && !st.isAuthenticated && st.role.None? && st.user.None? && st.organisation.None?
  }

  /** `logout` signs out and touches nothing else. */
  lemma LogoutResets(st: State)
    ensures SignedOut(LogoutStep(st)) && LogoutStep(st).loading == st.loading
  {
  }

  /** Initialisation always ends loading. It authenticates even when the role is null, and
      only a failed load of the detected user's or organisation's own profile signs out. */
  lemma InitOutcome(st: State, token: string, parse: string -> Option<Claims>, a: InitAnswers)
    ensures var r := InitStep(st, token, parse, a);
      var d := DetectRole(DecodeJwt(token, parse), a.userProbeOk, a.orgProbeOk);
      var failed := (d.role == Some(UserRole) && a.userFetch.None?)
                 || (d.role == Some(OrganisationRole) && a.orgFetch.None?);
      && !r.loading
      && (failed ==> SignedOut(r))
      && (!failed ==> r.isAuthenticated && r.role == d.role && r.token == st.token)
      && (d.role.None? ==> r.isAuthenticated)
  {
  }

  /** Only the matching profile is loaded; an admin's failed user load is ignored. */
  lemma InitLoadsMatchingProfile(st: State, token: string, parse: string -> Option<Claims>, a: InitAnswers)
    ensures var r := InitStep(st, token, parse, a);
      var d := DetectRole(DecodeJwt(token, parse), a.userProbeOk, a.orgProbeOk);
      && (d.role == Some(UserRole) && a.userFetch.Some? ==> r.user == a.userFetch && r.organisation == st.organisation)
      && (d.role == Some(OrganisationRole) && a.orgFetch.Some? ==> r.organisation == a.orgFetch && r.user == st.user)
      && (d.role == Some(AdminRole) ==>
            r.isAuthenticated && r.organisation == st.organisation
            && r.user == (if a.userFetch.Some? then a.userFetch else st.user))
  {
  }

  /** With no stored token start-up makes no probe: only `loading` changes. */
  lemma MountWithoutToken(st: State, parse: string -> Option<Claims>, a: InitAnswers)
    requires !Truthy(st.token)
    ensures MountStep(st, parse, a) == st.(loading := false)
  {
  }

  /** A login runs the same initialisation as a cold start with the new token stored. */
  lemma LoginIsColdStart(st: State, t: string, parse: string -> Option<Claims>, a: InitAnswers)
    requires t != ""
    ensures LoginStep(st, Some(t), parse, a) == MountStep(st.(token := Some(t)), parse, a)
  {
  }

  datatype Event =
    | Mounted(parse: string -> Option<Claims>, a: InitAnswers)
    | LoggedIn(issued: Option<string>, parse: string -> Option<Claims>, a: InitAnswers)
    | LoggedOut

  function Step(st: State, e: Event): State {
    match e
    case Mounted(p, a) => MountStep(st, p, a)
    case LoggedIn(t, p, a) => LoginStep(st, t, p, a)
    case LoggedOut => LogoutStep(st)
  }

  function Run(st: State, evs: seq<Event>): State
    decreases |evs|
  {
    if evs == [] then st else Run(Step(st, evs[0]), evs[1..])
  }

  /** `loading` is never set back to true. */
  lemma {:induction false} LoadingNeverReturns(st: State, evs: seq<Event>)
    requires !st.loading
    ensures !Run(st, evs).loading
    decreases |evs|
  {
    if evs != [] {
      LoadingNeverReturns(Step(st, evs[0]), evs[1..]);
    }
  }

  /** Once mounted, the provider stays settled whatever happens next. */
  lemma {:induction false} SettledAfterMount(st: State, parse: string -> Option<Claims>, a: InitAnswers, evs: seq<Event>)
    ensures !Run(MountStep(st, parse, a), evs).loading
  {
    LoadingNeverReturns(MountStep(st, parse, a), evs);
  }
}
