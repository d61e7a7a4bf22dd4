/** The session manager of `AuthProvider`: the restore effect that runs when the
    provider mounts, `login` and `logout`.

    The state is seven pieces: the four React state variables (`isAuthenticated`,
    `user`, `loading`, `error`), the browser's `localStorage` (a map from key to
    text), the process-wide axios default `Authorization` header, and the current
    route. The two HTTP requests `login` makes are inputs: their outcomes are
    parameters, and `login` returns the requests it sends.

    The behaviour is stated twice: as functions on a `Session` value (Restored,
    LoginStarted, LoginSettled, LoggedOut), about which the lemmas below prove
    what the code promises, and as the methods of `SessionManager`, which change
    the fields step by step as the source does and are proved to end in the state
    those functions give. */
module Auth {
  import opened Wrappers
  import opened Records
  import Json

  const TokenKey: string := "token"
  const UserKey: string := "user"
  const LandingRoute: string := "/"
  const LoginRoute: string := "/login"
  const LoginFailed: string := "Login failed"

  /** The `Authorization` header value for a bearer token (section 2.1 of RFC 6750). */
  function BearerHeader(token: string): (h: string)
    ensures |h| == 7 + |token| && h[..7] == "Bearer " && h[7..] == token
  {
    "Bearer " + token
  }

  /** A request the session manager sends. The token request is a form-encoded
      POST of `username` and `password`, as in section 4.3.2 of RFC 6749 but
      without `grant_type`. */
  datatype Request =
    | TokenRequest(form: seq<(string, string)>)
    | ProfileRequest(authorization: Option<string>)

  datatype Session = Session(
    isAuthenticated: bool,
    user: Option<UserRecord>,
    loading: bool,
    error: Option<string>,
    storage: map<string, string>,
    authHeader: Option<string>,
    location: string)

  /** `localStorage.getItem(key)` is truthy: present and not empty. */
  predicate Stored(storage: map<string, string>, key: string)
  {
    key in storage && storage[key] != ""
  }

  /** Both halves of a saved session are there, so restore will use them. */
  predicate HasStoredSession(storage: map<string, string>)
  {
    Stored(storage, TokenKey) && Stored(storage, UserKey)
  }

  /** Whenever restore would parse the cached profile, it parses. */
  predicate WellFormedCache(storage: map<string, string>)
  {
    HasStoredSession(storage) ==> Json.Parse(storage[UserKey]).Some?
  }

  /** The state of a freshly mounted provider: signed out and loading. */
  function Mounted(storage: map<string, string>, authHeader: Option<string>, location: string): Session
  {
    Session(false, None, true, None, storage, authHeader, location)
  }

  /** A page reload: a new provider over the same storage, with the axios
      defaults back to having no `Authorization` header. */
  function Reloaded(s: Session): Session
  {
    Mounted(s.storage, None, s.location)
  }

  /** The restore effect: signed in afterwards when already signed in or when
      a session is stored; only `loading`, the signed-in flag, the user and the
      header can change. */
  function Restored(s: Session): (r: Session)
    requires WellFormedCache(s.storage)
    ensures !r.loading && r.storage == s.storage && r.error == s.error && r.location == s.location
    ensures r.isAuthenticated <==> s.isAuthenticated || HasStoredSession(s.storage)
  {
    if HasStoredSession(s.storage) then
      s.(isAuthenticated := true,
         user := Json.Parse(s.storage[UserKey]),
         authHeader := Some(BearerHeader(s.storage[TokenKey])),
         loading := false)
    else
      s.(loading := false)
  }

  /** The first two steps of `login`: loading, no error, the session as it was. */
  function LoginStarted(s: Session): (r: Session)
    ensures r.loading && r.error == None
    ensures r.isAuthenticated == s.isAuthenticated && r.user == s.user
    ensures r.storage == s.storage && r.authHeader == s.authHeader && r.location == s.location
  {
    s.(loading := true, error := None)
  }

  /** `err.response?.data?.detail || 'Login failed'`. */
  function LoginErrorMessage(detail: Option<string>): string
  {
    DetailOr(detail, LoginFailed)
  }

  /** The rest of `login`, given the outcomes of `POST /token` (its body is the
      `access_token`) and of `GET /users/me` (its body is the profile). */
  function LoginSettled(s: Session, token: Response<string>, profile: Response<UserRecord>): (r: Session)
    ensures !r.loading
    ensures token.Ok? ==> r.authHeader == Some(BearerHeader(token.body))
    ensures token.Err? ==> r.authHeader == s.authHeader
    ensures token.Err? || profile.Err? ==>
      && r.error.Some? && r.storage == s.storage
      && r.isAuthenticated == s.isAuthenticated && r.user == s.user && r.location == s.location
    ensures token.Ok? && profile.Ok? ==>
      && r.error == s.error && r.isAuthenticated && r.user == Some(profile.body)
      && r.location == LandingRoute && HasStoredSession(r.storage) == (token.body != "")
  {
    match token
    case Err(d) =>
      s.(error := Some(LoginErrorMessage(d)), loading := false)
    case Ok(t) =>
      match profile
      case Err(d) =>
        s.(authHeader := Some(BearerHeader(t)), error := Some(LoginErrorMessage(d)), loading := false)
      case Ok(p) =>
        s.(authHeader := Some(BearerHeader(t)),
           storage := s.storage[TokenKey := t][UserKey := Json.Serialize(p)],
           isAuthenticated := true,
           user := Some(p),
           location := LandingRoute,
           loading := false)
  }

  /** The requests `login` sends: always the token request, and the profile
      request, carrying the new header, only when a token came back. */
  function LoginRequests(username: string, password: string, token: Response<string>): (rs: seq<Request>)
    ensures |rs| == (if token.Ok? then 2 else 1)
    ensures rs[0] == TokenRequest([("username", username), ("password", password)])
    ensures token.Ok? ==> rs[1] == ProfileRequest(Some(BearerHeader(token.body)))
  {
    [TokenRequest([("username", username), ("password", password)])]
    + (if token.Ok? then [ProfileRequest(Some(BearerHeader(token.body)))] else [])
  }

  /** The profile request carries exactly the header the session ends with:
      the header installed from the new token, whether or not the profile
      arrives. */
  lemma ProfileRequestCarriesSessionHeader(s: Session, username: string, password: string,
                                           token: Response<string>, profile: Response<UserRecord>)
    requires token.Ok?
    ensures LoginRequests(username, password, token)[1].authorization
         == LoginSettled(LoginStarted(s), token, profile).authHeader
  {
  }

  /** `logout`: no session stored, no header, nobody signed in, on the login
      route; every other stored key, `loading` and the error are kept. */
  function LoggedOut(s: Session): (r: Session)
    ensures !HasStoredSession(r.storage) && r.authHeader == None
    ensures !r.isAuthenticated && r.user == None && r.location == LoginRoute
    ensures forall k :: k in s.storage && k != TokenKey && k != UserKey ==>
      k in r.storage && r.storage[k] == s.storage[k]
    ensures r.storage.Keys == s.storage.Keys - {TokenKey, UserKey}
    ensures r.loading == s.loading && r.error == s.error
  {
    s.(storage := s.storage - {TokenKey, UserKey},
       authHeader := None,
       isAuthenticated := false,
       user := None,
       location := LoginRoute)
  }

  /** What every reachable state satisfies: signed in exactly when there is a
      profile; a signed-in session has a header and a cached pair whose profile
      parses to the session's user; and the cache is always readable. */
  predicate Consistent(s: Session)
    ensures Consistent(s) && s.isAuthenticated ==>
      Stored(s.storage, UserKey) && s.authHeader.Some? && s.user == Json.Parse(s.storage[UserKey])
  {
    && (s.isAuthenticated <==> s.user.Some?)
    && (s.isAuthenticated ==> s.authHeader.Some?)
    && (s.isAuthenticated ==>
          TokenKey in s.storage && UserKey in s.storage && Json.Parse(s.storage[UserKey]) == s.user)
    && WellFormedCache(s.storage)
  }

  // ----- restore -----

  /** Restore signs in with the cached profile and sets the header exactly when
      both keys hold non-empty values; otherwise it leaves those fields alone.
      Either way it only clears `loading`, and touches neither the storage, the
      error nor the route. */
  lemma RestoreEffect(s: Session)
    requires WellFormedCache(s.storage)
    ensures var r := Restored(s);
      && r.loading == false
      && r.storage == s.storage && r.error == s.error && r.location == s.location
      && (HasStoredSession(s.storage) ==>
            && r.isAuthenticated
            && Some(r.user.value) == Json.Parse(s.storage[UserKey])
            && r.authHeader == Some(BearerHeader(s.storage[TokenKey])))
      && (!HasStoredSession(s.storage) ==>
            r.isAuthenticated == s.isAuthenticated && r.user == s.user && r.authHeader == s.authHeader)
  {
  }

  /** On a freshly mounted provider, restore signs in exactly when both keys
      are stored. */
  lemma RestoreAfterMount(storage: map<string, string>, header: Option<string>, location: string)
    requires WellFormedCache(storage)
    ensures Restored(Mounted(storage, header, location)).isAuthenticated <==> HasStoredSession(storage)
    ensures Consistent(Restored(Mounted(storage, header, location)))
  {
  }

  lemma RestoreConsistent(s: Session)
    requires Consistent(s)
    ensures Consistent(Restored(s))
  {
  }

  // ----- login -----

  /** While the requests are in flight the provider shows `loading` and no error. */
  lemma LoginStartedShowsLoading(s: Session)
    ensures LoginStarted(s).loading && LoginStarted(s).error == None
    ensures LoginStarted(s).(loading := s.loading, error := s.error) == s
  {
  }

  /** `loading` is false after `login` on every path (the `finally`). */
  lemma LoginReleasesLoading(s: Session, token: Response<string>, profile: Response<UserRecord>)
    ensures !LoginSettled(LoginStarted(s), token, profile).loading
  {
  }

  /** Both requests succeed: header, both storage keys, the signed-in flag, the
      user and the route all change together, and no error is left. */
  lemma LoginSucceeds(s: Session, t: string, p: UserRecord)
    ensures var r := LoginSettled(LoginStarted(s), Ok(t), Ok(p));
      && r.authHeader == Some(BearerHeader(t))
      && r.storage == s.storage[TokenKey := t][UserKey := Json.Serialize(p)]
      && Json.Parse(r.storage[UserKey]) == Some(p)
      && r.isAuthenticated && r.user == Some(p)
      && r.location == LandingRoute
      && r.error == None && !r.loading
  {
    Json.ParseSerialize(p);
  }

  /** The token request fails: nothing but `error` and `loading` changes, and
      the error is the server's detail or "Login failed". */
  lemma TokenFailureKeepsSession(s: Session, d: Option<string>, profile: Response<UserRecord>)
    ensures var r := LoginSettled(LoginStarted(s), Err(d), profile);
      && r == s.(error := r.error, loading := false)
      && r.error == Some(if Truthy(d) then d.value else LoginFailed)
  {
  }

  /** The token arrives but the profile request fails: storage, the signed-in
      flag, the user and the route are as before, yet the process-wide header
      already carries the new token. */
  lemma ProfileFailureKeepsHeader(s: Session, t: string, d: Option<string>)
    ensures var r := LoginSettled(LoginStarted(s), Ok(t), Err(d));
      && r == s.(authHeader := Some(BearerHeader(t)), error := r.error, loading := false)
      && r.error == Some(if Truthy(d) then d.value else LoginFailed)
  {
  }

  /** So login is not all-or-nothing: after a failed profile fetch over a
      signed-in session, the header no longer matches the stored token. */
  lemma ProfileFailureSplitsHeaderFromStorage(s: Session, t: string, d: Option<string>)
    requires Consistent(s) && s.isAuthenticated
    requires t != s.storage[TokenKey]
    ensures var r := LoginSettled(LoginStarted(s), Ok(t), Err(d));
      && r.isAuthenticated
      && r.authHeader != Some(BearerHeader(r.storage[TokenKey]))
  {
    var r := LoginSettled(LoginStarted(s), Ok(t), Err(d));
    var h := BearerHeader(r.storage[TokenKey]);
    assert BearerHeader(t)[7..] == t;
    assert h[7..] == r.storage[TokenKey];
  }

  lemma LoginConsistent(s: Session, token: Response<string>, profile: Response<UserRecord>)
    requires Consistent(s)
    ensures Consistent(LoginSettled(LoginStarted(s), token, profile))
  {
    if token.Ok? && profile.Ok? {
      Json.ParseSerialize(profile.body);
    }
  }

  /** A successful login survives a page reload: restoring from what it stored
      signs the same user in again with the same header. */
  lemma ReloadAfterLogin(s: Session, t: string, p: UserRecord)
    requires t != ""
    ensures var saved := LoginSettled(LoginStarted(s), Ok(t), Ok(p));
      && WellFormedCache(saved.storage)
      && var r := Restored(Reloaded(saved));
      && r.isAuthenticated && r.user == Some(p) && r.authHeader == Some(BearerHeader(t))
      && !r.loading
  {
    var saved := LoginSettled(LoginStarted(s), Ok(t), Ok(p));
    var text := Json.Serialize(p);
    assert saved.storage == s.storage[TokenKey := t][UserKey := text];
    assert saved.storage[TokenKey] == t by {
      assert TokenKey != UserKey;
    }
    assert saved.storage[UserKey] == text;
    Json.ParseSerialize(p);
    Json.SerializeNonEmpty(p);
    assert HasStoredSession(saved.storage);
    assert WellFormedCache(saved.storage);
  }

  // ----- logout -----

  /** Logout removes both keys and the header, signs out, routes to the login
      view and leaves the error and everything else in storage alone. */
  lemma LogoutClears(s: Session)
    ensures var r := LoggedOut(s);
      && TokenKey !in r.storage && UserKey !in r.storage
      && (forall k :: k in s.storage && k != TokenKey && k != UserKey ==> k in r.storage && r.storage[k] == s.storage[k])
      && r.storage.Keys == s.storage.Keys - {TokenKey, UserKey}
      && r.authHeader == None && !r.isAuthenticated && r.user == None
      && r.location == LoginRoute && r.error == s.error && r.loading == s.loading
  {
  }

  lemma LogoutIdempotent(s: Session)
    ensures LoggedOut(LoggedOut(s)) == LoggedOut(s)
  {
  }

  lemma LogoutConsistent(s: Session)
    requires Consistent(s)
    ensures Consistent(LoggedOut(s))
  {
  }

  /** Login followed by logout leaves no saved session, whatever the outcomes. */
  lemma LoginThenLogout(s: Session, token: Response<string>, profile: Response<UserRecord>)
    ensures var r := LoggedOut(LoginSettled(LoginStarted(s), token, profile));
      && !HasStoredSession(r.storage) && !r.isAuthenticated && r.authHeader == None
  {
  }

  /** The provider's state, as fields that the handlers assign one at a time. */
  class SessionManager {
    var isAuthenticated: bool
    var user: Option<UserRecord>
    var loading: bool
    var error: Option<string>
    var storage: map<string, string>
    var authHeader: Option<string>
    var location: string

    function State(): Session
      reads this
    {
      Session(isAuthenticated, user, loading, error, storage, authHeader, location)
    }

    /** Mounting the provider over the browser's storage, header and route. */
    constructor (storage0: map<string, string>, authHeader0: Option<string>, location0: string)
      ensures State() == Mounted(storage0, authHeader0, location0)
    {
      isAuthenticated := false;
      user := None;
      loading := true;
      error := None;
      storage := storage0;
      authHeader := authHeader0;
      location := location0;
    }

    method Restore()
      requires WellFormedCache(storage)
      modifies this
      ensures State() == Restored(old(State()))
      ensures Consistent(old(State())) ==> Consistent(State())
    {
      var token := if TokenKey in storage then Some(storage[TokenKey]) else None;
      var userData := if UserKey in storage then Some(storage[UserKey]) else None;
      if Truthy(token) && Truthy(userData) {
        isAuthenticated := true;
        user := Json.Parse(userData.value);
        authHeader := Some(BearerHeader(token.value));
      }
      loading := false;
      if Consistent(old(State())) {
        RestoreConsistent(old(State()));
      }
    }

    method StartLogin()
      modifies this
      ensures State() == LoginStarted(old(State()))
    {
      loading := true;
      error := None;
    }

    method Login(username: string, password: string, token: Response<string>, profile: Response<UserRecord>)
      returns (sent: seq<Request>)
      modifies this
      ensures State() == LoginSettled(LoginStarted(old(State())), token, profile)
      ensures sent == LoginRequests(username, password, token)
      ensures Consistent(old(State())) ==> Consistent(State())
    {
      StartLogin();
      // the `detail` of the error caught by the `catch` block, if one was thrown
      var caught: Option<Option<string>> := None;
      sent := [TokenRequest([("username", username), ("password", password)])];
      match token {
        case Err(d) =>
          caught := Some(d);
        case Ok(accessToken) =>
          authHeader := Some(BearerHeader(accessToken));
          sent := sent + [ProfileRequest(authHeader)];
          match profile {
            case Err(d) =>
              caught := Some(d);
            case Ok(p) =>
              storage := storage[TokenKey := accessToken];
              storage := storage[UserKey := Json.Serialize(p)];
              isAuthenticated := true;
              user := Some(p);
              location := LandingRoute;
          }
      }
      if caught.Some? {
        error := Some(LoginErrorMessage(caught.value));
      }
      loading := false;
      if Consistent(old(State())) {
        LoginConsistent(old(State()), token, profile);
      }
    }

    method Logout()
      modifies this
      ensures State() == LoggedOut(old(State()))
      ensures Consistent(old(State())) ==> Consistent(State())
    {
      storage := storage - {TokenKey};
      storage := storage - {UserKey};
      authHeader := None;
      isAuthenticated := false;
      user := None;
      location := LoginRoute;
    }
  }
}
