/**
 * The session state machine (src/contexts/AuthContext.jsx).
 *
 * The provider keeps `user`, `token`, `refreshToken` and `loading` in
 * component state and the access token, refresh token and username in
 * durable storage. Each backend reply is a parameter of the operation that
 * waits for it. React state updates are taken to apply immediately and in
 * program order between operations. Within one operation, though, every
 * read of `token` goes through the closure the operation started in: a
 * `setToken` made along the way does not reach it. The operations that read
 * the token therefore take the value their closure captured (`seen`); a
 * component's call passes the current `token`.
 *
 * `Session` is a snapshot of that state together with the store and the
 * requests sent so far; the functions on it specify each operation and
 * carry its guarantees, and class `AuthProvider` performs the same steps on
 * its fields, proved equal to those functions.
 */
module AuthContext {
  import opened Wrappers
  import opened Api
  import opened Storage

  /** What a failed operation throws. */
  datatype AuthError =
    | AuthorizationFailed              // login reply not ok
    | ProfileUnavailable               // profile fetch after login failed
    | RefreshFailed                    // refresh reply not ok
    | RegistrationRejected(serverMessage: Option<string>)  // `errorData.message || default`
    | NetworkFailure                   // fetch rejected or body unreadable

  datatype Session = Session(
    user: Option<User>,
    token: Option<string>,
    refreshToken: Option<string>,
    loading: bool,
    store: map<string, string>,
    sent: seq<Request>)

  const AuthKeys: set<string> := {AccessTokenKey, RefreshTokenKey, UsernameKey}

  /** `isAuthenticated: !!user` */
  predicate Authenticated(s: Session)
  {
    s.user.Some?
  }

  /** A string-or-null value is truthy in JavaScript. */
  predicate Present(v: Option<string>)
  {
    v.Some? && v.value != ""
  }

  /** No auth key is left in the store. */
  predicate Cleared(store: map<string, string>)
  {
    AuthKeys !! store.Keys
  }

  /** The state right after mounting: tokens read from storage, no user, loading. */
  function Initial(store: map<string, string>): Session
  {
    Session(None, Get(store, AccessTokenKey), Get(store, RefreshTokenKey), true, store, [])
  }

  /**
   * `fetchUserProfile(username)`, run in a closure that captured `seen` as
   * `token`: never throws; sets `user` only on an ok reply.
   */
  function AfterProfileFetch(s: Session, username: string, seen: Option<string>, reply: ProfileReply)
    : (r: (Option<User>, Session))
    ensures r.0.Some? <==> reply.ProfileOk?
    ensures r.0.Some? ==> r.0 == Some(reply.user) && r.1.user == r.0 && Authenticated(r.1)
    ensures r.0.None? ==> r.1.user == s.user
    ensures r.1 == s.(user := r.1.user, sent := s.sent + [ProfileRequest(username, seen)])
  {
    var s1 := s.(sent := s.sent + [ProfileRequest(username, seen)]);
    match reply
    case ProfileOk(u) => (Some(u), s1.(user := Some(u)))
    case ProfileNotOk => (None, s1)
    case ProfileThrows => (None, s1)
  }

  /**
   * `logout()`, run in a closure that captured `seen` as `token`: posts to
   * the backend only while that token is truthy, swallows whatever happens
   * there, and always clears the three stored keys and the in-memory session.
   */
  function AfterLogout(s: Session, seen: Option<string>): (r: Session)
    ensures Cleared(r.store) && r.store == s.store - AuthKeys
    ensures r.user.None? && r.token.None? && r.refreshToken.None? && !Authenticated(r)
    ensures r.loading == s.loading
    ensures Present(seen) ==> r.sent == s.sent + [LogoutRequest(seen.value)]
    ensures !Present(seen) ==> r.sent == s.sent
  {
    var posted := if Present(seen) then [LogoutRequest(seen.value)] else [];
    Session(None, None, None, s.loading, s.store - AuthKeys, s.sent + posted)
  }

  /**
   * `refreshAccessToken()`: posts the in-memory refresh token, even when it
   * is null; on an ok reply stores and adopts both new tokens and returns
   * the access token, otherwise logs out (with the token it started with)
   * and rethrows.
   */
  function AfterRefresh(s: Session, reply: RefreshReply): (r: (Result<string, AuthError>, Session))
    ensures |r.1.sent| > |s.sent| && r.1.sent[|s.sent|] == RefreshRequest(s.refreshToken)
    ensures reply.RefreshOk? ==>
      && r.0 == Ok(reply.accessToken)
      && r.1.store == s.store[AccessTokenKey := reply.accessToken][RefreshTokenKey := reply.refreshToken]
      && r.1.token == Some(reply.accessToken) && r.1.refreshToken == Some(reply.refreshToken)
      && r.1.user == s.user && r.1.loading == s.loading
      && r.1.sent == s.sent + [RefreshRequest(s.refreshToken)]
    ensures !reply.RefreshOk? ==>
      r.0.Err? && r.1 == AfterLogout(s.(sent := s.sent + [RefreshRequest(s.refreshToken)]), s.token)
    ensures r.0.Err? ==> Cleared(r.1.store) && !Authenticated(r.1)
  {
    var s1 := s.(sent := s.sent + [RefreshRequest(s.refreshToken)]);
    match reply
    case RefreshOk(access, refresh) =>
      (Ok(access), s1.(store := s1.store[AccessTokenKey := access][RefreshTokenKey := refresh],
                       token := Some(access), refreshToken := Some(refresh)))
    case RefreshNotOk => (Err(RefreshFailed), AfterLogout(s1, s.token))
    case RefreshThrows => (Err(NetworkFailure), AfterLogout(s1, s.token))
  }

  /** The store after an ok login reply. */
  function StoreLogin(store: map<string, string>, reply: LoginReply): map<string, string>
    requires reply.LoginOk?
  {
    store[AccessTokenKey := reply.accessToken][RefreshTokenKey := reply.refreshToken][UsernameKey := reply.username]
  }

  /**
   * `login(email, password)`: a rejected login changes nothing but sends the
   * request; an accepted one stores the three keys and adopts both tokens
   * before fetching the profile, and a failed profile fetch then throws
   * with the keys still stored and `user` as it was. The profile request
   * carries the token `login` started with, not the new one: it goes
   * through the same render's `fetchUserProfile`.
   */
  function AfterLogin(s: Session, email: string, password: string, reply: LoginReply, profile: ProfileReply)
    : (r: (Result<User, AuthError>, Session))
    ensures s.sent + [LoginRequest(email, password)] <= r.1.sent
    ensures !reply.LoginOk? ==> r.0.Err? && r.1 == s.(sent := s.sent + [LoginRequest(email, password)])
    ensures reply.LoginOk? ==>
      && r.1.store == StoreLogin(s.store, reply)
      && r.1.token == Some(reply.accessToken) && r.1.refreshToken == Some(reply.refreshToken)
      && r.1.sent == s.sent + [LoginRequest(email, password), ProfileRequest(reply.username, s.token)]
    ensures reply.LoginOk? && !profile.ProfileOk? ==> r.0 == Err(ProfileUnavailable) && r.1.user == s.user
    ensures r.0.Ok? <==> reply.LoginOk? && profile.ProfileOk?
    ensures r.0.Ok? ==> r.0 == Ok(profile.user) && r.1.user == Some(profile.user) && Authenticated(r.1)
    ensures r.1.loading == s.loading
  {
    var s1 := s.(sent := s.sent + [LoginRequest(email, password)]);
    match reply
    case LoginNotOk => (Err(AuthorizationFailed), s1)
    case LoginThrows => (Err(NetworkFailure), s1)
    case LoginOk(access, refresh, username) =>
      var s2 := s1.(store := StoreLogin(s1.store, reply), token := Some(access), refreshToken := Some(refresh));
      var (userData, s3) := AfterProfileFetch(s2, username, s.token, profile);
      assert s2.sent + [ProfileRequest(username, s.token)] ==
             s.sent + [LoginRequest(email, password), ProfileRequest(username, s.token)];
      if userData.None? then (Err(ProfileUnavailable), s3) else (Ok(userData.value), s3)
  }

  /**
   * `register(registerData)`: only an ok reply leads to a login, with the
   * registration's email and password; otherwise it throws having sent only
   * the registration.
   */
  function AfterRegister(s: Session, data: Registration, reply: RegisterReply, login: LoginReply, profile: ProfileReply)
    : (r: (Result<User, AuthError>, Session))
    ensures s.sent + [RegisterRequest(data)] <= r.1.sent
    ensures reply.RegisterOk? ==>
      r == AfterLogin(s.(sent := s.sent + [RegisterRequest(data)]), data.email, data.password, login, profile)
    ensures !reply.RegisterOk? ==> r.0.Err? && r.1 == s.(sent := s.sent + [RegisterRequest(data)])
    ensures reply.RegisterNotOk? ==> r.0 == Err(RegistrationRejected(ServerMessage(reply.message)))
    ensures r.0.Ok? ==> reply.RegisterOk? && Authenticated(r.1)
  {
    var s1 := s.(sent := s.sent + [RegisterRequest(data)]);
    match reply
    case RegisterOk =>
      AfterLogin(s1, data.email, data.password, login, profile)
    case RegisterNotOk(message) => (Err(RegistrationRejected(ServerMessage(message))), s1)
    case RegisterThrows => (Err(NetworkFailure), s1)
  }

  /** All three stored keys are present and non-empty. */
  predicate AllSaved(store: map<string, string>)
  {
    Present(Get(store, AccessTokenKey)) && Present(Get(store, RefreshTokenKey)) && Present(Get(store, UsernameKey))
  }

  /** No two requests of `reqs` are refreshes. */
  predicate AtMostOneRefresh(reqs: seq<Request>)
  {
    forall i, j :: 0 <= i < j < |reqs| ==> !(reqs[i].RefreshRequest? && reqs[j].RefreshRequest?)
  }

  /**
   * The rest of `initAuth`'s `try` once the first profile fetch has
   * failed: refresh, then fetch the profile again; when the refresh throws
   * the `catch` logs out a second time. The effect's closures all captured
   * the token of the first render, so the second fetch sends the old token
   * and both logouts post with it.
   */
  function AfterRecovery(s: Session, username: string, refresh: RefreshReply, second: ProfileReply): (r: Session)
    ensures !refresh.RefreshOk? ==>
      && Cleared(r.store) && r.user.None? && r.token.None? && r.refreshToken.None?
      && r == AfterLogout(AfterRefresh(s, refresh).1, s.token)
      && (Present(s.token) ==> r.sent == s.sent + [RefreshRequest(s.refreshToken),
                                                   LogoutRequest(s.token.value), LogoutRequest(s.token.value)])
      && (!Present(s.token) ==> r.sent == s.sent + [RefreshRequest(s.refreshToken)])
    ensures refresh.RefreshOk? ==>
      && r.token == Some(refresh.accessToken) && r.refreshToken == Some(refresh.refreshToken)
      && r.store == s.store[AccessTokenKey := refresh.accessToken][RefreshTokenKey := refresh.refreshToken]
      && r.user == (if second.ProfileOk? then Some(second.user) else s.user)
      && r.sent == s.sent + [RefreshRequest(s.refreshToken), ProfileRequest(username, s.token)]
    ensures r.loading == s.loading
  {
    var (refreshed, s1) := AfterRefresh(s, refresh);
    if refreshed.Err? then AfterLogout(s1, s.token) else AfterProfileFetch(s1, username, s.token, second).1
  }

  /**
   * `initAuth()`: with all three keys stored, fetch the profile; if that
   * fails, refresh once and fetch once more, and log out when the refresh
   * throws. `loading` ends false on every path.
   */
  function AfterInitAuth(s: Session, first: ProfileReply, refresh: RefreshReply, second: ProfileReply): (r: Session)
    ensures !r.loading
    ensures !AllSaved(s.store) ==> r == s.(loading := false)
    ensures AllSaved(s.store) && first.ProfileOk? ==>
      r == s.(user := Some(first.user), loading := false,
               sent := s.sent + [ProfileRequest(s.store[UsernameKey], s.token)])
    ensures AllSaved(s.store) && !first.ProfileOk? ==>
      var s1 := s.(sent := s.sent + [ProfileRequest(s.store[UsernameKey], s.token)]);
      r == AfterRecovery(s1, s.store[UsernameKey], refresh, second).(loading := false)
  {
    if !AllSaved(s.store) then s.(loading := false)
    else
      var username := s.store[UsernameKey];
      var (userData, s1) := AfterProfileFetch(s, username, s.token, first);
      if userData.Some? then s1.(loading := false)
      else AfterRecovery(s1, username, refresh, second).(loading := false)
  }

  /**
   * Start-up sends at most four requests (profile, refresh, and then a
   * profile or two logouts) and never refreshes twice, however the backend
   * answers.
   */
  lemma InitAuthRefreshesAtMostOnce(s: Session, first: ProfileReply, refresh: RefreshReply, second: ProfileReply)
    ensures var r := AfterInitAuth(s, first, refresh, second);
      && s.sent <= r.sent && |r.sent| <= |s.sent| + 4
      && AtMostOneRefresh(r.sent[|s.sent|..])
  {
  }

  /**
   * Logging out twice from a component is logging out once: the second call
   * sees the cleared token, so it sends nothing and changes nothing.
   */
  lemma LogoutIsIdempotent(s: Session)
    ensures var s1 := AfterLogout(s, s.token); AfterLogout(s1, s1.token) == s1
  {
  }

  /** A successful login followed by a logout leaves no key behind and posts the logout with the new token. */
  lemma LoginThenLogout(s: Session, email: string, password: string, reply: LoginReply, profile: ProfileReply)
    requires reply.LoginOk? && reply.accessToken != ""
    ensures var s1 := AfterLogin(s, email, password, reply, profile).1; var s' := AfterLogout(s1, s1.token);
      && Cleared(s'.store) && !Authenticated(s')
      && s'.sent == AfterLogin(s, email, password, reply, profile).1.sent + [LogoutRequest(reply.accessToken)]
  {
  }

  /**
   * Stored tokens that the backend no longer accepts end start-up signed
   * out, having posted the logout twice with the token read at mount.
   */
  lemma RejectedStartupLogsOutTwice(store: map<string, string>, first: ProfileReply, refresh: RefreshReply,
                                    second: ProfileReply)
    requires AllSaved(store) && !first.ProfileOk? && !refresh.RefreshOk?
    ensures var s := Initial(store); var r := AfterInitAuth(s, first, refresh, second);
      && Cleared(r.store) && !Authenticated(r) && !r.loading
      && r.sent == [ProfileRequest(store[UsernameKey], Some(store[AccessTokenKey])),
                    RefreshRequest(Some(store[RefreshTokenKey])),
                    LogoutRequest(store[AccessTokenKey]), LogoutRequest(store[AccessTokenKey])]
  {
  }

  /**
   * `isAuthenticated` (`!!user`) becomes true only through an ok profile
   * reply, and a logout or a failed refresh makes it false.
   */
  lemma AuthenticatedOnlyThroughProfile(s: Session, username: string, seen: Option<string>, reply: ProfileReply,
                                        email: string, password: string, login: LoginReply, profile: ProfileReply,
                                        refresh: RefreshReply)
    ensures Authenticated(AfterProfileFetch(s, username, seen, reply).1) <==> reply.ProfileOk? || Authenticated(s)
    ensures Authenticated(AfterLogin(s, email, password, login, profile).1)
            <==> (login.LoginOk? && profile.ProfileOk?) || Authenticated(s)
    ensures Authenticated(AfterRefresh(s, refresh).1) <==> refresh.RefreshOk? && Authenticated(s)
    ensures !Authenticated(AfterLogout(s, seen))
  {
  }

  /** A registration that the backend refuses never sends a login request. */
  lemma RejectedRegistrationSendsNoLogin(s: Session, data: Registration, reply: RegisterReply,
                                         login: LoginReply, profile: ProfileReply)
    requires !reply.RegisterOk?
    ensures var r := AfterRegister(s, data, reply, login, profile);
      forall i :: |s.sent| <= i < |r.1.sent| ==> !r.1.sent[i].LoginRequest?
  {
  }

  /** The session provider, its durable store shared through `storage`. */
  class AuthProvider {
    var user: Option<User>
    var token: Option<string>
    var refreshToken: Option<string>
    var loading: bool
    var sent: seq<Request>
    const storage: LocalStorage

    function State(): Session
      reads this, storage
    {
      Session(user, token, refreshToken, loading, storage.items, sent)
    }

    /** The provider's `useState` initialisers. */
    constructor (storage: LocalStorage)
      ensures this.storage == storage
      ensures State() == Initial(storage.items)
    {
      this.storage := storage;
      user := None;
      token := Get(storage.items, AccessTokenKey);
      refreshToken := Get(storage.items, RefreshTokenKey);
      loading := true;
      sent := [];
    }

    /** The context's `isAuthenticated`. */
    predicate IsAuthenticated()
      reads this, storage
      ensures IsAuthenticated() <==> Authenticated(State())
    {
      user.Some?
    }

    method FetchUserProfile(username: string, seen: Option<string>, reply: ProfileReply) returns (userData: Option<User>)
      modifies this
      ensures (userData, State()) == AfterProfileFetch(old(State()), username, seen, reply)
    {
      sent := sent + [ProfileRequest(username, seen)];
      match reply {
        case ProfileOk(u) =>
          user := Some(u);
          return Some(u);
        case ProfileNotOk =>
          return None;
        case ProfileThrows =>
          return None;
      }
    }

    method Logout(seen: Option<string>)
      modifies this, storage
      ensures State() == AfterLogout(old(State()), seen)
    {
      if seen.Some? && seen.value != "" {
        sent := sent + [LogoutRequest(seen.value)];
      }
      storage.RemoveItem(AccessTokenKey);
      storage.RemoveItem(RefreshTokenKey);
      storage.RemoveItem(UsernameKey);
      assert storage.items == old(storage.items) - AuthKeys;
      token := None;
      refreshToken := None;
      user := None;
    }

    method RefreshAccessToken(reply: RefreshReply) returns (r: Result<string, AuthError>)
      modifies this, storage
      ensures (r, State()) == AfterRefresh(old(State()), reply)
    {
      sent := sent + [RefreshRequest(refreshToken)];
      match reply {
        case RefreshOk(access, refresh) =>
          storage.SetItem(AccessTokenKey, access);
          storage.SetItem(RefreshTokenKey, refresh);
          token := Some(access);
          refreshToken := Some(refresh);
          return Ok(access);
        case RefreshNotOk =>
          Logout(token);
          return Err(RefreshFailed);
        case RefreshThrows =>
          Logout(token);
          return Err(NetworkFailure);
      }
    }

    method Login(email: string, password: string, reply: LoginReply, profile: ProfileReply)
      returns (r: Result<User, AuthError>)
      modifies this, storage
      ensures (r, State()) == AfterLogin(old(State()), email, password, reply, profile)
    {
      var seen := token;
      sent := sent + [LoginRequest(email, password)];
      match reply {
        case LoginNotOk =>
          return Err(AuthorizationFailed);
        case LoginThrows =>
          return Err(NetworkFailure);
        case LoginOk(access, refresh, username) =>
          storage.SetItem(AccessTokenKey, access);
          storage.SetItem(RefreshTokenKey, refresh);
          storage.SetItem(UsernameKey, username);
          token := Some(access);
          refreshToken := Some(refresh);
          var userData := FetchUserProfile(username, seen, profile);
          if userData.None? {
            return Err(ProfileUnavailable);
          }
          return Ok(userData.value);
      }
    }

    method Register(data: Registration, reply: RegisterReply, login: LoginReply, profile: ProfileReply)
      returns (r: Result<User, AuthError>)
      modifies this, storage
      ensures (r, State()) == AfterRegister(old(State()), data, reply, login, profile)
    {
      sent := sent + [RegisterRequest(data)];
      match reply {
        case RegisterOk =>
          r := Login(data.email, data.password, login, profile);
        case RegisterNotOk(message) =>
          return Err(RegistrationRejected(ServerMessage(message)));
        case RegisterThrows =>
          return Err(NetworkFailure);
      }
    }

    /** The part of `initAuth` after a failed first profile fetch. */
    method Recover(username: string, refresh: RefreshReply, second: ProfileReply)
      modifies this, storage
      ensures State() == AfterRecovery(old(State()), username, refresh, second)
    {
      var seen := token;
      var refreshed := RefreshAccessToken(refresh);
      if refreshed.Err? {
        Logout(seen);
      } else {
        var _ := FetchUserProfile(username, seen, second);
      }
    }

    method InitAuth(first: ProfileReply, refresh: RefreshReply, second: ProfileReply)
      modifies this, storage
      ensures State() == AfterInitAuth(old(State()), first, refresh, second)
    {
      // the three `getItem` reads and their truthiness test
      if AllSaved(storage.items) {
        var username := storage.items[UsernameKey];
        var userData := FetchUserProfile(username, token, first);
        if userData.None? {
          Recover(username, refresh, second);
        }
      }
      loading := false;
    }
  }
}
