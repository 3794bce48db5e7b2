/**
 * Permission resolution (src/utils/roleUtils.js).
 *
 * A user is granted a permission directly, through `user.permissions`, or
 * through one of their roles, whose permission lists are fetched from
 * GET /roles/{roleId} and kept in a process-wide cache. A 401 reply to that
 * request is answered by refreshing the access token with the stored
 * refresh token and issuing the request again; every error makes the fetch
 * return the empty list, so resolution fails closed.
 *
 * The pure functions on `World` (a snapshot of the cache, the durable
 * store, the backend's pending replies and the requests sent so far) are
 * the specification; class `Resolver` holds the cache as a field and runs
 * the source's loops, each method proved equal to its function.
 */
module RoleUtils {
  import opened Wrappers
  import opened Api
  import opened Storage

  /** The `PERMISSIONS` the news pages ask about. */
  const CreateNews := "create:news"
  const UpdateNews := "update:news"
  const DeleteNews := "delete:news"

  /**
   * The replies the backend will give, in order: one role reply per
   * GET /roles/{id} and one refresh reply per POST /auth/refresh. When a
   * list is used up the backend is unreachable and `fetch` rejects.
   */
  datatype Network = Network(roleReplies: seq<RoleReply>, refreshReplies: seq<RefreshReply>)

  datatype World = World(
    cache: map<int, seq<Permission>>,
    store: map<string, string>,
    net: Network,
    sent: seq<Request>)

  /** What the inner `makeRequest` resolves to: the role body, or a thrown error. */
  datatype Fetched = Body(permissions: Option<seq<Permission>>) | Failure

  /** `perms.some(p => p.name === name)` */
  predicate HasName(perms: seq<Permission>, name: string)
  {
    exists i :: 0 <= i < |perms| && perms[i].name == name
  }

  /** Every entry of `c` is still in `c'`, with the same value. */
  predicate Extends(c: map<int, seq<Permission>>, c': map<int, seq<Permission>>)
  {
    forall k :: k in c ==> k in c' && c'[k] == c[k]
  }

  /** `s'` is `s`, except perhaps for a new value under "accessToken". */
  predicate OnlyAccessTokenWritten(s: map<string, string>, s': map<string, string>)
  {
    s' == s || (AccessTokenKey in s' && s' == s[AccessTokenKey := s'[AccessTokenKey]])
  }

  /** `localStorage.getItem('refreshToken')` is truthy. */
  predicate HasRefreshToken(store: map<string, string>)
  {
    RefreshTokenKey in store && store[RefreshTokenKey] != ""
  }

  /**
   * The inner `makeRequest(accessToken)`: one GET /roles/{roleId}; on a 401,
   * a refresh with the stored refresh token, the new access token written
   * to storage, and the request issued again. There is no retry counter:
   * the recursion ends because every round consumes a role reply.
   */
  function Exchange(w: World, roleId: int, bearer: Option<string>): (r: (Fetched, World))
    ensures r.1.cache == w.cache
    ensures OnlyAccessTokenWritten(w.store, r.1.store)
    ensures w.sent < r.1.sent && r.1.sent[|w.sent|] == RoleRequest(roleId, bearer)
    decreases |w.net.roleReplies|
  {
    var w0 := w.(sent := w.sent + [RoleRequest(roleId, bearer)]);
    if w.net.roleReplies == [] then (Failure, w0)
    else
      var w1 := w0.(net := w.net.(roleReplies := w.net.roleReplies[1..]));
      match w.net.roleReplies[0]
      case RoleOk(p) => (Body(p), w1)
      case RoleNotOk => (Failure, w1)
      case RoleThrows => (Failure, w1)
      case RoleUnauthorized =>
        if !HasRefreshToken(w1.store) then (Failure, w1)
        else
          var w2 := w1.(sent := w1.sent + [RefreshRequest(Some(w1.store[RefreshTokenKey]))]);
          if w2.net.refreshReplies == [] then (Failure, w2)
          else
            var w3 := w2.(net := w2.net.(refreshReplies := w2.net.refreshReplies[1..]));
            match w2.net.refreshReplies[0]
            case RefreshOk(token, _) =>
              var w4 := w3.(store := w3.store[AccessTokenKey := token]);
              var r' := Exchange(w4, roleId, Some(token));
              assert w.sent < w4.sent;
              r'
            case RefreshNotOk => (Failure, w3)
            case RefreshThrows => (Failure, w3)
  }

  /** `roleData.permissions || []` */
  function PermissionsOf(body: Option<seq<Permission>>): seq<Permission>
  {
    if body.Some? then body.value else []
  }

  /**
   * `fetchRolePermissions(roleId, token)`: the cached list when there is
   * one, with nothing sent; otherwise the fetched list, stored in the cache,
   * or `[]` with the cache untouched when the request fails.
   */
  function FetchResult(w: World, roleId: int, bearer: Option<string>): (r: (seq<Permission>, World))
    ensures roleId in w.cache ==> r == (w.cache[roleId], w)
    ensures roleId !in w.cache ==> |r.1.sent| > |w.sent| && r.1.sent[|w.sent|] == RoleRequest(roleId, bearer)
    ensures roleId !in w.cache && Exchange(w, roleId, bearer).0.Body? ==>
      r.1.cache == w.cache[roleId := PermissionsOf(Exchange(w, roleId, bearer).0.permissions)]
    ensures roleId !in w.cache && Exchange(w, roleId, bearer).0.Failure? ==>
      r.0 == [] && r.1.cache == w.cache
    ensures Extends(w.cache, r.1.cache) && r.1.cache.Keys <= w.cache.Keys + {roleId}
    ensures roleId in r.1.cache ==> r.0 == r.1.cache[roleId]
    ensures roleId !in r.1.cache ==> r.0 == []
    ensures OnlyAccessTokenWritten(w.store, r.1.store) && w.sent <= r.1.sent
  {
    if roleId in w.cache then (w.cache[roleId], w)
    else
      var (f, w1) := Exchange(w, roleId, bearer);
      match f
      case Body(p) => (PermissionsOf(p), w1.(cache := w1.cache[roleId := PermissionsOf(p)]))
      case Failure => ([], w1)
  }

  /** The role loop of `hasPermission`: stops at the first role that grants `name`. */
  function RoleCheck(w: World, roles: seq<Role>, name: string, bearer: Option<string>): (r: (bool, World))
    ensures Extends(w.cache, r.1.cache)
    ensures w.sent <= r.1.sent
    decreases |roles|
  {
    if roles == [] then (false, w)
    else
      var (perms, w1) := FetchResult(w, roles[0].id, bearer);
      if HasName(perms, name) then (true, w1)
      else RoleCheck(w1, roles[1..], name, bearer)
  }

  /** Reference: the lists fetched for every role, in order, with no early stop. */
  function FetchAll(w: World, roles: seq<Role>, bearer: Option<string>): (r: (seq<seq<Permission>>, World))
    ensures |r.0| == |roles|
    decreases |roles|
  {
    if roles == [] then ([], w)
    else
      var (perms, w1) := FetchResult(w, roles[0].id, bearer);
      var (rest, w2) := FetchAll(w1, roles[1..], bearer);
      ([perms] + rest, w2)
  }

  predicate DirectlyGranted(user: User, name: string)
  {
    user.permissions.Some? && HasName(user.permissions.value, name)
  }

  function RolesOf(user: User): seq<Role>
  {
    if user.roles.Some? then user.roles.value else []
  }

  /** `hasPermission(user, requiredPermission, token)` */
  function PermissionCheck(w: World, user: Option<User>, name: string, bearer: Option<string>): (r: (bool, World))
    ensures user.None? || name == "" ==> r == (false, w)
    ensures user.Some? && name != "" && DirectlyGranted(user.value, name) ==> r == (true, w)
    ensures Extends(w.cache, r.1.cache) && w.sent <= r.1.sent
  {
    if user.None? || name == "" then (false, w)
    else if DirectlyGranted(user.value, name) then (true, w)
    else if |RolesOf(user.value)| > 0 then RoleCheck(w, RolesOf(user.value), name, bearer)
    else (false, w)
  }

  /** Reference: every check of a list of names, in order, with no early stop. */
  function Checks(w: World, user: Option<User>, names: seq<string>, bearer: Option<string>): (r: (seq<bool>, World))
    ensures |r.0| == |names|
    decreases |names|
  {
    if names == [] then ([], w)
    else
      var (b, w1) := PermissionCheck(w, user, names[0], bearer);
      var (rest, w2) := Checks(w1, user, names[1..], bearer);
      ([b] + rest, w2)
  }

  /** The loop of `hasAllPermissions`: stops at the first name not granted. */
  function AllCheck(w: World, user: Option<User>, names: seq<string>, bearer: Option<string>): (r: (bool, World))
    decreases |names|
  {
    if names == [] then (true, w)
    else
      var (b, w1) := PermissionCheck(w, user, names[0], bearer);
      if !b then (false, w1) else AllCheck(w1, user, names[1..], bearer)
  }

  /** The loop of `hasAnyPermission`: stops at the first name granted. */
  function AnyCheck(w: World, user: Option<User>, names: seq<string>, bearer: Option<string>): (r: (bool, World))
    decreases |names|
  {
    if names == [] then (false, w)
    else
      var (b, w1) := PermissionCheck(w, user, names[0], bearer);
      if b then (true, w1) else AnyCheck(w1, user, names[1..], bearer)
  }

  /**
   * `hasAllPermissions(user, requiredPermissions, token)`: false for no
   * user or an empty list (not vacuously true); otherwise true exactly when
   * every name is granted, the checks made in order.
   */
  function AllResult(w: World, user: Option<User>, names: seq<string>, bearer: Option<string>): (r: (bool, World))
    ensures user.None? || names == [] ==> r == (false, w)
    ensures r.0 <==> user.Some? && names != [] && AllTrue(Checks(w, user, names, bearer).0)
  {
    if user.None? || names == [] then (false, w)
    else
      AllCheckIsConjunction(w, user, names, bearer);
      AllCheck(w, user, names, bearer)
  }

  /**
   * `hasAnyPermission(user, requiredPermissions, token)`: false for no user
   * or an empty list; otherwise true exactly when some name is granted, the
   * checks made in order.
   */
  function AnyResult(w: World, user: Option<User>, names: seq<string>, bearer: Option<string>): (r: (bool, World))
    ensures user.None? || names == [] ==> r == (false, w)
    ensures r.0 <==> user.Some? && names != [] && SomeTrue(Checks(w, user, names, bearer).0)
  {
    if user.None? || names == [] then (false, w)
    else
      AnyCheckIsDisjunction(w, user, names, bearer);
      AnyCheck(w, user, names, bearer)
  }

  /** `getUserPermissions(user)`: the permission names in order, `[]` when absent. */
  function GetUserPermissions(user: Option<User>): (r: seq<string>)
    ensures user.None? || user.value.permissions.None? ==> r == []
    ensures user.Some? && user.value.permissions.Some? ==>
      |r| == |user.value.permissions.value| &&
      forall i :: 0 <= i < |r| ==> r[i] == user.value.permissions.value[i].name
  {
    if user.None? || user.value.permissions.None? then []
    else PermissionNames(user.value.permissions.value)
  }

  function PermissionNames(perms: seq<Permission>): (r: seq<string>)
    ensures |r| == |perms| && forall i :: 0 <= i < |r| ==> r[i] == perms[i].name
  {
    seq(|perms|, i requires 0 <= i < |perms| => perms[i].name)
  }

  /** `getUserRoles(user)`: the role names in order, `[]` when absent. */
  function GetUserRoles(user: Option<User>): (r: seq<string>)
    ensures user.None? || user.value.roles.None? ==> r == []
    ensures user.Some? && user.value.roles.Some? ==>
      |r| == |user.value.roles.value| &&
      forall i :: 0 <= i < |r| ==> r[i] == user.value.roles.value[i].name
  {
    if user.None? || user.value.roles.None? then []
    else seq(|user.value.roles.value|, i requires 0 <= i < |user.value.roles.value| => user.value.roles.value[i].name)
  }

  /** A JavaScript value is truthy; here `None` stands for `undefined`. */
  predicate Truthy(v: Option<bool>)
  {
    v == Some(true)
  }

  /**
   * `hasRequiredRole(userRoles, requiredRoles)`: the body only has the
   * empty-list guard, so it returns `false` for a missing or empty list and
   * falls off the end (`undefined`) otherwise.
   */
  function HasRequiredRole(userRoles: Option<seq<string>>, requiredRoles: Option<seq<string>>): (r: Option<bool>)
    ensures !Truthy(r)
    ensures r == Some(false) <==>
      userRoles.None? || |userRoles.value| == 0 || requiredRoles.None? || |requiredRoles.value| == 0
    ensures r.None? <==> !(r == Some(false))
  {
    if userRoles.None? || |userRoles.value| == 0 || requiredRoles.None? || |requiredRoles.value| == 0
    then Some(false)
    else None
  }

  // ---------------------------------------------------------------------
  // Properties of the specification
  // ---------------------------------------------------------------------

  /** A 401 makes `makeRequest` post the stored refresh token and, on success, store the new access token and ask again with it. */
  lemma UnauthorizedTriggersRefresh(w: World, roleId: int, bearer: Option<string>)
    requires w.net.roleReplies != [] && w.net.roleReplies[0] == RoleUnauthorized
    ensures var r := Exchange(w, roleId, bearer);
      var w1 := w.(net := w.net.(roleReplies := w.net.roleReplies[1..]), sent := w.sent + [RoleRequest(roleId, bearer)]);
      && (!HasRefreshToken(w.store) ==> r == (Failure, w1))
      && (HasRefreshToken(w.store) ==>
           |r.1.sent| > |w.sent| + 1 && r.1.sent[|w.sent| + 1] == RefreshRequest(Some(w.store[RefreshTokenKey])))
      && (HasRefreshToken(w.store) && (w.net.refreshReplies == [] || !w.net.refreshReplies[0].RefreshOk?) ==>
           r.0 == Failure && r.1.store == w.store)
      && (HasRefreshToken(w.store) && w.net.refreshReplies != [] && w.net.refreshReplies[0].RefreshOk? ==>
           var token := w.net.refreshReplies[0].accessToken;
           r == Exchange(World(w.cache, w.store[AccessTokenKey := token],
                               Network(w.net.roleReplies[1..], w.net.refreshReplies[1..]),
                               w.sent + [RoleRequest(roleId, bearer), RefreshRequest(Some(w.store[RefreshTokenKey]))]),
                         roleId, Some(token)))
  {
    var w1 := w.(net := w.net.(roleReplies := w.net.roleReplies[1..]), sent := w.sent + [RoleRequest(roleId, bearer)]);
    if HasRefreshToken(w.store) && w.net.refreshReplies != [] && w.net.refreshReplies[0].RefreshOk? {
      var rt := w.store[RefreshTokenKey];
      assert w1.sent + [RefreshRequest(Some(rt))] == w.sent + [RoleRequest(roleId, bearer), RefreshRequest(Some(rt))];
    }
  }

  /** A 200 reply ends `makeRequest` with its body. */
  lemma OkReplyEndsExchange(w: World, roleId: int, bearer: Option<string>)
    requires w.net.roleReplies != [] && w.net.roleReplies[0].RoleOk?
    ensures Exchange(w, roleId, bearer) ==
      (Body(w.net.roleReplies[0].permissions),
       World(w.cache, w.store, Network(w.net.roleReplies[1..], w.net.refreshReplies), w.sent + [RoleRequest(roleId, bearer)]))
  {
  }

  /** The requests of `n` rounds of 401 and refresh, then the final request. */
  function Rounds(roleId: int, bearer: Option<string>, refreshToken: string, token: string, n: nat): (r: seq<Request>)
    ensures |r| == 2 * n + 1
    decreases n
  {
    if n == 0 then [RoleRequest(roleId, bearer)]
    else [RoleRequest(roleId, bearer), RefreshRequest(Some(refreshToken))] + Rounds(roleId, Some(token), refreshToken, token, n - 1)
  }

  function Repeat<T>(x: T, n: nat): (r: seq<T>)
    ensures |r| == n && forall i :: 0 <= i < n ==> r[i] == x
  {
    if n == 0 then [] else [x] + Repeat(x, n - 1)
  }

  lemma RepeatSplit<T>(x: T, n: nat, rest: seq<T>)
    requires n > 0
    ensures (Repeat(x, n) + rest)[0] == x
    ensures (Repeat(x, n) + rest)[1..] == Repeat(x, n - 1) + rest
  {
  }

  /** One round of 401 and successful refresh, as a step from `w` to the state of the next attempt. */
  lemma RetryStep(w: World, roleId: int, bearer: Option<string>, token: string, rotated: string)
    requires HasRefreshToken(w.store)
    requires w.net.roleReplies != [] && w.net.roleReplies[0] == RoleUnauthorized
    requires w.net.refreshReplies != [] && w.net.refreshReplies[0] == RefreshOk(token, rotated)
    ensures var w' := World(w.cache, w.store[AccessTokenKey := token],
                            Network(w.net.roleReplies[1..], w.net.refreshReplies[1..]),
                            w.sent + [RoleRequest(roleId, bearer), RefreshRequest(Some(w.store[RefreshTokenKey]))]);
      && Exchange(w, roleId, bearer) == Exchange(w', roleId, Some(token))
      && HasRefreshToken(w'.store) && w'.store[RefreshTokenKey] == w.store[RefreshTokenKey]
  {
    UnauthorizedTriggersRefresh(w, roleId, bearer);
    assert AccessTokenKey != RefreshTokenKey;
  }

  /** The state `makeRequest` ends in after `n` rounds of 401 and refresh and a final 200. */
  function AfterRetries(w: World, roleId: int, bearer: Option<string>, n: nat, token: string,
                        roleRest: seq<RoleReply>, refreshRest: seq<RefreshReply>): World
    requires HasRefreshToken(w.store)
  {
    World(w.cache,
          if n == 0 then w.store else w.store[AccessTokenKey := token],
          Network(roleRest, refreshRest),
          w.sent + Rounds(roleId, bearer, w.store[RefreshTokenKey], token, n))
  }

  /** After one round, `n - 1` more rounds from the new state end where `n` rounds from the old one do. */
  lemma AfterRetriesStep(w: World, roleId: int, bearer: Option<string>, n: nat, token: string,
                         roleRest: seq<RoleReply>, refreshRest: seq<RefreshReply>, w': World)
    requires HasRefreshToken(w.store) && n > 0
    requires w' == World(w.cache, w.store[AccessTokenKey := token], w'.net,
                         w.sent + [RoleRequest(roleId, bearer), RefreshRequest(Some(w.store[RefreshTokenKey]))])
    ensures HasRefreshToken(w'.store)
    ensures AfterRetries(w', roleId, Some(token), n - 1, token, roleRest, refreshRest) ==
            AfterRetries(w, roleId, bearer, n, token, roleRest, refreshRest)
  {
  }

  /**
   * There is no bound on the retries: `n` consecutive 401 replies, each
   * answered by a successful refresh, lead to `n` refreshes and `n + 1`
   * role requests, the last `n` of them with the refreshed token.
   */
  lemma {:induction false} RetriesOncePerUnauthorized(
    w: World, roleId: int, bearer: Option<string>, n: nat,
    token: string, rotated: string, perms: Option<seq<Permission>>,
    roleRest: seq<RoleReply>, refreshRest: seq<RefreshReply>)
    requires HasRefreshToken(w.store)
    requires w.net.roleReplies == Repeat(RoleUnauthorized, n) + ([RoleOk(perms)] + roleRest)
    requires w.net.refreshReplies == Repeat(RefreshOk(token, rotated), n) + refreshRest
    ensures Exchange(w, roleId, bearer) == (Body(perms), AfterRetries(w, roleId, bearer, n, token, roleRest, refreshRest))
    decreases n
  {
    if n == 0 {
      assert Repeat(RoleUnauthorized, 0) == [] && Repeat(RefreshOk(token, rotated), 0) == [];
      assert w.net.roleReplies == [RoleOk(perms)] + roleRest;
      assert w.net.roleReplies[1..] == roleRest && w.net.refreshReplies == refreshRest;
      OkReplyEndsExchange(w, roleId, bearer);
    } else {
      RepeatSplit(RoleUnauthorized, n, [RoleOk(perms)] + roleRest);
      RepeatSplit(RefreshOk(token, rotated), n, refreshRest);
      var w' := World(w.cache, w.store[AccessTokenKey := token],
                      Network(w.net.roleReplies[1..], w.net.refreshReplies[1..]),
                      w.sent + [RoleRequest(roleId, bearer), RefreshRequest(Some(w.store[RefreshTokenKey]))]);
      RetryStep(w, roleId, bearer, token, rotated);
      RetriesOncePerUnauthorized(w', roleId, Some(token), n - 1, token, rotated, perms, roleRest, refreshRest);
      AfterRetriesStep(w, roleId, bearer, n, token, roleRest, refreshRest, w');
    }
  }

  /** Fetching a role that a previous fetch stored sends nothing; fetching one whose fetch failed asks again. */
  lemma SecondFetchHitsCache(w: World, roleId: int, first: Option<string>, second: Option<string>)
    ensures var (perms, w1) := FetchResult(w, roleId, first);
      && (roleId in w1.cache ==> FetchResult(w1, roleId, second) == (perms, w1))
      && (roleId !in w1.cache ==> perms == [] && |FetchResult(w1, roleId, second).1.sent| > |w1.sent|)
  {
  }

  /** With every role's list cached, the role loop sends nothing and answers from the cache. */
  lemma {:induction false} CachedRolesNeedNoRequest(w: World, roles: seq<Role>, name: string, bearer: Option<string>)
    requires forall i :: 0 <= i < |roles| ==> roles[i].id in w.cache
    ensures RoleCheck(w, roles, name, bearer) ==
      ((exists i :: 0 <= i < |roles| && HasName(w.cache[roles[i].id], name)), w)
    decreases |roles|
  {
    if roles != [] {
      CachedRolesNeedNoRequest(w, roles[1..], name, bearer);
      if !HasName(w.cache[roles[0].id], name) {
        forall i | 0 <= i < |roles| && HasName(w.cache[roles[i].id], name)
          ensures 0 <= i - 1 < |roles[1..]| && HasName(w.cache[roles[1..][i - 1].id], name)
        {
          assert i != 0;
        }
      }
    }
  }

  /** Every remaining role reply is an error other than 401 (or there is none). */
  predicate AllFail(replies: seq<RoleReply>)
  {
    forall i :: 0 <= i < |replies| ==> replies[i].RoleNotOk? || replies[i].RoleThrows?
  }

  /** When every role fetch fails, no role grants anything and the cache stays as it was. */
  lemma {:induction false} FailedFetchesGrantNothing(w: World, roles: seq<Role>, name: string, bearer: Option<string>)
    requires forall i :: 0 <= i < |roles| ==> roles[i].id !in w.cache
    requires AllFail(w.net.roleReplies)
    ensures !RoleCheck(w, roles, name, bearer).0
    ensures RoleCheck(w, roles, name, bearer).1.cache == w.cache
    decreases |roles|
  {
    if roles != [] {
      var (perms, w1) := FetchResult(w, roles[0].id, bearer);
      assert Exchange(w, roles[0].id, bearer).0 == Failure;
      assert perms == [] && w1.cache == w.cache;
      assert w1.net.roleReplies == w.net.roleReplies || w1.net.roleReplies == w.net.roleReplies[1..];
      assert AllFail(w1.net.roleReplies);
      FailedFetchesGrantNothing(w1, roles[1..], name, bearer);
    }
  }

  /** `hasPermission` fails closed: with no direct grant and every role fetch failing, it is false. */
  lemma FailClosed(w: World, user: User, name: string, bearer: Option<string>)
    requires !DirectlyGranted(user, name)
    requires forall i :: 0 <= i < |RolesOf(user)| ==> RolesOf(user)[i].id !in w.cache
    requires AllFail(w.net.roleReplies)
    ensures !PermissionCheck(w, Some(user), name, bearer).0
    ensures PermissionCheck(w, Some(user), name, bearer).1.cache == w.cache
  {
    FailedFetchesGrantNothing(w, RolesOf(user), name, bearer);
  }

  /** Some list of `lists` holds `name`. */
  predicate SomeListHas(lists: seq<seq<Permission>>, name: string)
  {
    exists i :: 0 <= i < |lists| && HasName(lists[i], name)
  }

  lemma SomeListHasCons(perms: seq<Permission>, rest: seq<seq<Permission>>, name: string)
    ensures SomeListHas([perms] + rest, name) <==> HasName(perms, name) || SomeListHas(rest, name)
  {
    var all := [perms] + rest;
    assert all[0] == perms;
    if SomeListHas(all, name) && !HasName(perms, name) {
      var i :| 0 <= i < |all| && HasName(all[i], name);
      assert i != 0 && all[i] == rest[i - 1];
    }
    if SomeListHas(rest, name) {
      var j :| 0 <= j < |rest| && HasName(rest[j], name);
      assert all[j + 1] == rest[j];
    }
  }

  /** The role loop is true exactly when some role's list, fetched in order, holds `name`. */
  lemma {:induction false} RoleCheckIsSearch(w: World, roles: seq<Role>, name: string, bearer: Option<string>)
    ensures RoleCheck(w, roles, name, bearer).0 <==> SomeListHas(FetchAll(w, roles, bearer).0, name)
    decreases |roles|
  {
    if roles != [] {
      var (perms, w1) := FetchResult(w, roles[0].id, bearer);
      var rest := FetchAll(w1, roles[1..], bearer).0;
      assert FetchAll(w, roles, bearer).0 == [perms] + rest;
      RoleCheckIsSearch(w1, roles[1..], name, bearer);
      SomeListHasCons(perms, rest, name);
    }
  }

  /** The index of the first list holding `name`, or `|lists|` when none does. */
  function FirstHolding(lists: seq<seq<Permission>>, name: string): (k: nat)
    ensures k <= |lists|
    ensures forall j :: 0 <= j < k ==> !HasName(lists[j], name)
    ensures k < |lists| ==> HasName(lists[k], name)
    decreases |lists|
  {
    if lists == [] || HasName(lists[0], name) then 0 else 1 + FirstHolding(lists[1..], name)
  }

  /** The index of the first `v` in `bs`, or `|bs|` when there is none. */
  function FirstIs(bs: seq<bool>, v: bool): (k: nat)
    ensures k <= |bs|
    ensures forall j :: 0 <= j < k ==> bs[j] != v
    ensures k < |bs| ==> bs[k] == v
    decreases |bs|
  {
    if bs == [] || bs[0] == v then 0 else 1 + FirstIs(bs[1..], v)
  }

  /** How many of `n` entries a search reads when it stops at index `k` (or, when `k == n`, reads all). */
  function Scanned(k: nat, n: nat): nat
  {
    if k < n then k + 1 else n
  }

  // The loops above share one shape: a left-to-right scan that threads the
  // state through a step and may stop early. `Find`, `Collect`, `Until`
  // and `Each` are that shape over any step, so that what the scan does is
  // proved once, without unfolding the fetch the step stands for.

  /** A step that fetches one role's list. */
  function FetchStep(bearer: Option<string>): (World, int) -> (seq<Permission>, World)
  {
    (s: World, id: int) => FetchResult(s, id, bearer)
  }

  /** The role loop over any step: stops at the first list holding `name`. */
  function Find(f: (World, int) -> (seq<Permission>, World), w: World, roles: seq<Role>, name: string): (bool, World)
    decreases |roles|
  {
    if roles == [] then (false, w)
    else
      var (perms, w1) := f(w, roles[0].id);
      if HasName(perms, name) then (true, w1) else Find(f, w1, roles[1..], name)
  }

  /** Every role's list over any step, with no early stop. */
  function Collect(f: (World, int) -> (seq<Permission>, World), w: World, roles: seq<Role>): (r: (seq<seq<Permission>>, World))
    ensures |r.0| == |roles|
    decreases |roles|
  {
    if roles == [] then ([], w)
    else
      var (perms, w1) := f(w, roles[0].id);
      var (rest, w2) := Collect(f, w1, roles[1..]);
      ([perms] + rest, w2)
  }

  lemma {:induction false} RoleCheckIsFind(w: World, roles: seq<Role>, name: string, bearer: Option<string>)
    ensures RoleCheck(w, roles, name, bearer) == Find(FetchStep(bearer), w, roles, name)
    decreases |roles|
  {
    if roles != [] {
      RoleCheckIsFind(FetchResult(w, roles[0].id, bearer).1, roles[1..], name, bearer);
    }
  }

  lemma {:induction false} FetchAllIsCollect(w: World, roles: seq<Role>, bearer: Option<string>)
    ensures FetchAll(w, roles, bearer) == Collect(FetchStep(bearer), w, roles)
    decreases |roles|
  {
    if roles != [] {
      FetchAllIsCollect(FetchResult(w, roles[0].id, bearer).1, roles[1..], bearer);
    }
  }

  lemma FirstHoldingStep(perms: seq<Permission>, rest: seq<seq<Permission>>, name: string)
    requires !HasName(perms, name)
    ensures FirstHolding([perms] + rest, name) == 1 + FirstHolding(rest, name)
  {
  }

  /** Collecting the first `m + 1` roles is one step, then collecting `m` more. */
  lemma CollectPrefixStep(f: (World, int) -> (seq<Permission>, World), w: World, roles: seq<Role>, m: nat)
    requires m < |roles|
    ensures Collect(f, w, roles[..m + 1]).1 == Collect(f, f(w, roles[0].id).1, roles[1..][..m]).1
  {
    assert roles[..m + 1][0] == roles[0] && roles[..m + 1][1..] == roles[1..][..m];
  }

  lemma {:induction false} FindStops(f: (World, int) -> (seq<Permission>, World), w: World, roles: seq<Role>, name: string)
    ensures var k := FirstHolding(Collect(f, w, roles).0, name);
      Find(f, w, roles, name) == (k < |roles|, Collect(f, w, roles[..Scanned(k, |roles|)]).1)
    decreases |roles|
  {
    if roles == [] {
      assert roles[..0] == [];
    } else {
      var (perms, w1) := f(w, roles[0].id);
      var rest := Collect(f, w1, roles[1..]).0;
      assert Collect(f, w, roles).0 == [perms] + rest;
      if HasName(perms, name) {
        assert ([perms] + rest)[0] == perms;
        CollectPrefixStep(f, w, roles, 0);
        assert roles[1..][..0] == [];
      } else {
        FindStops(f, w1, roles[1..], name);
        FirstHoldingStep(perms, rest, name);
        CollectPrefixStep(f, w, roles, Scanned(FirstHolding(rest, name), |roles| - 1));
      }
    }
  }

  /**
   * The role loop stops at the first granting role: its answer is whether
   * some role's list holds `name`, and the state it leaves is that of
   * fetching exactly the roles up to and including the first such role
   * (all of them when there is none).
   */
  lemma RoleCheckStopsAtFirstGrant(w: World, roles: seq<Role>, name: string, bearer: Option<string>)
    ensures var k := FirstHolding(FetchAll(w, roles, bearer).0, name);
      RoleCheck(w, roles, name, bearer) == (k < |roles|, FetchAll(w, roles[..Scanned(k, |roles|)], bearer).1)
  {
    var k := FirstHolding(FetchAll(w, roles, bearer).0, name);
    RoleCheckIsFind(w, roles, name, bearer);
    FetchAllIsCollect(w, roles, bearer);
    FetchAllIsCollect(w, roles[..Scanned(k, |roles|)], bearer);
    FindStops(FetchStep(bearer), w, roles, name);
  }

  /**
   * `hasPermission` in full: true exactly when the user is present, the
   * name is non-empty, and the name is granted directly or by some role's
   * fetched list; a direct grant sends nothing.
   */
  lemma PermissionCheckIsDirectOrRole(w: World, user: Option<User>, name: string, bearer: Option<string>)
    ensures PermissionCheck(w, user, name, bearer).0 <==>
      user.Some? && name != "" &&
      (DirectlyGranted(user.value, name) ||
       SomeListHas(FetchAll(w, RolesOf(user.value), bearer).0, name))
  {
    if user.Some? && name != "" && !DirectlyGranted(user.value, name) {
      RoleCheckIsSearch(w, RolesOf(user.value), name, bearer);
    }
  }

  /** A name listed by `getUserPermissions` is granted by `hasPermission` with nothing sent, and conversely for direct grants. */
  lemma ListedPermissionIsGranted(w: World, user: User, name: string, bearer: Option<string>)
    requires name != ""
    ensures name in GetUserPermissions(Some(user)) <==> DirectlyGranted(user, name)
    ensures name in GetUserPermissions(Some(user)) ==> PermissionCheck(w, Some(user), name, bearer) == (true, w)
  {
  }

  /** A user for whom `getUserRoles` is empty is answered from direct grants alone, with nothing sent. */
  lemma NoRolesNoRequest(w: World, user: User, name: string, bearer: Option<string>)
    requires GetUserRoles(Some(user)) == []
    ensures PermissionCheck(w, Some(user), name, bearer) == (name != "" && DirectlyGranted(user, name), w)
  {
  }

  predicate AllTrue(bs: seq<bool>)
  {
    forall i :: 0 <= i < |bs| ==> bs[i]
  }

  predicate SomeTrue(bs: seq<bool>)
  {
    exists i :: 0 <= i < |bs| && bs[i]
  }

  lemma TruthCons(b: bool, rest: seq<bool>)
    ensures AllTrue([b] + rest) <==> b && AllTrue(rest)
    ensures SomeTrue([b] + rest) <==> b || SomeTrue(rest)
  {
    var all := [b] + rest;
    assert all[0] == b;
    assert forall j :: 0 <= j < |rest| ==> all[j + 1] == rest[j];
    if SomeTrue(all) && !b {
      var i :| 0 <= i < |all| && all[i];
      assert i != 0 && all[i] == rest[i - 1];
    }
  }

  /** `hasAllPermissions`' loop is the conjunction of the checks made in order, and a true answer has made them all. */
  lemma {:induction false} AllCheckIsConjunction(w: World, user: Option<User>, names: seq<string>, bearer: Option<string>)
    ensures AllCheck(w, user, names, bearer).0 <==> AllTrue(Checks(w, user, names, bearer).0)
    ensures AllCheck(w, user, names, bearer).0 ==> AllCheck(w, user, names, bearer).1 == Checks(w, user, names, bearer).1
    decreases |names|
  {
    if names != [] {
      var (b, w1) := PermissionCheck(w, user, names[0], bearer);
      var rest := Checks(w1, user, names[1..], bearer).0;
      assert Checks(w, user, names, bearer).0 == [b] + rest;
      AllCheckIsConjunction(w1, user, names[1..], bearer);
      TruthCons(b, rest);
    }
  }

  /** `hasAnyPermission`' loop is the disjunction of the checks made in order, and a false answer has made them all. */
  lemma {:induction false} AnyCheckIsDisjunction(w: World, user: Option<User>, names: seq<string>, bearer: Option<string>)
    ensures AnyCheck(w, user, names, bearer).0 <==> SomeTrue(Checks(w, user, names, bearer).0)
    ensures !AnyCheck(w, user, names, bearer).0 ==> AnyCheck(w, user, names, bearer).1 == Checks(w, user, names, bearer).1
    decreases |names|
  {
    if names != [] {
      var (b, w1) := PermissionCheck(w, user, names[0], bearer);
      var rest := Checks(w1, user, names[1..], bearer).0;
      assert Checks(w, user, names, bearer).0 == [b] + rest;
      AnyCheckIsDisjunction(w1, user, names[1..], bearer);
      TruthCons(b, rest);
    }
  }

  /** A step that checks one permission name. */
  function CheckStep(user: Option<User>, bearer: Option<string>): (World, string) -> (bool, World)
  {
    (s: World, name: string) => PermissionCheck(s, user, name, bearer)
  }

  /** A scan over any step that stops at the first answer equal to `v`, telling whether it met one. */
  function Until(g: (World, string) -> (bool, World), w: World, names: seq<string>, v: bool): (bool, World)
    decreases |names|
  {
    if names == [] then (false, w)
    else
      var (b, w1) := g(w, names[0]);
      if b == v then (true, w1) else Until(g, w1, names[1..], v)
  }

  /** Every answer over any step, with no early stop. */
  function Each(g: (World, string) -> (bool, World), w: World, names: seq<string>): (r: (seq<bool>, World))
    ensures |r.0| == |names|
    decreases |names|
  {
    if names == [] then ([], w)
    else
      var (b, w1) := g(w, names[0]);
      var (rest, w2) := Each(g, w1, names[1..]);
      ([b] + rest, w2)
  }

  lemma {:induction false} ChecksIsEach(w: World, user: Option<User>, names: seq<string>, bearer: Option<string>)
    ensures Checks(w, user, names, bearer) == Each(CheckStep(user, bearer), w, names)
    decreases |names|
  {
    if names != [] {
      ChecksIsEach(PermissionCheck(w, user, names[0], bearer).1, user, names[1..], bearer);
    }
  }

  lemma {:induction false} AllCheckIsUntil(w: World, user: Option<User>, names: seq<string>, bearer: Option<string>)
    ensures var (found, w') := Until(CheckStep(user, bearer), w, names, false);
      AllCheck(w, user, names, bearer) == (!found, w')
    decreases |names|
  {
    if names != [] {
      AllCheckIsUntil(PermissionCheck(w, user, names[0], bearer).1, user, names[1..], bearer);
    }
  }

  lemma {:induction false} AnyCheckIsUntil(w: World, user: Option<User>, names: seq<string>, bearer: Option<string>)
    ensures AnyCheck(w, user, names, bearer) == Until(CheckStep(user, bearer), w, names, true)
    decreases |names|
  {
    if names != [] {
      AnyCheckIsUntil(PermissionCheck(w, user, names[0], bearer).1, user, names[1..], bearer);
    }
  }

  lemma FirstIsStep(b: bool, rest: seq<bool>, v: bool)
    requires b != v
    ensures FirstIs([b] + rest, v) == 1 + FirstIs(rest, v)
  {
  }

  /** Checking the first `m + 1` names is one step, then checking `m` more. */
  lemma EachPrefixStep(g: (World, string) -> (bool, World), w: World, names: seq<string>, m: nat)
    requires m < |names|
    ensures Each(g, w, names[..m + 1]).1 == Each(g, g(w, names[0]).1, names[1..][..m]).1
  {
    assert names[..m + 1][0] == names[0] && names[..m + 1][1..] == names[1..][..m];
  }

  lemma {:induction false} UntilStops(g: (World, string) -> (bool, World), w: World, names: seq<string>, v: bool)
    ensures var k := FirstIs(Each(g, w, names).0, v);
      Until(g, w, names, v) == (k < |names|, Each(g, w, names[..Scanned(k, |names|)]).1)
    decreases |names|
  {
    if names == [] {
      assert names[..0] == [];
    } else {
      var (b, w1) := g(w, names[0]);
      var rest := Each(g, w1, names[1..]).0;
      assert Each(g, w, names).0 == [b] + rest;
      if b == v {
        assert ([b] + rest)[0] == b;
        EachPrefixStep(g, w, names, 0);
        assert names[1..][..0] == [];
      } else {
        UntilStops(g, w1, names[1..], v);
        FirstIsStep(b, rest, v);
        EachPrefixStep(g, w, names, Scanned(FirstIs(rest, v), |names| - 1));
      }
    }
  }

  /**
   * `hasAllPermissions`' loop stops at the first name not granted: its
   * answer is whether there is none, and the state it leaves is that of
   * checking exactly the names up to and including that one.
   */
  lemma AllCheckStopsAtFirstFalse(w: World, user: Option<User>, names: seq<string>, bearer: Option<string>)
    ensures var k := FirstIs(Checks(w, user, names, bearer).0, false);
      AllCheck(w, user, names, bearer) == (k == |names|, Checks(w, user, names[..Scanned(k, |names|)], bearer).1)
  {
    var k := FirstIs(Checks(w, user, names, bearer).0, false);
    AllCheckIsUntil(w, user, names, bearer);
    ChecksIsEach(w, user, names, bearer);
    ChecksIsEach(w, user, names[..Scanned(k, |names|)], bearer);
    UntilStops(CheckStep(user, bearer), w, names, false);
  }

  /**
   * `hasAnyPermission`' loop stops at the first name granted: its answer
   * is whether there is one, and the state it leaves is that of checking
   * exactly the names up to and including it.
   */
  lemma AnyCheckStopsAtFirstTrue(w: World, user: Option<User>, names: seq<string>, bearer: Option<string>)
    ensures var k := FirstIs(Checks(w, user, names, bearer).0, true);
      AnyCheck(w, user, names, bearer) == (k < |names|, Checks(w, user, names[..Scanned(k, |names|)], bearer).1)
  {
    var k := FirstIs(Checks(w, user, names, bearer).0, true);
    AnyCheckIsUntil(w, user, names, bearer);
    ChecksIsEach(w, user, names, bearer);
    ChecksIsEach(w, user, names[..Scanned(k, |names|)], bearer);
    UntilStops(CheckStep(user, bearer), w, names, true);
  }

  /** Between clears the cache only grows, over any run of checks. */
  lemma {:induction false} ChecksOnlyGrowCache(w: World, user: Option<User>, names: seq<string>, bearer: Option<string>)
    ensures Extends(w.cache, Checks(w, user, names, bearer).1.cache)
    ensures Extends(w.cache, AllCheck(w, user, names, bearer).1.cache)
    ensures Extends(w.cache, AnyCheck(w, user, names, bearer).1.cache)
    decreases |names|
  {
    if names != [] {
      var (b, w1) := PermissionCheck(w, user, names[0], bearer);
      ChecksOnlyGrowCache(w1, user, names[1..], bearer);
    }
  }

  // ---------------------------------------------------------------------
  // The module's state and its loops
  // ---------------------------------------------------------------------

  /**
   * The role-permission cache (`rolePermissionsCache`) with the backend it
   * talks to and the durable store it shares with the session.
   */
  class Resolver {
    var cache: map<int, seq<Permission>>
    var net: Network
    var sent: seq<Request>
    const storage: LocalStorage

    function State(): World
      reads this, storage
    {
      World(cache, storage.items, net, sent)
    }

    constructor (storage: LocalStorage, net: Network)
      ensures this.storage == storage
      ensures State() == World(map[], storage.items, net, [])
    {
      this.storage := storage;
      cache := map[];
      this.net := net;
      sent := [];
    }

    /** The inner `makeRequest`, recursive on each 401. */
    method MakeRequest(roleId: int, accessToken: Option<string>) returns (f: Fetched)
      modifies this, storage
      ensures (f, State()) == Exchange(old(State()), roleId, accessToken)
      decreases |net.roleReplies|
    {
      sent := sent + [RoleRequest(roleId, accessToken)];
      if net.roleReplies == [] {
        return Failure;
      }
      var reply := net.roleReplies[0];
      net := net.(roleReplies := net.roleReplies[1..]);
      match reply {
        case RoleOk(p) =>
          return Body(p);
        case RoleNotOk =>
          return Failure;
        case RoleThrows =>
          return Failure;
        case RoleUnauthorized =>
          var refreshToken := Get(storage.items, RefreshTokenKey);
          if refreshToken.None? || refreshToken.value == "" {
            return Failure;
          }
          sent := sent + [RefreshRequest(refreshToken)];
          if net.refreshReplies == [] {
            return Failure;
          }
          var refresh := net.refreshReplies[0];
          net := net.(refreshReplies := net.refreshReplies[1..]);
          if !refresh.RefreshOk? {
            return Failure;
          }
          storage.SetItem(AccessTokenKey, refresh.accessToken);
          f := MakeRequest(roleId, Some(refresh.accessToken));
      }
    }

    /** `fetchRolePermissions(roleId, token)` */
    method FetchRolePermissions(roleId: int, token: Option<string>) returns (perms: seq<Permission>)
      modifies this, storage
      ensures (perms, State()) == FetchResult(old(State()), roleId, token)
    {
      if roleId in cache {
        return cache[roleId];
      }
      var roleData := MakeRequest(roleId, token);
      if roleData.Failure? {
        return [];
      }
      perms := PermissionsOf(roleData.permissions);
      cache := cache[roleId := perms];
    }

    /** `clearRolePermissionsCache()`: afterwards no role is cached. */
    method ClearRolePermissionsCache()
      modifies this`cache
      ensures cache == map[]
      ensures State() == old(State()).(cache := map[])
    {
      cache := map[];
    }

    /** `hasPermission(user, requiredPermission, token)` */
    method HasPermission(user: Option<User>, requiredPermission: string, token: Option<string>) returns (granted: bool)
      modifies this, storage
      ensures (granted, State()) == PermissionCheck(old(State()), user, requiredPermission, token)
    {
      if user.None? || requiredPermission == "" {
        return false;
      }
      var u := user.value;
      if u.permissions.Some? && HasName(u.permissions.value, requiredPermission) {
        return true;
      }
      if u.roles.Some? && |u.roles.value| > 0 {
        var roles := u.roles.value;
        var i := 0;
        while i < |roles|
          invariant 0 <= i <= |roles|
          invariant RoleCheck(old(State()), roles, requiredPermission, token) ==
                    RoleCheck(State(), roles[i..], requiredPermission, token)
        {
          var rolePermissions := FetchRolePermissions(roles[i].id, token);
          if HasName(rolePermissions, requiredPermission) {
            return true;
          }
          assert roles[i..][1..] == roles[i + 1..];
          i := i + 1;
        }
      }
      return false;
    }

    /** `hasAllPermissions(user, requiredPermissions, token)` */
    method HasAllPermissions(user: Option<User>, requiredPermissions: seq<string>, token: Option<string>) returns (granted: bool)
      modifies this, storage
      ensures (granted, State()) == AllResult(old(State()), user, requiredPermissions, token)
    {
      if user.None? || |requiredPermissions| == 0 {
        return false;
      }
      var i := 0;
      while i < |requiredPermissions|
        invariant 0 <= i <= |requiredPermissions|
        invariant AllCheck(old(State()), user, requiredPermissions, token) ==
                  AllCheck(State(), user, requiredPermissions[i..], token)
      {
        var b := HasPermission(user, requiredPermissions[i], token);
        if !b {
          return false;
        }
        assert requiredPermissions[i..][1..] == requiredPermissions[i + 1..];
        i := i + 1;
      }
      return true;
    }

    /** `hasAnyPermission(user, requiredPermissions, token)` */
    method HasAnyPermission(user: Option<User>, requiredPermissions: seq<string>, token: Option<string>) returns (granted: bool)
      modifies this, storage
      ensures (granted, State()) == AnyResult(old(State()), user, requiredPermissions, token)
    {
      if user.None? || |requiredPermissions| == 0 {
        return false;
      }
      var i := 0;
      while i < |requiredPermissions|
        invariant 0 <= i <= |requiredPermissions|
        invariant AnyCheck(old(State()), user, requiredPermissions, token) ==
                  AnyCheck(State(), user, requiredPermissions[i..], token)
      {
        var b := HasPermission(user, requiredPermissions[i], token);
        if b {
          return true;
        }
        assert requiredPermissions[i..][1..] == requiredPermissions[i + 1..];
        i := i + 1;
      }
      return false;
    }
  }
}
