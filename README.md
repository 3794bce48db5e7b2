# react-forum: session and permission core in Dafny

This project models the logic core of the react-forum front end, an
educational portal's news site. It covers six parts:

- **Permission resolver** (`role_utils.dfy`): roles' permission lists are
  fetched and cached. A 401 is answered with a token refresh and a retry.
  `hasPermission`, `hasAllPermissions` and `hasAnyPermission` fail closed, and
  the role check `hasRequiredRole` is a stub.
- **Session state machine** (`auth_context.dfy`): the provider's `user`,
  `token`, `refreshToken` and `loading`, plus the three keys kept in durable
  storage. Its operations are login, registration, refresh, logout, profile
  fetch and start-up restore.
- **News list page** (`home.dfy`): create validation, request bodies, the
  author checks behind the edit and delete buttons, and the page state the
  handlers change.
- **Single-news page** (`news_detail.dfy`): the permissions record built
  from two `hasPermission` checks, the update body, and the edit form's
  initial data.
- **Route guards** (`protected_route.dfy`, `role_based_route.dfy`): the
  loading / redirect / access-denied / children decisions.
- **Shared pieces** (`news.dfy`, `api.dfy`, `storage.dfy`, `wrappers.dfy`):
  news records, the edit copy of a record, `String.prototype.trim`, the
  backend's records and replies, and the key/value store.

The core's files do their work in two ways, and the model follows each:

- **The stateful parts** are classes whose fields the methods update.
  - `Resolver` holds the role cache.
  - `AuthProvider` holds the session state and shares a `LocalStorage` object.
  - `HomePage` and `DetailPage` hold the pages' component state.
- **Each method** is proved equal to a pure function over a snapshot value:
  - `World` for the resolver;
  - `Session` for the provider;
  - `Page` and `Detail` for the two pages.

  Lemmas about those functions state the properties the code promises.

How the model handles the network, time and concurrency:

- **Replies are inputs.**
  - The resolver's `Network` value holds, in order, the replies the backend
    will give: one list for role fetches, one for refreshes.
  - Every other backend call takes its reply as a parameter.
- **Sent requests are recorded.** Every request that goes out is appended
  to a `sent` log, so contracts can say what was posted and what was not.
- **State updates are sequential between operations.** React state updates
  are taken to apply at once and in program order, and a call from a
  component comes from the latest render.
- **Inside one operation, reads of `token` are the closure's.** An
  operation's nested calls (`fetchUserProfile`, `logout`) belong to the
  render the operation started in, so a `setToken` made along the way does
  not reach them. The model passes each of them the token its closure
  captured (`seen`).
- **JavaScript truthiness is written out.**
  - A string-or-null value is truthy when it is present and non-empty (`Present`).
  - An optional boolean is truthy only when it is `true` (`Truthy`).
  - A Promise is always truthy (`Gate` in `Home`).

Where the design description of the system and the code disagree, the model
follows the code:

- **Role fetch retries.** `fetchRolePermissions` retries once per 401, with
  no bound, rather than exactly once.
  - A run of 401 replies, each answered by a successful refresh, produces one
    refresh and one retry per 401 (`RetriesOncePerUnauthorized`).
  - The recursion ends only because each round consumes a reply.
- **`hasRequiredRole`** does no hierarchy comparison. It returns `false` for
  a missing or empty list and `undefined` otherwise. The role-based route
  therefore shows the access-denied panel to every signed-in user.
- **`refreshAccessToken`** posts the in-memory refresh token even when it is
  null.
- **Profile fetches** never refresh on a 401. Only start-up retries, with one
  refresh and one re-fetch.
- **`logout`** posts to the backend only when `token` is truthy. A stored
  empty string counts as no token.
- **A failed profile fetch after a successful login** leaves the three
  stored keys and both tokens in place, with `user` as it was.
- **Closures keep the old token.**
  - Login fetches the profile with the token held before the login, not the
    one it just received.
  - Start-up's second profile fetch, after a successful refresh, sends the
    token read at mount.
  - When start-up's refresh fails, both `logout()` calls post with the token
    read at mount, so the logout is posted twice.

## Model

| member | source | states |
|---|---|---|
| RoleUtils.Exchange | src/utils/roleUtils.js:30-68 | the inner `makeRequest` always sends the role request first, with the token it was given. It never touches the cache, and it writes at most a new `accessToken` to storage |
| RoleUtils.UnauthorizedTriggersRefresh | src/utils/roleUtils.js:37-61 | on a 401, a missing or empty stored refresh token fails with nothing more sent. Otherwise the stored refresh token is posted next. A missing or non-ok refresh reply fails with storage unchanged. An ok reply writes only the new access token and repeats the request with it |
| RoleUtils.OkReplyEndsExchange | src/utils/roleUtils.js:30-68 | a 200 reply ends `makeRequest` with its body, one request sent and nothing else changed |
| RoleUtils.RetriesOncePerUnauthorized | src/utils/roleUtils.js:37-61 | `n` consecutive 401 replies, each followed by a successful refresh, lead to `n + 1` role requests and `n` refreshes, in alternation. The last `n` role requests carry the new token, and the final body is returned |
| RoleUtils.FetchResult | src/utils/roleUtils.js:23-81 | a cached role returns its list with nothing sent. Otherwise the request is sent: a body stores `permissions`, or `[]` when that field is absent, under the role id; a failure returns `[]` and keeps the cache as it was. The cache only gains this one key |
| RoleUtils.SecondFetchHitsCache | src/utils/roleUtils.js:23-81 | fetching a role a second time sends nothing when the first fetch stored it. It asks again when the first fetch failed |
| RoleUtils.Resolver.constructor | src/utils/roleUtils.js:20 | the cache starts empty and nothing has been sent |
| RoleUtils.Resolver.MakeRequest | src/utils/roleUtils.js:30-68 | the recursive method's result and new state are exactly those of `Exchange` |
| RoleUtils.Resolver.FetchRolePermissions | src/utils/roleUtils.js:23-81 | the method's result and new state are exactly those of `FetchResult` |
| RoleUtils.Resolver.ClearRolePermissionsCache | src/utils/roleUtils.js:84-86 | afterwards no role is cached, and nothing else changes |
| RoleUtils.PermissionCheck | src/utils/roleUtils.js:96-125 | `hasPermission` is false, with nothing sent, for a missing user or an empty name. It is true, with nothing sent, for a direct grant. The cache only grows |
| RoleUtils.PermissionCheckIsDirectOrRole | src/utils/roleUtils.js:96-125 | `hasPermission` is true iff the user is present, the name is non-empty, and the name is granted directly or by some role's list fetched in order |
| RoleUtils.RoleCheckIsSearch | src/utils/roleUtils.js:111-124 | the role loop is true iff some role's fetched list holds the name |
| RoleUtils.RoleCheckStopsAtFirstGrant | src/utils/roleUtils.js:111-124 | the role loop fetches exactly the roles up to and including the first granting one, or all of them when none grants, and ends in the state of those fetches alone |
| RoleUtils.CachedRolesNeedNoRequest | src/utils/roleUtils.js:111-124 | with every role cached, the loop sends nothing and answers from the cache |
| RoleUtils.FailedFetchesGrantNothing | src/utils/roleUtils.js:77-80 | with no role cached and every remaining role reply a non-401 error, the loop is false and the cache is unchanged |
| RoleUtils.FailClosed | src/utils/roleUtils.js:96-125 | with no direct grant, no role cached and every remaining role reply a non-401 error, `hasPermission` is false and the cache is unchanged |
| RoleUtils.NoRolesNoRequest | src/utils/roleUtils.js:111 | a user with no roles is answered from direct grants alone, with nothing sent |
| RoleUtils.Resolver.HasPermission | src/utils/roleUtils.js:96-125 | the loop method's result and new state are exactly those of `PermissionCheck` |
| RoleUtils.AllResult | src/utils/roleUtils.js:128-141 | `hasAllPermissions` is false, with nothing sent, for a missing user or an empty list. Otherwise it is true iff every name's check, made in order, is true |
| RoleUtils.AnyResult | src/utils/roleUtils.js:144-157 | `hasAnyPermission` is false, with nothing sent, for a missing user or an empty list. Otherwise it is true iff some name's check is true |
| RoleUtils.AllCheckIsConjunction | src/utils/roleUtils.js:133-140 | the loop is the conjunction of the checks in order, and a true answer has made every check |
| RoleUtils.AnyCheckIsDisjunction | src/utils/roleUtils.js:149-156 | the loop is the disjunction of the checks in order, and a false answer has made every check |
| RoleUtils.AllCheckStopsAtFirstFalse | src/utils/roleUtils.js:133-140 | the loop checks exactly the names up to and including the first one not granted, and answers whether there is none |
| RoleUtils.AnyCheckStopsAtFirstTrue | src/utils/roleUtils.js:149-156 | the loop checks exactly the names up to and including the first one granted, and answers whether there is one |
| RoleUtils.ChecksOnlyGrowCache | src/utils/roleUtils.js:73-76 | over any run of checks, no cache entry is removed or changed |
| RoleUtils.Resolver.HasAllPermissions | src/utils/roleUtils.js:128-141 | the loop method's result and new state are exactly those of `AllResult` |
| RoleUtils.Resolver.HasAnyPermission | src/utils/roleUtils.js:144-157 | the loop method's result and new state are exactly those of `AnyResult` |
| RoleUtils.GetUserPermissions | src/utils/roleUtils.js:160-165 | the permission names in input order, or `[]` when there is no user or no `permissions` field |
| RoleUtils.GetUserRoles | src/utils/roleUtils.js:168-173 | the role names in input order, or `[]` when there is no user or no `roles` field |
| RoleUtils.ListedPermissionIsGranted | src/utils/roleUtils.js:160-165 | a name is listed by `getUserPermissions` iff it is granted directly. When it is listed, `hasPermission` is true with nothing sent |
| RoleUtils.HasRequiredRole | src/utils/roleUtils.js:89-93 | never truthy. It is `false` exactly when either list is missing or empty, and `undefined` otherwise |
| AuthContext.AfterProfileFetch | src/contexts/AuthContext.jsx:15-34 | sends the profile request with the token its closure captured and never throws. It returns and sets `user` exactly on an ok reply; otherwise it returns null and leaves `user` as it was |
| AuthContext.AfterLogout | src/contexts/AuthContext.jsx:126-146 | posts the logout only while the token its closure captured is truthy. It always removes the three stored keys and nulls `user` and both tokens, so the session is no longer authenticated |
| AuthContext.LogoutIsIdempotent | src/contexts/AuthContext.jsx:126-146 | logging out twice from a component is logging out once: the second call sees no token and posts nothing |
| AuthContext.AfterRefresh | src/contexts/AuthContext.jsx:37-62 | always posts the in-memory refresh token, even null. An ok reply stores and adopts both new tokens and returns the access token, with only the refresh sent. Any failure throws, with the state that of logging out, with the token it started with, after the post |
| AuthContext.AfterLogin | src/contexts/AuthContext.jsx:64-99 | a rejected login throws with only the request sent. An accepted one stores the three keys and adopts both tokens, then fetches the profile with the token held before the login. If that fetch fails, it throws with the keys kept and `user` unchanged. It succeeds exactly when both replies are ok, and then returns and sets the profile's user |
| AuthContext.LoginThenLogout | src/contexts/AuthContext.jsx:126-146 | after a successful login, a component's logout leaves no stored key and posts the logout with the new access token |
| AuthContext.AfterRegister | src/contexts/AuthContext.jsx:101-124 | only an ok reply leads to a login, with the registration's email and password. Otherwise it throws with only the registration sent; a rejection carries the server's message or the default |
| Api.ServerMessage | src/contexts/AuthContext.jsx:112-113 | `errorData.message || default`: the server's message exactly when it is a non-empty string, else the default |
| AuthContext.RejectedRegistrationSendsNoLogin | src/contexts/AuthContext.jsx:111-119 | a refused registration sends no login request |
| AuthContext.AfterRecovery | src/contexts/AuthContext.jsx:159-167 | after a failed first profile fetch, start-up refreshes. On success it adopts the new tokens and fetches the profile once more, with the token read at mount. On failure the session ends logged out and cleared, and the logout is posted twice with the mount token when that token is truthy |
| AuthContext.AfterInitAuth | src/contexts/AuthContext.jsx:150-171 | start-up does nothing unless all three stored keys are truthy. It keeps the first profile when that fetch succeeds and recovers otherwise. `loading` ends false on every path |
| AuthContext.InitAuthRefreshesAtMostOnce | src/contexts/AuthContext.jsx:155-168 | start-up sends at most four requests, with at most one refresh among them, whatever the replies |
| AuthContext.RejectedStartupLogsOutTwice | src/contexts/AuthContext.jsx:155-168 | from the mount state, stored tokens whose profile fetch and refresh both fail end signed out and cleared, after exactly profile, refresh and two logouts with the stored token |
| AuthContext.AuthenticatedOnlyThroughProfile | src/contexts/AuthContext.jsx:184 | `isAuthenticated` becomes true only through an ok profile reply (a fetch, or a login with both replies ok) and otherwise keeps its value; a failed refresh and a logout make it false |
| AuthContext.AuthProvider.IsAuthenticated | src/contexts/AuthContext.jsx:184 | the context's `isAuthenticated` is the snapshot's `Authenticated`: there is a user |
| AuthContext.AuthProvider.constructor | src/contexts/AuthContext.jsx:9-12 | no user, both tokens read from storage, loading |
| AuthContext.AuthProvider.FetchUserProfile | src/contexts/AuthContext.jsx:15-34 | result and new state are exactly those of `AfterProfileFetch` |
| AuthContext.AuthProvider.Logout | src/contexts/AuthContext.jsx:126-146 | new state and store are exactly those of `AfterLogout` with the same captured token |
| AuthContext.AuthProvider.RefreshAccessToken | src/contexts/AuthContext.jsx:37-62 | result, new state and store are exactly those of `AfterRefresh` |
| AuthContext.AuthProvider.Login | src/contexts/AuthContext.jsx:64-99 | result, new state and store are exactly those of `AfterLogin` |
| AuthContext.AuthProvider.Register | src/contexts/AuthContext.jsx:101-124 | result, new state and store are exactly those of `AfterRegister` |
| AuthContext.AuthProvider.Recover | src/contexts/AuthContext.jsx:159-167 | new state and store are exactly those of `AfterRecovery` |
| AuthContext.AuthProvider.InitAuth | src/contexts/AuthContext.jsx:150-171 | new state and store are exactly those of `AfterInitAuth` |
| News.EditCopy | src/pages/Home/Home.jsx:141-146 | the edit copy keeps the whole record. Its `imageUrl` is the first image, or `''` when there is none |
| News.Trim | src/pages/Home/Home.jsx:71-72 | `trim` gives `''` exactly for an all-whitespace string. Otherwise the result is the string between its leading and trailing whitespace, and neither starts nor ends with whitespace |
| News.TrimIsIdempotent | src/pages/Home/Home.jsx:71-72 | trimming twice is trimming once |
| Home.CanUpdateNews | src/pages/Home/Home.jsx:20-24 | the edit button shows exactly when `authorId === user?.id`, since the permission check is an unawaited, always-truthy Promise |
| Home.CanDeleteNews | src/pages/Home/Home.jsx:26-30 | the delete button shows exactly when `authorId === user?.id`, for the same reason |
| Home.ButtonsIgnorePermissions | src/pages/Home/Home.jsx:20-30 | two users with the same id see the same buttons, whatever their permissions |
| Home.AnonymousSeesAuthorless | src/pages/Home/Home.jsx:20-30 | with nobody logged in, the buttons show exactly on items with no `authorId` |
| Home.CreateButton | src/pages/Home/Home.jsx:166-173 | the create button shows exactly when no item is being edited, whoever is signed in, since `canCreateNews` (line 16) is an unawaited, always-truthy Promise for `create:news` |
| News.InitialForm | src/components/NewsForm/NewsForm.jsx:5-9 | the form starts from the draft's title, image and content; with no `initialData` (the create form) every field starts `''` |
| Home.CreateBody | src/pages/Home/Home.jsx:54-74 | rejects a blank title, then blank content, then an empty image, in that order: each error holds iff its check is the first to fail. An accepted body has the trimmed, non-empty title and content and `images = [imageUrl]` |
| Home.InvalidCreateSendsNothing | src/pages/Home/Home.jsx:54-62 | a create form that fails validation sets an error and sends and reloads nothing |
| Home.SentCreateIsValid | src/pages/Home/Home.jsx:64-74 | every create request sent has a non-empty title and content not starting with whitespace, and exactly one non-empty image |
| Home.UpdateBody | src/pages/Home/Home.jsx:122-126 | the update body copies title and content. `images` is `[imageUrl]` for a non-empty `imageUrl`, else `[]` |
| Home.UnchangedEditKeepsFirstImage | src/pages/Home/Home.jsx:122-126 | saving an edit copy untouched keeps title and content and only the first image. An item whose first image is `''`, or that has none, loses all its images |
| Home.AfterCreate | src/pages/Home/Home.jsx:51-88 | a validation error is set with nothing sent; otherwise the body is posted. An ok reply closes the form and reloads; a non-ok reply sets the server's message or the default; a failure sets a network error |
| Home.AfterUpdate | src/pages/Home/Home.jsx:114-139 | with no item being edited, reading `editingNews.id` throws and sets the error with nothing sent. Otherwise the body is sent for that item's id: an ok reply ends editing and reloads, any failure sets the error |
| Home.HomePage.constructor | src/pages/Home/Home.jsx:11-13 | no error, create form closed, nothing being edited |
| Home.HomePage.HandleCreateNews | src/pages/Home/Home.jsx:51-88 | the new page state is exactly that of `AfterCreate` |
| Home.HomePage.HandleUpdateNews | src/pages/Home/Home.jsx:114-139 | the new page state is exactly that of `AfterUpdate` |
| Home.HomePage.HandleEditClick | src/pages/Home/Home.jsx:141-146 | the item's edit copy becomes `editingNews`, and nothing else changes |
| NewsDetail.LoadedPermissions | src/pages/NewsDetail/NewsDetail.jsx:22-35 | with no user or no record, nothing changes. Otherwise the update check runs, then the delete check. `canUpdate` holds iff the first is granted and the user wrote the record, and `canDelete` likewise for the second. The cache only grows |
| NewsDetail.OnlyTheAuthorMayEdit | src/pages/NewsDetail/NewsDetail.jsx:26-29 | someone who did not write the record gets neither permission |
| NewsDetail.CanUpdateIsAuthorshipAndGrant | src/pages/NewsDetail/NewsDetail.jsx:26-27 | `canUpdate` holds iff the user wrote the record and holds `update:news` directly or through a role |
| NewsDetail.CanDeleteIsAuthorshipAndGrant | src/pages/NewsDetail/NewsDetail.jsx:28-29 | `canDelete` holds iff the user wrote the record and holds `delete:news` directly or through a role, the lists read after the update check |
| NewsDetail.DirectGrantsNeedNoRequest | src/pages/NewsDetail/NewsDetail.jsx:26-29 | an author granted both permissions directly gets both with nothing sent |
| NewsDetail.DetailUpdateBody | src/pages/NewsDetail/NewsDetail.jsx:67-71 | a non-empty `imageUrl` becomes `[imageUrl]`; otherwise the record's own `images` are kept. With no record loaded, reading `news.images` throws and there is no body |
| NewsDetail.EditFormStartsFromRecord | src/pages/NewsDetail/NewsDetail.jsx:134-137 | the edit form starts from the record's title and content and its first image, or `''` |
| NewsDetail.UnchangedEditKeepsImages | src/pages/NewsDetail/NewsDetail.jsx:67-71 | saving the edit form untouched keeps the record's images when its first image is `''` or missing, and keeps only the first image otherwise |
| NewsDetail.AfterUpdate | src/pages/NewsDetail/NewsDetail.jsx:59-84 | the PATCH goes to the route's id. An ok reply adopts the returned record and ends editing; a failure sets the error. The permissions record never changes |
| NewsDetail.DetailPage.constructor | src/pages/NewsDetail/NewsDetail.jsx:12-19 | no record, no error, not editing, both permissions false |
| NewsDetail.DetailPage.LoadPermissions | src/pages/NewsDetail/NewsDetail.jsx:22-35 | the new permissions and resolver state are exactly those of `LoadedPermissions` |
| NewsDetail.DetailPage.HandleUpdateNews | src/pages/NewsDetail/NewsDetail.jsx:59-84 | the new page state is exactly that of `AfterUpdate` |
| ProtectedRoute.Guard | src/components/ProtectedRoute/ProtectedRoute.jsx:10-18 | exactly one outcome. Loading iff `loading`. Otherwise a redirect to `/login`, carrying the location and `replace`, iff there is no user; the children iff there is one |
| ProtectedRoute.GuardSeesOnlyPresence | src/components/ProtectedRoute/ProtectedRoute.jsx:14-16 | the outcome depends on `user` only through whether there is one |
| RoleBasedRoute.RoleGuard | src/components/RoleBasedRoute/RoleBasedRoute.jsx:11-36 | loading, then the login redirect, then access denied iff `hasRequiredRole(user.role, allowedRoles)` is falsy, else the children |
| RoleBasedRoute.EverySignedInUserIsDenied | src/components/RoleBasedRoute/RoleBasedRoute.jsx:21-34 | once loaded, every signed-in user is shown the access-denied panel |
| RoleBasedRoute.NeverRendersChildren | src/components/RoleBasedRoute/RoleBasedRoute.jsx:21-36 | the children are never rendered |
| RoleBasedRoute.RoleGuardRefinesGuard | src/components/RoleBasedRoute/RoleBasedRoute.jsx:11-18 | the guard agrees with `ProtectedRoute` while loading and for a missing user, and renders children only where `ProtectedRoute` would |

## Left out

- **HTTP, JSON and URLs.**
  - A backend reply is a value: ok with its fields, not ok, 401, or a thrown
    error.
  - An exhausted reply list in the resolver stands for a rejected `fetch`.
  - A reply body that cannot be parsed counts as a thrown error.
- **`localStorage`** is a map from keys to strings, not the browser API.
- **Asynchrony and scheduling.** Each operation is applied whole, which
  leaves out three things:
  - when the non-awaited `logout()` calls in `refreshAccessToken` and in
    `initAuth`'s `catch` finish: the model clears the session where each is
    called, while the code may do so after `setLoading(false)`, with the
    same final state;
  - a component calling an operation through the closure of an older
    render: such a call would see that render's token;
  - effect re-runs: `initAuth` runs once, at mount.
- **Concurrency.** Racing permission checks or refreshes are out of scope.
- **Rendering and side effects.** JSX, CSS, `console` output,
  `window.confirm`, `navigate` and `window.history.back` are left out.
- **`canCreateNews`** calls `hasPermission` with a permission list in place
  of the user and never awaits it. The resulting Promise is always truthy, so
  the create button depends on `editingNews` alone (`Home.CreateButton`). The
  `&&` in `canUpdateNews` and `canDeleteNews` likewise gates on the author
  comparison alone.
- **Backend calls on the pages.** `fetchNews` and `handleDeleteNews` on both
  pages are not modelled; a reload is counted in `reloads`. Loading and error
  rendering are left out too.
- NewsDetail.LoadedPermissions: does not model the `catch` at
  NewsDetail.jsx:32-34. For records of the shapes modelled here
  `hasPermission` never rejects, because every role-fetch error is turned
  into `[]`. A `null` entry in `user.permissions`, in `user.roles` or in a
  fetched permission list would throw at roleUtils.js:103, 113 or 115,
  outside `fetchRolePermissions`' own `try`, and would reach that `catch`;
  such records are not representable in `User` and `Permission`.
- AuthContext.AfterProfileFetch: does not model an ok reply whose body is
  `null`, which would make `fetchUserProfile` return null. An ok reply always
  carries a user here.
- AuthContext.AfterRefresh: does not model an ok reply without tokens. An
  ok refresh reply always carries both tokens here.
- **Other components.** `Header.jsx`, `App.js`, `Login.jsx`, `Register.jsx`,
  `Profile.jsx` and `NewsForm.jsx` are form wiring and display. Only
  NewsForm's initial state is used, by `News.InitialForm`.
  - `Register.jsx` calls `register` with four arguments where one object is
    expected; that mismatch is also not part of this model.
- **Dates.** Locale formatting with `toLocaleDateString` is left out.
