/**
 * The records exchanged with the portal's backend, and the requests the
 * front end sends it. Replies are inputs to the model: each backend call
 * takes the reply it gets as a value, and every call that goes out is
 * recorded as a `Request` so that contracts can say what was sent.
 */
module Api {
  import opened Wrappers

  /** A capability such as "create:news". */
  datatype Permission = Permission(name: string)

  /** A role the user holds; its permissions are fetched by `id`. */
  datatype Role = Role(id: int, name: string)

  /**
   * The user profile returned by GET /auth/{username}. `permissions` and
   * `roles` may be absent from the reply. `role` is the property the
   * role-based route reads; profiles normally carry `roles` instead, so it
   * is usually absent.
   */
  datatype User = User(
    id: int,
    username: string,
    permissions: Option<seq<Permission>>,
    roles: Option<seq<Role>>,
    role: Option<seq<string>>)

  /** The object passed to `register`. */
  datatype Registration = Registration(
    email: string, password: string, firstName: string, lastName: string)

  /** Reply of POST /auth/login. */
  datatype LoginReply =
    | LoginOk(accessToken: string, refreshToken: string, username: string)
    | LoginNotOk
    | LoginThrows

  /** Reply of POST /auth/register; a rejection may carry a server message. */
  datatype RegisterReply =
    | RegisterOk
    | RegisterNotOk(message: Option<string>)
    | RegisterThrows

  /** Reply of POST /auth/refresh. */
  datatype RefreshReply =
    | RefreshOk(accessToken: string, refreshToken: string)
    | RefreshNotOk
    | RefreshThrows

  /** Reply of GET /auth/{username}. */
  datatype ProfileReply =
    | ProfileOk(user: User)
    | ProfileNotOk
    | ProfileThrows

  /** Reply of GET /roles/{roleId}; `permissions` may be missing from the body. */
  datatype RoleReply =
    | RoleOk(permissions: Option<seq<Permission>>)
    | RoleUnauthorized
    | RoleNotOk
    | RoleThrows

  /** Requests sent to the backend; `bearer` is the Authorization token. */
  datatype Request =
    | LoginRequest(email: string, password: string)
    | RegisterRequest(data: Registration)
    | RefreshRequest(refreshToken: Option<string>)
    | LogoutRequest(sessionToken: string)
    | ProfileRequest(username: string, bearer: Option<string>)
    | RoleRequest(roleId: int, bearer: Option<string>)

  /**
   * `errorData.message || default`: the server's message when it is a
   * non-empty string; `None` stands for the page's default text.
   */
  function ServerMessage(message: Option<string>): (r: Option<string>)
    ensures r.Some? <==> message.Some? && message.value != ""
    ensures r.Some? ==> r == message
  {
    if message.Some? && message.value != "" then message else None
  }

  /** The three keys the session keeps in durable storage. */
  const AccessTokenKey := "accessToken"
  const RefreshTokenKey := "refreshToken"
  const UsernameKey := "username"
}
