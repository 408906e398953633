/** src/app/core/auth/auth.service.ts: the session held by the client.
    Browser storage is modelled as two optional fields (the stored token
    and the stored user, already parsed from JSON); the two subjects as
    `currentUser` and `authenticated`. */
module Auth {
  import opened Models

  /** The JWT login response. `id` may be missing. */
  datatype JwtResponse = JwtResponse(token: string, id: Option<int>, username: string, roles: seq<string>)

  /** The argument of `hasRole`: one role or a list of roles. */
  datatype RoleSpec = OneRole(role: Role) | AnyRole(roles: seq<Role>)

  /** A snapshot of everything the session logic reads. */
  datatype Session = Session(
    token: Option<string>,
    storedUser: Option<User>,
    currentUser: Option<User>,
    authenticated: bool)

  /** The consistency every session state of the service keeps. */
  predicate SessionConsistent(s: Session)
  {
    s.currentUser == s.storedUser && (s.authenticated ==> s.currentUser.Some?)
  }

  /** In a consistent session, `hasRole` with a list is "logged in and the
      user's role is in the list". */
  lemma HasRoleInConsistentSession(s: Session, roles: seq<Role>)
    requires SessionConsistent(s)
    ensures HasRole(s, AnyRole(roles)) <==> IsLoggedIn(s) && s.currentUser.value.role in roles
  {
  }

  /** The highest role present in the backend's list; `user` otherwise,
      also for an empty list or unknown names. */
  function MapRolesFromBackend(backendRoles: seq<string>): (r: Role)
    ensures r == AdminRole <==> "ADMIN" in backendRoles
    ensures r == ManagerRole <==> "ADMIN" !in backendRoles && "MANAGER" in backendRoles
    ensures r == UserRole <==> "ADMIN" !in backendRoles && "MANAGER" !in backendRoles
  {
    if "ADMIN" in backendRoles then AdminRole
    else if "MANAGER" in backendRoles then ManagerRole
    else if "USER" in backendRoles then UserRole
    else UserRole
  }

  /** The role mapping reads the backend list as a set: reordering or
      repeating entries does not change it. */
  lemma MapRolesIgnoresOrder(a: seq<string>, b: seq<string>)
    requires forall x :: x in a <==> x in b
    ensures MapRolesFromBackend(a) == MapRolesFromBackend(b)
  {
  }

  /** `isLoggedIn()`. */
  predicate IsLoggedIn(s: Session)
    ensures IsLoggedIn(s) <==> s.token.Some? && |s.token.value| > 0 && s.authenticated
  {
    Truthy(s.token) && s.authenticated  // `!!getToken()` and the flag
  }

  /** The `userRole` getter: the current user's role, or null. */
  function CurrentRole(s: Session): (r: Option<Role>)
    ensures r.Some? <==> s.currentUser.Some?
    ensures r.Some? ==> r.value == s.currentUser.value.role
  {
    if s.currentUser.Some? then Some(s.currentUser.value.role) else None
  }

  /** `hasRole(requiredRole)`: false when logged out or without a role;
      otherwise membership for a list and equality for a single role. */
  function HasRole(s: Session, required: RoleSpec): (b: bool)
    ensures !IsLoggedIn(s) || s.currentUser.None? ==> !b
    ensures IsLoggedIn(s) && s.currentUser.Some? && required.AnyRole? ==>
      (b <==> s.currentUser.value.role in required.roles)
    ensures IsLoggedIn(s) && s.currentUser.Some? && required.OneRole? ==>
      (b <==> s.currentUser.value.role == required.role)
  {
    if !IsLoggedIn(s) || CurrentRole(s).None? then false
    else
      var currentRole := CurrentRole(s).value;
      match required
      case AnyRole(roles) => currentRole in roles
      case OneRole(role) => currentRole == role
  }

  /** A single role and the one-element list holding it are the same demand. */
  lemma HasRoleSingletonList(s: Session, r: Role)
    ensures HasRole(s, OneRole(r)) == HasRole(s, AnyRole([r]))
  {
  }

  /** The user `login` builds from a response: `response.id || now`, so a
      missing id and the id 0 both fall back to the clock. */
  function LoginUser(response: JwtResponse, now: int): (u: User)
    ensures u.id == (if response.id.Some? && response.id.value != 0 then Num(response.id.value) else Num(now))
    ensures u.username == response.username && u.name == Some(response.username)
    ensures u.role == MapRolesFromBackend(response.roles) && u.password == None
  {
    var id := if response.id.Some? && response.id.value != 0 then response.id.value else now;
    User(Num(id), response.username, None, MapRolesFromBackend(response.roles), Some(response.username))
  }

  class AuthService {
    /** localStorage 'auth-token'. */
    var token: Option<string>
    /** localStorage 'auth-user', parsed. */
    var storedUser: Option<User>
    /** The value of `currentUserSubject`. */
    var currentUser: Option<User>
    /** The value of `isAuthenticatedSubject`. */
    var authenticated: bool

    function State(): Session
      reads this
    {
      Session(token, storedUser, currentUser, authenticated)
    }

    /** The subject mirrors the stored user, and an authenticated session
        always has a user. */
    ghost predicate Valid()
      reads this
    {
      SessionConsistent(State())
    }

    /** The service starts from what the browser stored: the persisted user
        becomes the current user, and the session counts as authenticated
        only when both a user and a non-empty token are stored. */
    constructor (persistedToken: Option<string>, persistedUser: Option<User>)
      ensures token == persistedToken && storedUser == persistedUser
      ensures currentUser == persistedUser
      ensures authenticated <==> persistedUser.Some? && Truthy(persistedToken)
      ensures Valid()
    {
      token := persistedToken;
      storedUser := persistedUser;
      currentUser := persistedUser;
      authenticated := persistedUser.Some? && Truthy(persistedToken);
    }

    /** `login`. `reply` is the server's response (`None`: the request
        failed and nothing changes). `nowAtStore` and `nowAtReturn` are the
        two `Date.now()` readings, one for the stored user and one for the
        returned user. */
    method Login(reply: Option<JwtResponse>, nowAtStore: int, nowAtReturn: int) returns (r: Result<User>)
      requires Valid()
      modifies this
      ensures Valid()
      ensures reply.None? ==> r == Err(RequestFailed) && State() == old(State())
      ensures reply.Some? ==>
        && token == Some(reply.value.token)
        && storedUser == Some(LoginUser(reply.value, nowAtStore))
        && currentUser == storedUser
        && authenticated
        && (IsLoggedIn(State()) <==> reply.value.token != "")
        && r == Ok(LoginUser(reply.value, nowAtReturn))
    {
      if reply.None? {
        return Err(RequestFailed);
      }
      var response := reply.value;
      token := Some(response.token);
      var userForFrontend := LoginUser(response, nowAtStore);
      storedUser := Some(userForFrontend);
      currentUser := Some(userForFrontend);
      authenticated := true;
      r := Ok(LoginUser(response, nowAtReturn));
    }

    /** `logout`: clears storage and both subjects, then navigates to /login. */
    method Logout() returns (nav: Navigation)
      modifies this
      ensures Valid()
      ensures token == None && storedUser == None && currentUser == None && !authenticated
      ensures !IsLoggedIn(State())
      ensures nav == Navigate("/login", None)
    {
      token := None;
      storedUser := None;
      currentUser := None;
      authenticated := false;
      nav := Navigate("/login", None);
    }
  }

  /** After a successful login the session is logged in and carries the
      mapped role exactly when the returned token is not empty. */
  lemma LoginEstablishesSession(response: JwtResponse, now: int, r: Role)
    ensures var after := Session(Some(response.token), Some(LoginUser(response, now)),
                                 Some(LoginUser(response, now)), true);
      && (IsLoggedIn(after) <==> response.token != "")
      && (HasRole(after, OneRole(r)) <==> response.token != "" && r == MapRolesFromBackend(response.roles))
  {
  }

  /** The user stored by `login` and the user it returns differ only when
      the response carries no usable id and the two clock readings differ. */
  lemma LoginReturnsStoredUser(response: JwtResponse, nowAtStore: int, nowAtReturn: int)
    ensures LoginUser(response, nowAtStore) == LoginUser(response, nowAtReturn) <==>
      (response.id.Some? && response.id.value != 0) || nowAtStore == nowAtReturn
  {
  }
}
