/** src/app/core/services/user.service.ts: the mapping between the
    backend's user records (upper-case roles) and the frontend's (lower-case
    roles), the request bodies sent on create and update, and the
    `usersSubject` cache. */
module Users {
  import opened Models
  import opened Text
  import opened IdLists

  /** UserResponseDTO. Its role is declared as 'ADMIN' | 'MANAGER' | 'USER'
      but the mapping also handles any other string. */
  datatype UserResponse = UserResponse(id: int, username: string, role: string, name: Option<string>)

  /** A (possibly partial) UserRequestDTO: a `None` field is left out of
      the JSON body. */
  datatype UserRequest = UserRequest(
    username: Option<string>,
    password: Option<string>,
    role: Option<string>,
    name: Option<string>)

  /** The form data `createUser` receives. */
  datatype NewUserData = NewUserData(username: string, passwordInput: string, role: Role, name: Option<string>)

  /** The form data `updateUser` receives; every field may be undefined. */
  datatype UserChanges = UserChanges(
    username: Option<string>,
    passwordInput: Option<string>,
    role: Option<Role>,
    name: Option<string>)

  /** The role switch of `mapBackendUserToFrontendUser`. */
  function FrontendRole(backendRole: string): (r: Role)
    ensures r == AdminRole <==> backendRole == "ADMIN"
    ensures r == ManagerRole <==> backendRole == "MANAGER"
    ensures r == UserRole <==> backendRole != "ADMIN" && backendRole != "MANAGER"
  {
    match backendRole
    case "ADMIN" => AdminRole
    case "MANAGER" => ManagerRole
    case "USER" => UserRole
    case _ => UserRole
  }

  /** `mapBackendUserToFrontendUser`. */
  function MapBackendUser(dto: UserResponse): (u: User)
    ensures u.id == Num(dto.id) && u.username == dto.username && u.name == dto.name
    ensures u.password == None
    ensures u.role == FrontendRole(dto.role)
  {
    User(Num(dto.id), dto.username, None, FrontendRole(dto.role), dto.name)
  }

  /** Upper-casing a frontend role and mapping it back gives the role again. */
  lemma RoleRoundTrip(r: Role)
    ensures FrontendRole(ToUpper(RoleName(r))) == r
  {
  }

  /** The role names the backend's enum accepts. */
  const BackendRoleNames: set<string> := {"ADMIN", "MANAGER", "USER"}

  /** Upper-casing a frontend role always gives a name of the backend's enum. */
  lemma UpperRoleIsBackendRole(r: Role)
    ensures ToUpper(RoleName(r)) in BackendRoleNames
    ensures ToUpper(RoleName(r)) == (match r case AdminRole => "ADMIN" case ManagerRole => "MANAGER" case UserRole => "USER")
  {
    match r
    case AdminRole => assert ToUpper("admin") == "ADMIN";
    case ManagerRole => assert ToUpper("manager") == "MANAGER";
    case UserRole => assert ToUpper("user") == "USER";
  }

  /** The body `createUser` sends. */
  function CreatePayload(data: NewUserData): (p: UserRequest)
    ensures p.username == Some(data.username)
    ensures p.password == Some(data.passwordInput)
    ensures p.role == Some(ToUpper(RoleName(data.role)))
    ensures p.role.Some? && p.role.value in BackendRoleNames && FrontendRole(p.role.value) == data.role
    ensures p.name == data.name
  {
    RoleRoundTrip(data.role);
    UpperRoleIsBackendRole(data.role);
    UserRequest(Some(data.username), Some(data.passwordInput), Some(ToUpper(RoleName(data.role))), data.name)
  }

  /** The body `updateUser` sends: username and password only when truthy,
      role when given, name whenever it is defined (also when ""). */
  function UpdatePayload(data: UserChanges): (p: UserRequest)
    ensures p.username.Some? <==> Truthy(data.username)
    ensures p.password.Some? <==> Truthy(data.passwordInput)
    ensures p.username.Some? ==> p.username == data.username
    ensures p.password.Some? ==> p.password == data.passwordInput
    ensures p.role.Some? <==> data.role.Some?
    ensures data.role.Some? ==> p.role == Some(ToUpper(RoleName(data.role.value)))
    ensures p.role.Some? ==> p.role.value in BackendRoleNames && FrontendRole(p.role.value) == data.role.value
    ensures p.name == data.name
  {
    var username := if Truthy(data.username) then data.username else None;
    var password := if Truthy(data.passwordInput) then data.passwordInput else None;
    var role :=
      if data.role.Some? then
        RoleRoundTrip(data.role.value);
        UpperRoleIsBackendRole(data.role.value);
        Some(ToUpper(RoleName(data.role.value)))
      else None;
    var name := if data.name.Some? then data.name else None;
    UserRequest(username, password, role, name)
  }

  /** `dtos.map(mapBackendUserToFrontendUser)`. */
  function MapBackendUsers(dtos: seq<UserResponse>): (users: seq<User>)
    ensures |users| == |dtos|
    ensures forall i :: 0 <= i < |dtos| ==> users[i] == MapBackendUser(dtos[i])
  {
    seq(|dtos|, i requires 0 <= i < |dtos| => MapBackendUser(dtos[i]))
  }

  class UserService {
    /** The current value of `usersSubject`. */
    var users: seq<User>

    constructor ()
      ensures users == []
    {
      users := [];
    }

    /** `getUsers`: a successful fetch replaces the cache with the mapped list. */
    method GetUsers(reply: Option<seq<UserResponse>>) returns (r: Result<seq<User>>)
      modifies this
      ensures reply.Some? ==> r == Ok(MapBackendUsers(reply.value)) && users == MapBackendUsers(reply.value)
      ensures reply.None? ==> r == Err(RequestFailed) && users == old(users)
    {
      if reply.Some? {
        users := MapBackendUsers(reply.value);
        r := Ok(users);
      } else {
        r := Err(RequestFailed);
      }
    }

    /** `createUser`: sends `CreatePayload(data)`; the mapped reply is appended. */
    method CreateUser(data: NewUserData, reply: Option<UserResponse>)
      returns (payload: UserRequest, r: Result<User>)
      modifies this
      ensures payload == CreatePayload(data)
      ensures reply.Some? ==>
        r == Ok(MapBackendUser(reply.value)) && users == old(users) + [MapBackendUser(reply.value)]
      ensures reply.None? ==> r == Err(RequestFailed) && users == old(users)
    {
      payload := CreatePayload(data);
      if reply.Some? {
        var newUser := MapBackendUser(reply.value);
        var currentUsers := users;
        users := currentUsers + [newUser];
        r := Ok(newUser);
      } else {
        r := Err(RequestFailed);
      }
    }

    /** `updateUser`: sends `UpdatePayload(data)`; the mapped reply overwrites
        the first cached user with the same id, if any. */
    method UpdateUser(data: UserChanges, reply: Option<UserResponse>)
      returns (payload: UserRequest, r: Result<User>)
      modifies this
      ensures payload == UpdatePayload(data)
      ensures reply.Some? ==>
        r == Ok(MapBackendUser(reply.value)) &&
        users == ReplaceFirst(old(users), UserId, MapBackendUser(reply.value))
      ensures reply.None? ==> r == Err(RequestFailed) && users == old(users)
    {
      payload := UpdatePayload(data);
      if reply.Some? {
        var updatedUser := MapBackendUser(reply.value);
        var index := IndexOfId(users, UserId, updatedUser.id);
        if index > -1 {
          users := users[index := updatedUser];
        }
        r := Ok(updatedUser);
      } else {
        r := Err(RequestFailed);
      }
    }

    /** `deleteUser`: after the server confirms, users whose id is `userId`
        leave the cache. */
    method DeleteUser(userId: Id, succeeded: bool) returns (r: Result<()>)
      modifies this
      ensures succeeded ==> r == Ok(()) && users == Without(old(users), UserId, userId)
      ensures !succeeded ==> r == Err(RequestFailed) && users == old(users)
    {
      if succeeded {
        var currentUsers := users;
        users := Without(currentUsers, UserId, userId);
        r := Ok(());
      } else {
        r := Err(RequestFailed);
      }
    }
  }

  /** A client-side run: load two users, then delete by a string id that
      only looks like one of theirs, then by the number. */
  method UserCacheScenario()
  {
    var svc := new UserService();
    var dtos := [UserResponse(5, "ana", "ADMIN", None), UserResponse(6, "luis", "SUPERVISOR", Some(""))];
    var loaded := svc.GetUsers(Some(dtos));
    var ana := User(Num(5), "ana", None, AdminRole, None);
    var luis := User(Num(6), "luis", None, UserRole, Some(""));
    assert svc.users == [ana, luis];
    var d := svc.DeleteUser(Str("5"), true);
    assert svc.users == [ana, luis];
    d := svc.DeleteUser(Num(5), true);
    assert svc.users == [luis];
  }
}
