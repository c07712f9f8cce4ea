/**
 * The user-administration handlers (src/interface/handlers/users.rs): listing the users without
 * their password hashes, creating a user behind a duplicate-name guard, and deleting a user
 * behind a guard that protects the administrator account. The password hash (bcrypt) and the
 * fresh identifier (a random UUID) come from outside, as the function `hash` and the value
 * `freshId`.
 */
module Users {
  import opened Wrappers
  import opened Errors
  import opened Models
  import opened Ports

  /** `CreateUserRequest`: what an administrator submits. */
  datatype CreateUserRequest = CreateUserRequest(username: string, password: string, role: UserRole)

  /** `UserDto`: a user as listed, the role as its display name. */
  datatype UserDto = UserDto(id: string, username: string, role: string)

  /** A successful handler's status and JSON string body. */
  datatype Reply = Reply(status: nat, message: string)

  /** The backend's call log and user table. */
  datatype Store = Store(trace: seq<Effect>, users: seq<UserRecord>)

  const Created := 201
  const OkStatus := 200
  const DuplicateMessage := "Username already exists"
  const CreatedMessage := "User created successfully"
  const DeletedMessage := "User deleted"
  const DefaultAdmin := "admin"

  // ----- list_users -----

  function ToDto(u: UserRecord): UserDto {
    UserDto(u.id, u.username, RoleName(u.role))
  }

  /** The listing: one entry per user, in order. */
  function Dtos(users: seq<UserRecord>): (r: seq<UserDto>)
    ensures |r| == |users|
  {
    seq(|users|, i requires 0 <= i < |users| => ToDto(users[i]))
  }

  /** Each entry keeps its user's id and name, and its role can be read back from the role
      text; nothing of the password hash is listed. */
  lemma DtosFaithful(users: seq<UserRecord>, i: nat)
    requires i < |users|
    ensures Dtos(users)[i].id == users[i].id && Dtos(users)[i].username == users[i].username
    ensures RoleFromName(Dtos(users)[i].role) == Some(users[i].role)
  {
    RoleNameRoundTrip(users[i].role);
  }

  /** `list_users`. */
  method ListUsers(repo: Backend) returns (r: Result<seq<UserDto>, AppError>)
    modifies repo
    ensures repo.trace == old(repo.trace) + [Effect.ListUsers] && repo.users == old(repo.users)
    ensures r == if repo.fault(|old(repo.trace)|, Effect.ListUsers).Some? then Err(repo.fault(|old(repo.trace)|, Effect.ListUsers).value)
                 else Ok(Dtos(old(repo.users)))
  {
    var users := repo.ListUsers();
    if users.Err? {
      return Err(users.error);
    }
    r := Ok(Dtos(users.value));
  }

  // ----- create_user -----

  /** What `get_user_by_username` answers as the n-th call on this table. */
  function Lookup(fault: (nat, Effect) -> Option<AppError>, s: Store, username: string): Result<Option<UserRecord>, AppError> {
    var e := Effect.GetUserByUsername(username);
    if fault(|s.trace|, e).Some? then Err(fault(|s.trace|, e).value) else Ok(FindUser(s.users, username))
  }

  function CreateUserTurn(fault: (nat, Effect) -> Option<AppError>, s: Store, req: CreateUserRequest,
                          hash: string -> Result<string, string>, freshId: string): (Store, Result<Reply, AppError>) {
    var t1 := s.trace + [Effect.GetUserByUsername(req.username)];
    var found := Lookup(fault, s, req.username);
    if found.Ok? && found.value.Some? then (Store(t1, s.users), Err(ValidationError(DuplicateMessage)))
    else match hash(req.password)
      case Err(e) => (Store(t1, s.users), Err(ParseError(e)))
      case Ok(h) =>
        var user := UserRecord(freshId, req.username, h, req.role);
        var t2 := t1 + [Effect.CreateUser(user)];
        match fault(|t1|, Effect.CreateUser(user))
        case Some(e) => (Store(t2, s.users), Err(e))
        case None => (Store(t2, s.users + [user]), Ok(Reply(Created, CreatedMessage)))
  }

  /** `create_user`. */
  method CreateUser(repo: Backend, req: CreateUserRequest, hash: string -> Result<string, string>, freshId: string)
    returns (r: Result<Reply, AppError>)
    modifies repo
    ensures var (s, res) := CreateUserTurn(repo.fault, Store(old(repo.trace), old(repo.users)), req, hash, freshId);
      repo.trace == s.trace && repo.users == s.users && r == res
  {
    var existing := repo.GetUserByUsername(req.username);
    if existing.Ok? && existing.value.Some? {
      return Err(ValidationError(DuplicateMessage));
    }
    var hashed := hash(req.password);
    if hashed.Err? {
      return Err(ParseError(hashed.error));
    }
    var user := UserRecord(freshId, req.username, hashed.value, req.role);
    var created := repo.CreateUser(user);
    if created.Err? {
      return Err(created.error);
    }
    r := Ok(Reply(Created, CreatedMessage));
  }

  /** A name already in the table is refused, before any hashing, and the table is kept. */
  lemma DuplicateRefused(fault: (nat, Effect) -> Option<AppError>, s: Store, req: CreateUserRequest,
                         hash: string -> Result<string, string>, freshId: string)
    requires fault(|s.trace|, Effect.GetUserByUsername(req.username)).None?
    requires req.username in Usernames(s.users)
    ensures CreateUserTurn(fault, s, req, hash, freshId) ==
      (Store(s.trace + [Effect.GetUserByUsername(req.username)], s.users), Err(ValidationError(DuplicateMessage)))
  {
  }

  /** The user is stored exactly when the lookup did not find the name (a failed lookup does not
      block), the hash succeeded and the insert succeeded; the stored record has the requested
      name and role, the fresh id, and the hash in place of the password. Every failure leaves
      the table as it was. */
  lemma CreateOutcome(fault: (nat, Effect) -> Option<AppError>, s: Store, req: CreateUserRequest,
                      hash: string -> Result<string, string>, freshId: string)
    ensures var (s2, res) := CreateUserTurn(fault, s, req, hash, freshId);
      res.Ok? <==>
        ((fault(|s.trace|, Effect.GetUserByUsername(req.username)).Some? || req.username !in Usernames(s.users)) &&
         hash(req.password).Ok? &&
         fault(|s.trace| + 1, Effect.CreateUser(UserRecord(freshId, req.username, hash(req.password).value, req.role))).None?)
    ensures var (s2, res) := CreateUserTurn(fault, s, req, hash, freshId);
      res.Ok? ==>
        res.value == Reply(Created, CreatedMessage) &&
        s2.users == s.users + [UserRecord(freshId, req.username, hash(req.password).value, req.role)]
    ensures var (s2, res) := CreateUserTurn(fault, s, req, hash, freshId);
      res.Err? ==> s2.users == s.users
    ensures var (s2, res) := CreateUserTurn(fault, s, req, hash, freshId);
      res == Err(ParseError(hash(req.password).error)) <==
        (hash(req.password).Err? && (fault(|s.trace|, Effect.GetUserByUsername(req.username)).Some? || req.username !in Usernames(s.users)))
  {
  }

  predicate UniqueNames(users: seq<UserRecord>) {
    forall i, j :: 0 <= i < j < |users| ==> users[i].username != users[j].username
  }

  /** When the lookup answers, creation keeps the names in the table distinct. */
  lemma CreateKeepsNamesUnique(fault: (nat, Effect) -> Option<AppError>, s: Store, req: CreateUserRequest,
                               hash: string -> Result<string, string>, freshId: string)
    requires UniqueNames(s.users)
    requires fault(|s.trace|, Effect.GetUserByUsername(req.username)).None?
    ensures UniqueNames(CreateUserTurn(fault, s, req, hash, freshId).0.users)
  {
    var users := CreateUserTurn(fault, s, req, hash, freshId).0.users;
    if users != s.users {
      assert req.username !in Usernames(s.users);
      forall i | 0 <= i < |s.users|
        ensures s.users[i].username != req.username
      {
        assert Usernames(s.users)[i] == s.users[i].username;
      }
    }
  }

  /** A failed lookup does not block creation: with the lookup failing, a name already taken
      is inserted a second time. */
  lemma LookupFailureAdmitsDuplicate(fault: (nat, Effect) -> Option<AppError>, u: UserRecord, req: CreateUserRequest,
                                     hash: string -> Result<string, string>, freshId: string)
    requires req.username == u.username && hash(req.password).Ok?
    requires fault(0, Effect.GetUserByUsername(req.username)).Some?
    requires fault(1, Effect.CreateUser(UserRecord(freshId, req.username, hash(req.password).value, req.role))).None?
    ensures !UniqueNames(CreateUserTurn(fault, Store([], [u]), req, hash, freshId).0.users)
  {
    var users := CreateUserTurn(fault, Store([], [u]), req, hash, freshId).0.users;
    assert users[0].username == users[1].username;
  }

  // ----- delete_user -----

  /** The protected account: `ADMIN_USER`, else "admin". */
  function AdminName(env: Option<string>): (r: string)
    ensures env.Some? ==> r == env.value
    ensures env.None? ==> r == DefaultAdmin
  {
    env.GetOr(DefaultAdmin)
  }

  function DeleteUserTurn(fault: (nat, Effect) -> Option<AppError>, s: Store, username: string, adminEnv: Option<string>)
    : (Store, Result<Reply, AppError>)
  {
    if username == AdminName(adminEnv) then (s, Err(SafetyGuardError))
    else
      var t1 := s.trace + [Effect.DeleteUser(username)];
      match fault(|s.trace|, Effect.DeleteUser(username))
      case Some(e) => (Store(t1, s.users), Err(e))
      case None => (Store(t1, WithoutUser(s.users, username)), Ok(Reply(OkStatus, DeletedMessage)))
  }

  /** `delete_user`, with the `ADMIN_USER` variable passed in. */
  method DeleteUser(repo: Backend, username: string, adminEnv: Option<string>) returns (r: Result<Reply, AppError>)
    modifies repo
    ensures var (s, res) := DeleteUserTurn(repo.fault, Store(old(repo.trace), old(repo.users)), username, adminEnv);
      repo.trace == s.trace && repo.users == s.users && r == res
  {
    var envAdmin := AdminName(adminEnv);
    if username == envAdmin {
      return Err(SafetyGuardError);
    }
    var deleted := repo.DeleteUser(username);
    if deleted.Err? {
      return Err(deleted.error);
    }
    r := Ok(Reply(OkStatus, DeletedMessage));
  }

  lemma NameListed(users: seq<UserRecord>, u: UserRecord)
    requires u in users
    ensures u.username in Usernames(users)
  {
    var i :| 0 <= i < |users| && users[i] == u;
    assert Usernames(users)[i] == u.username;
  }

  lemma ListedName(users: seq<UserRecord>, name: string) returns (u: UserRecord)
    requires name in Usernames(users)
    ensures u in users && u.username == name
  {
    var i :| 0 <= i < |Usernames(users)| && Usernames(users)[i] == name;
    u := users[i];
  }

  /** The administrator account cannot be deleted: the guard refuses it without calling the
      repository, and deleting anyone else keeps it in the table. A successful deletion removes
      every user of that name. */
  lemma AdminSurvivesDelete(fault: (nat, Effect) -> Option<AppError>, s: Store, username: string, adminEnv: Option<string>)
    ensures var (s2, res) := DeleteUserTurn(fault, s, username, adminEnv);
      username == AdminName(adminEnv) ==> s2 == s && res == Err(SafetyGuardError)
    ensures var (s2, res) := DeleteUserTurn(fault, s, username, adminEnv);
      AdminName(adminEnv) in Usernames(s.users) ==> AdminName(adminEnv) in Usernames(s2.users)
    ensures var (s2, res) := DeleteUserTurn(fault, s, username, adminEnv);
      res.Ok? ==> username !in Usernames(s2.users) && res.value == Reply(OkStatus, DeletedMessage)
  {
    var admin := AdminName(adminEnv);
    var (s2, res) := DeleteUserTurn(fault, s, username, adminEnv);
    if admin in Usernames(s.users) && username != admin && res.Ok? {
      var u := ListedName(s.users, admin);
      assert u in s2.users;
      NameListed(s2.users, u);
    }
  }
}
