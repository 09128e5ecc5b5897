/**
 * Registration and login. A password is stored as its bcrypt hash and a
 * successful login hands back a signed token; both are modelled as data:
 * a hash as `Hashed(password)`, a token as the claims it carries.
 */
module AuthController {
  import opened Wrappers
  import opened Domain
  import opened Lists
  import opened Store
  import Text
  import UserController

  const MISSING_FIELDS := "Username dan password wajib diisi"
  const USERNAME_TAKEN := "Username sudah digunakan"
  const BAD_CREDENTIALS := "Username atau password salah"

  predicate Given(s: Option<string>) {
    s.Some? && s.value != ""
  }

  datatype RegisterRequest = RegisterRequest(
    username: Option<string>,
    password: Option<string>,
    role: Option<string>,
    name: Option<string>,
    phone: Option<string>)

  /** The registered record (its id is assigned on insert): the role upper-cased or CUSTOMER, no reseller, the password hashed. */
  function RegisteredRecord(req: RegisterRequest): (u: User)
    requires Given(req.username) && Given(req.password)
    ensures u.username == req.username.value
    ensures u.password == Some(Hashed(req.password.value))
    ensures Given(req.role) ==> u.role == Text.Upper(req.role.value)
    ensures !Given(req.role) ==> u.role == "CUSTOMER"
    ensures u.reseller_id == None && u.package_id == None
  {
    User(0, req.username.value, req.name.GetOr(""), req.phone.GetOr(""),
         if Given(req.role) then Text.Upper(req.role.value) else "CUSTOMER",
         Some(Hashed(req.password.value)), None, None, None, None, None, None, [], 0)
  }

  /**
   * `register`: 400 when the username or the password is missing, 400 when
   * the username is taken (nothing is created in either case), otherwise the
   * new user's id (201).
   */
  method Register(db: Database, req: RegisterRequest) returns (status: int, error: Option<string>, userId: Option<int>)
    requires db.Valid()
    modifies db`users, db`nextUserId
    ensures db.Valid()
    ensures !Given(req.username) || !Given(req.password) ==>
      status == BAD_REQUEST && error == Some(MISSING_FIELDS) && db.users == old(db.users)
    ensures Given(req.username) && Given(req.password) && FindUsername(old(db.users), req.username.value).Some? ==>
      status == BAD_REQUEST && error == Some(USERNAME_TAKEN) && db.users == old(db.users)
    ensures Given(req.username) && Given(req.password) && FindUsername(old(db.users), req.username.value).None? ==>
      status == CREATED && userId == Some(old(db.nextUserId)) &&
      db.users == old(db.users) + [RegisteredRecord(req).(id := old(db.nextUserId))]
  {
    if !Given(req.username) || !Given(req.password) {
      return BAD_REQUEST, Some(MISSING_FIELDS), None;
    }
    if FindUsername(db.users, req.username.value).Some? {
      return BAD_REQUEST, Some(USERNAME_TAKEN), None;
    }
    var created := db.InsertUser(RegisteredRecord(req));
    return CREATED, None, Some(created.value.id);
  }

  /** The claims a signed token carries. */
  datatype Token = Token(userId: int, role: string)

  datatype LoginReply =
    | LoggedIn(token: Token, userId: int, role: string, username: string)
    | Rejected(status: int, error: string)
    /** `bcrypt.compare` throws on a user stored without a password; the handler answers 500 with its message. */
    | ServerFault

  /** `login`'s outcome on the current user table. */
  function LoginResult(users: seq<User>, username: Option<string>, password: Option<string>): (r: LoginReply)
    ensures !Given(username) || !Given(password) ==> r == Rejected(BAD_REQUEST, MISSING_FIELDS)
    ensures Given(username) && Given(password) && FindUsername(users, username.value).None? ==>
      r == Rejected(UNAUTHORIZED, BAD_CREDENTIALS)
    ensures r.LoggedIn? <==>
      Given(username) && Given(password) && FindUsername(users, username.value).Some? &&
      users[FindUsername(users, username.value).value].password == Some(Hashed(password.value))
    ensures r.LoggedIn? ==>
      var u := users[FindUsername(users, username.value).value];
      r == LoggedIn(Token(u.id, u.role), u.id, u.role, u.username)
    ensures r.ServerFault? <==>
      Given(username) && Given(password) && FindUsername(users, username.value).Some? &&
      users[FindUsername(users, username.value).value].password.None?
  {
    if !Given(username) || !Given(password) then Rejected(BAD_REQUEST, MISSING_FIELDS)
    else match FindUsername(users, username.value)
      case None => Rejected(UNAUTHORIZED, BAD_CREDENTIALS)
      case Some(i) =>
        var u := users[i];
        match u.password
        case None => ServerFault
        case Some(stored) =>
          if !PasswordMatches(password.value, stored) then Rejected(UNAUTHORIZED, BAD_CREDENTIALS)
          else LoggedIn(Token(u.id, u.role), u.id, u.role, u.username)
  }

  /** `login`: reads the user table and answers with LoginResult. */
  method Login(db: Database, username: Option<string>, password: Option<string>) returns (reply: LoginReply)
    ensures reply == LoginResult(db.users, username, password)
    ensures reply.Rejected? ==> reply.status == BAD_REQUEST || reply.status == UNAUTHORIZED
  {
    if !Given(username) || !Given(password) {
      return Rejected(BAD_REQUEST, MISSING_FIELDS);
    }
    var found := FindUsername(db.users, username.value);
    if found.None? {
      return Rejected(UNAUTHORIZED, BAD_CREDENTIALS);
    }
    var u := db.users[found.value];
    if u.password.None? {
      return ServerFault;
    }
    if !PasswordMatches(password.value, u.password.value) {
      return Rejected(UNAUTHORIZED, BAD_CREDENTIALS);
    }
    var token := Token(u.id, u.role);
    return LoggedIn(token, u.id, u.role, u.username);
  }

  /** An unknown username and a wrong password are answered alike, so a caller cannot tell which it was. */
  lemma UnknownUserLooksLikeWrongPassword(users: seq<User>, known: string, unknown: string, wrong: string)
    requires Given(Some(known)) && Given(Some(unknown)) && Given(Some(wrong))
    requires FindUsername(users, unknown).None?
    requires FindUsername(users, known).Some?
    requires users[FindUsername(users, known).value].password.Some?
    requires users[FindUsername(users, known).value].password != Some(Hashed(wrong))
    ensures LoginResult(users, Some(unknown), Some(wrong)) == LoginResult(users, Some(known), Some(wrong))
  {
  }

  /** A user appended under a fresh username is the one a lookup by that name finds. */
  lemma {:induction false} FindAppended(users: seq<User>, u: User)
    requires FindUsername(users, u.username).None?
    ensures FindUsername(users + [u], u.username) == Some(|users|)
  {
    var t := users + [u];
    assert t[|users|].username == u.username;
    assert forall k :: 0 <= k < |users| ==> t[k] == users[k];
  }

  /** Whoever registers can log in with the same username and password. */
  lemma {:induction false} RegisteredUserCanLogIn(users: seq<User>, req: RegisterRequest, id: int)
    requires Given(req.username) && Given(req.password)
    requires FindUsername(users, req.username.value).None?
    ensures var u := RegisteredRecord(req).(id := id);
      LoginResult(users + [u], req.username, req.password) == LoggedIn(Token(id, u.role), id, u.role, u.username)
  {
    FindAppended(users, RegisteredRecord(req).(id := id));
  }

  /**
   * A reseller created through `createReseller` as written can never log in:
   * its password is stored unhashed, and a login with that very password is
   * rejected as bad credentials.
   */
  lemma {:induction false} CreatedResellerCannotLogIn(users: seq<User>, req: UserController.ResellerRequest, id: int)
    requires Given(req.password) && req.username != ""
    requires FindUsername(users, req.username).None?
    ensures LoginResult(users + [UserController.ResellerRecordAsWritten(req).(id := id)], Some(req.username), req.password)
         == Rejected(UNAUTHORIZED, BAD_CREDENTIALS)
  {
    FindAppended(users, UserController.ResellerRecordAsWritten(req).(id := id));
  }

  /** With the password hashed, the created reseller logs in with what the admin typed. */
  lemma {:induction false} HashedResellerCanLogIn(users: seq<User>, req: UserController.ResellerRequest, id: int)
    requires Given(req.password) && req.username != ""
    requires FindUsername(users, req.username).None?
    ensures LoginResult(users + [UserController.ResellerRecord(req).(id := id)], Some(req.username), req.password)
         == LoggedIn(Token(id, UserController.RESELLER), id, UserController.RESELLER, req.username)
  {
    FindAppended(users, UserController.ResellerRecord(req).(id := id));
  }

  /** The same holds after `updateReseller` sets a password: as written the reseller is locked out, hashed it is not. */
  lemma {:induction false} UpdatedResellerPassword(users: seq<User>, i: nat, p: UserController.UserPatch)
    requires i < |users| && NoDup(Usernames(users)) && p.password.Some? && Given(p.password)
    requires Given(Some(users[i].username)) && p.username.Keep?
    ensures LoginResult(users[i := UserController.ResellerUpdatedAsWritten(users[i], p)], Some(users[i].username), p.password)
         == Rejected(UNAUTHORIZED, BAD_CREDENTIALS)
    ensures LoginResult(users[i := UserController.CustomerUpdated(users[i], p)], Some(users[i].username), p.password).LoggedIn?
  {
    var a := users[i := UserController.ResellerUpdatedAsWritten(users[i], p)];
    var b := users[i := UserController.CustomerUpdated(users[i], p)];
    assert Usernames(a) == Usernames(users) && Usernames(b) == Usernames(users);
    IndexOfNoDup(Usernames(users), i);
  }
}
