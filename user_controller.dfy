/**
 * The user routes of the backend: listing and searching customers, creating,
 * updating, deleting customers and resellers, resetting passwords, and
 * recording a customer's payment. Every handler that works on one user first
 * looks the id up and answers 404 unless the row has the expected role.
 */
module UserController {
  import opened Wrappers
  import opened Domain
  import opened Lists
  import opened Store
  import Text

  const CUSTOMER := "CUSTOMER"
  const RESELLER := "RESELLER"

  /** The position of the user with this id, when that user has the given role. */
  function RoleAt(users: seq<User>, id: int, role: string): (r: Option<nat>)
    ensures r.Some? ==> r.value < |users| && users[r.value].id == id && users[r.value].role == role
    ensures r.None? <==> FindUser(users, id).None? || users[FindUser(users, id).value].role != role
  {
    match FindUser(users, id)
    case None => None
    case Some(i) => if users[i].role == role then Some(i) else None
  }

  /** JavaScript truthiness of an optional text field: present and not empty. */
  predicate Given(s: Option<string>) {
    s.Some? && s.value != ""
  }

  /** The `where` clause of `getAllCustomers`: role when given, reseller_id when given. */
  predicate MatchesFilter(u: User, role: Option<string>, resellerId: Option<int>) {
    (Given(role) ==> u.role == role.value) &&
    (resellerId.Some? ==> u.reseller_id == resellerId)
  }

  /** The users matching the filter, in table order. */
  function FilterUsers(users: seq<User>, role: Option<string>, resellerId: Option<int>): (r: seq<User>)
    ensures |r| <= |users|
    ensures forall u {:trigger u in r} :: u in r <==> u in users && MatchesFilter(u, role, resellerId)
  {
    if users == [] then []
    else if MatchesFilter(users[0], role, resellerId) then [users[0]] + FilterUsers(users[1..], role, resellerId)
    else FilterUsers(users[1..], role, resellerId)
  }

  /** Filtering keeps table order: the matches of two tables are the matches of the first, then of the second. */
  lemma {:induction false} FilterUsersAppend(a: seq<User>, b: seq<User>, role: Option<string>, resellerId: Option<int>)
    ensures FilterUsers(a + b, role, resellerId) == FilterUsers(a, role, resellerId) + FilterUsers(b, role, resellerId)
  {
    if a == [] {
      assert a + b == b;
    } else {
      assert a + b == [a[0]] + (a[1..] + b);
      FilterUsersCons(a[0], a[1..] + b, role, resellerId);
      FilterUsersAppend(a[1..], b, role, resellerId);
      assert a == [a[0]] + a[1..];
      FilterUsersCons(a[0], a[1..], role, resellerId);
    }
  }

  /** One step of filtering: the first user, when it matches, and then the matches of the rest. */
  lemma FilterUsersCons(u: User, rest: seq<User>, role: Option<string>, resellerId: Option<int>)
    ensures FilterUsers([u] + rest, role, resellerId) ==
      (if MatchesFilter(u, role, resellerId) then [u] else []) + FilterUsers(rest, role, resellerId)
  {
    assert ([u] + rest)[0] == u && ([u] + rest)[1..] == rest;
  }

  /** A single user is listed exactly when it matches, so by the lemma above the listing keeps table order. */
  lemma FilterUsersSingle(u: User, role: Option<string>, resellerId: Option<int>)
    ensures FilterUsers([u], role, resellerId) == if MatchesFilter(u, role, resellerId) then [u] else []
  {
    assert [u][1..] == [];
  }

  /** Without a role and without a reseller id every user is listed, in order. */
  lemma {:induction false} NoFilterListsEveryone(users: seq<User>)
    ensures FilterUsers(users, None, None) == users
  {
    if users != [] {
      NoFilterListsEveryone(users[1..]);
    }
  }

  /** Filtering twice by the same clause changes nothing. */
  lemma {:induction false} FilterIdempotent(users: seq<User>, role: Option<string>, resellerId: Option<int>)
    ensures FilterUsers(FilterUsers(users, role, resellerId), role, resellerId) == FilterUsers(users, role, resellerId)
  {
    if users != [] {
      FilterIdempotent(users[1..], role, resellerId);
    }
  }

  /** How the reseller_id query parameter becomes a filter: `parseInt` of a non-empty text. */
  function ResellerFilter(resellerId: Option<string>): (r: Option<Option<int>>)
    ensures !Given(resellerId) ==> r == Some(None)
    ensures Given(resellerId) && Text.ParseInt(resellerId.value).Int? ==> r == Some(Some(Text.ParseInt(resellerId.value).n))
    ensures Given(resellerId) && Text.ParseInt(resellerId.value).NaN? ==> r == None
  {
    if !Given(resellerId) then Some(None)
    else match Text.ParseInt(resellerId.value)
      case Int(n) => Some(Some(n))
      case NaN => None
  }

  /**
   * `getAllCustomers`: the users matching the role and reseller filters (200).
   * A reseller id that does not parse is refused by the database (500).
   */
  method GetAllCustomers(db: Database, role: Option<string>, resellerId: Option<string>)
      returns (status: int, result: seq<User>)
    ensures ResellerFilter(resellerId).None? ==> status == SERVER_ERROR && result == []
    ensures ResellerFilter(resellerId).Some? ==>
      status == OK && result == FilterUsers(db.users, role, ResellerFilter(resellerId).value)
  {
    var filter := ResellerFilter(resellerId);
    if filter.None? {
      return SERVER_ERROR, [];
    }
    return OK, FilterUsers(db.users, role, filter.value);
  }

  /** `getAllResellers`: every user whose role is RESELLER. */
  method GetAllResellers(db: Database) returns (status: int, result: seq<User>)
    ensures status == OK
    ensures forall u :: u in result <==> u in db.users && u.role == RESELLER
  {
    return OK, FilterUsers(db.users, Some(RESELLER), None);
  }

  /** The search of `searchCustomers`: the name or the phone contains the query, ignoring case. */
  predicate MatchesSearch(u: User, query: string) {
    Text.Contains(Text.Lower(u.name), Text.Lower(query)) ||
    Text.Contains(Text.Lower(u.phone), Text.Lower(query))
  }

  function SearchUsers(users: seq<User>, query: string): (r: seq<User>)
    ensures |r| <= |users|
    ensures forall u :: u in r <==> u in users && u.role == CUSTOMER && MatchesSearch(u, query)
  {
    if users == [] then []
    else
      var rest := SearchUsers(users[1..], query);
      assert users == [users[0]] + users[1..];
      if users[0].role == CUSTOMER && MatchesSearch(users[0], query) then [users[0]] + rest else rest
  }

  /** `searchCustomers`: 400 without a query, otherwise the matching customers. */
  method SearchCustomers(db: Database, query: Option<string>) returns (status: int, result: seq<User>)
    ensures !Given(query) ==> status == BAD_REQUEST && result == []
    ensures Given(query) ==> status == OK
    ensures Given(query) ==>
      forall u :: u in result <==> u in db.users && u.role == CUSTOMER && MatchesSearch(u, query.value)
  {
    if !Given(query) {
      return BAD_REQUEST, [];
    }
    return OK, SearchUsers(db.users, query.value);
  }

  /** `getCustomerById`: the customer, or 404 for an unknown id or a user who is not a customer. */
  method GetCustomerById(db: Database, id: int) returns (status: int, customer: Option<User>)
    ensures RoleAt(db.users, id, CUSTOMER).None? ==> status == NOT_FOUND && customer == None
    ensures RoleAt(db.users, id, CUSTOMER).Some? ==>
      status == OK && customer == Some(db.users[RoleAt(db.users, id, CUSTOMER).value])
  {
    var at := RoleAt(db.users, id, CUSTOMER);
    if at.None? {
      return NOT_FOUND, None;
    }
    return OK, Some(db.users[at.value]);
  }

  /** `getResellerById`, guarded on RESELLER. */
  method GetResellerById(db: Database, id: int) returns (status: int, reseller: Option<User>)
    ensures RoleAt(db.users, id, RESELLER).None? ==> status == NOT_FOUND && reseller == None
    ensures RoleAt(db.users, id, RESELLER).Some? ==>
      status == OK && reseller == Some(db.users[RoleAt(db.users, id, RESELLER).value])
  {
    var at := RoleAt(db.users, id, RESELLER);
    if at.None? {
      return NOT_FOUND, None;
    }
    return OK, Some(db.users[at.value]);
  }

  // ---------------------------------------------------------------------------
  // Recording a payment

  /**
   * The customer after `confirmPayment`: paid_amount grows by the amount (a
   * missing paid amount counts as 0), and last_payment_date takes the sent
   * date; a date left out of the body is not written, an explicit null clears it.
   */
  function Confirmed(u: User, amount: int, paymentDate: Patch<Option<string>>): (v: User)
    ensures v.paid_amount == Some(u.paid_amount.GetOr(0) + amount)
    ensures paymentDate.SetTo? ==> v.last_payment_date == paymentDate.value
    ensures paymentDate.Keep? ==> v.last_payment_date == u.last_payment_date
    ensures v.(paid_amount := u.paid_amount, last_payment_date := u.last_payment_date) == u
  {
    u.(paid_amount := Some(u.paid_amount.GetOr(0) + amount), last_payment_date := paymentDate.Apply(u.last_payment_date))
  }

  /** Two confirmations add both amounts; the later date, when sent, is the one kept. */
  lemma ConfirmedTwice(u: User, a: int, d1: Patch<Option<string>>, b: int, d2: Patch<Option<string>>)
    ensures Confirmed(Confirmed(u, a, d1), b, d2).paid_amount == Some(u.paid_amount.GetOr(0) + a + b)
    ensures d2.SetTo? ==> Confirmed(Confirmed(u, a, d1), b, d2).last_payment_date == d2.value
    ensures d2.Keep? ==> Confirmed(Confirmed(u, a, d1), b, d2).last_payment_date == Confirmed(u, a, d1).last_payment_date
  {
  }

  /**
   * `confirmPayment` (defined twice in the file, the later body is the one
   * exported): 404 unless the id is a customer's; a body without an amount
   * adds `undefined`, the sum is NaN and the update fails (500, nothing
   * written); otherwise only that customer's paid amount and last payment
   * date change. The request's packageId is not used.
   */
  method ConfirmPayment(db: Database, id: int, amount: Option<int>, paymentDate: Patch<Option<string>>,
                        packageId: Option<int>)
      returns (status: int, customer: Option<User>)
    requires db.Valid()
    modifies db`users
    ensures db.Valid()
    ensures RoleAt(old(db.users), id, CUSTOMER).None? ==>
      status == NOT_FOUND && customer == None && db.users == old(db.users)
    ensures RoleAt(old(db.users), id, CUSTOMER).Some? && amount.None? ==>
      status == SERVER_ERROR && customer == None && db.users == old(db.users)
    ensures RoleAt(old(db.users), id, CUSTOMER).Some? && amount.Some? ==>
      var i := RoleAt(old(db.users), id, CUSTOMER).value;
      status == OK && customer == Some(Confirmed(old(db.users)[i], amount.value, paymentDate)) &&
      db.users == old(db.users)[i := Confirmed(old(db.users)[i], amount.value, paymentDate)]
  {
    var at := RoleAt(db.users, id, CUSTOMER);
    if at.None? {
      return NOT_FOUND, None;
    }
    if amount.None? {
      return SERVER_ERROR, None;
    }
    var i := at.value;
    var updated := Confirmed(db.users[i], amount.value, paymentDate);
    db.ReplaceUser(i, updated);
    return OK, Some(updated);
  }

  // ---------------------------------------------------------------------------
  // Creating customers and resellers

  /** The body of a create request; the spread `...rest` carries the profile fields. */
  datatype UserRequest = UserRequest(
    username: string,
    name: string,
    phone: string,
    password: Option<string>,
    package_id: Option<string>,
    reseller_id: Option<string>,
    payment_method: Patch<Option<string>>,
    package_start_date: Option<string>)

  /** `if (x) x = parseInt(x); if (x) connect`: the id to link to, when the field is truthy after parsing. */
  function ConnectId(raw: Option<string>): (r: Option<int>)
    ensures !Given(raw) ==> r == None
    ensures Given(raw) && Text.ParseInt(raw.value).NaN? ==> r == None
    ensures r.Some? ==> r.value != 0 && Text.ParseInt(raw.value) == Text.Int(r.value)
  {
    if !Given(raw) then None
    else match Text.ParseInt(raw.value)
      case NaN => None
      case Int(n) => if n == 0 then None else Some(n)
  }

  /** A customer's id typed as digits links to that id. */
  lemma ConnectPrintedId(n: nat)
    requires n > 0
    ensures ConnectId(Some(Text.DecimalString(n))) == Some(n)
  {
    Text.ParseIntRoundTrip(n);
  }

  /** The hashed form of a supplied password; an empty or missing one stores nothing. */
  function HashIfGiven(password: Option<string>): (r: Option<Secret>)
    ensures Given(password) <==> r.Some?
    ensures r.Some? ==> r.value == Hashed(password.value)
  {
    if Given(password) then Some(Hashed(password.value)) else None
  }

  /**
   * The record `createCustomer` stores (its id is assigned on insert): role
   * CUSTOMER, payment method DAILY unless one is sent, a password only when
   * supplied and then hashed.
   */
  function CustomerRecord(req: UserRequest): (u: User)
    ensures u.role == CUSTOMER && u.username == req.username
    ensures req.payment_method.Keep? ==> u.payment_method == Some("DAILY")
    ensures req.payment_method.SetTo? ==> u.payment_method == req.payment_method.value
    ensures Given(req.password) ==> u.password == Some(Hashed(req.password.value))
    ensures !Given(req.password) ==> u.password == None
    ensures u.package_id == ConnectId(req.package_id) && u.reseller_id == ConnectId(req.reseller_id)
    ensures u.name == req.name && u.phone == req.phone && u.package_start_date == req.package_start_date
    ensures u.paid_amount == None && u.last_payment_date == None
  {
    User(0, req.username, req.name, req.phone, CUSTOMER, HashIfGiven(req.password),
         ConnectId(req.package_id), ConnectId(req.reseller_id),
         req.payment_method.Apply(Some("DAILY")),
         None, None, req.package_start_date, [], 0)
  }

  /** Whether the links a create request asks for point at rows that exist. */
  predicate LinksExist(db: Database, req: UserRequest)
    reads db
  {
    (ConnectId(req.package_id).Some? ==> FindPackageRow(db.packages, ConnectId(req.package_id).value).Some?) &&
    (ConnectId(req.reseller_id).Some? ==> FindUser(db.users, ConnectId(req.reseller_id).value).Some?)
  }

  /**
   * `createCustomer`: inserts CustomerRecord(req) with the next id (201). A
   * link to a missing package or reseller, or a taken username, fails in the
   * database (500) and inserts nothing.
   */
  method CreateCustomer(db: Database, req: UserRequest) returns (status: int, created: Option<User>)
    requires db.Valid()
    modifies db`users, db`nextUserId
    ensures db.Valid()
    ensures status == CREATED <==> old(LinksExist(db, req)) && FindUsername(old(db.users), req.username).None?
    ensures status != CREATED ==> status == SERVER_ERROR && created == None && db.users == old(db.users)
    ensures status == CREATED ==>
      created == Some(CustomerRecord(req).(id := old(db.nextUserId))) &&
      db.users == old(db.users) + [created.value]
  {
    if !LinksExist(db, req) {
      return SERVER_ERROR, None;
    }
    created := db.InsertUser(CustomerRecord(req));
    status := if created.Some? then CREATED else SERVER_ERROR;
  }

  /** The reseller body: the spread request with role RESELLER. */
  datatype ResellerRequest = ResellerRequest(username: string, name: string, phone: string, password: Option<string>)

  /** What `createReseller` stores as written: the password exactly as sent, not hashed. */
  function ResellerRecordAsWritten(req: ResellerRequest): (u: User)
    ensures u.role == RESELLER && u.username == req.username
    ensures req.password.Some? ==> u.password == Some(Plain(req.password.value))
    ensures req.password.None? ==> u.password == None
  {
    User(0, req.username, req.name, req.phone, RESELLER,
         if req.password.Some? then Some(Plain(req.password.value)) else None,
         None, None, None, None, None, None, [], 0)
  }

  /** The intended reseller record: as above, with the password hashed like every other account's. */
  function ResellerRecord(req: ResellerRequest): (u: User)
    ensures u.role == RESELLER && u.username == req.username
    ensures Given(req.password) ==> u.password == Some(Hashed(req.password.value))
    ensures !Given(req.password) ==> u.password == None
  {
    ResellerRecordAsWritten(req).(password := HashIfGiven(req.password))
  }

  /** `createReseller` as written: inserts the unhashed record (201), or 500 for a taken username. */
  method CreateReseller(db: Database, req: ResellerRequest) returns (status: int, created: Option<User>)
    requires db.Valid()
    modifies db`users, db`nextUserId
    ensures db.Valid()
    ensures status == CREATED <==> FindUsername(old(db.users), req.username).None?
    ensures status != CREATED ==> status == SERVER_ERROR && created == None && db.users == old(db.users)
    ensures status == CREATED ==>
      created == Some(ResellerRecordAsWritten(req).(id := old(db.nextUserId))) &&
      db.users == old(db.users) + [created.value]
  {
    created := db.InsertUser(ResellerRecordAsWritten(req));
    status := if created.Some? then CREATED else SERVER_ERROR;
  }

  /** `createReseller` with the password hashed. */
  method CreateResellerHashed(db: Database, req: ResellerRequest) returns (status: int, created: Option<User>)
    requires db.Valid()
    modifies db`users, db`nextUserId
    ensures db.Valid()
    ensures status == CREATED <==> FindUsername(old(db.users), req.username).None?
    ensures status != CREATED ==> status == SERVER_ERROR && created == None && db.users == old(db.users)
    ensures status == CREATED ==>
      created == Some(ResellerRecord(req).(id := old(db.nextUserId))) &&
      db.users == old(db.users) + [created.value]
  {
    created := db.InsertUser(ResellerRecord(req));
    status := if created.Some? then CREATED else SERVER_ERROR;
  }

  // ---------------------------------------------------------------------------
  // Updating, deleting, resetting passwords

  /**
   * The columns an update request may send; a column not sent is kept. The
   * body goes to `prisma.user.update` as it is, so role, package_id and
   * reseller_id can be changed as well.
   */
  datatype UserPatch = UserPatch(
    username: Patch<string>,
    name: Patch<string>,
    phone: Patch<string>,
    role: Patch<string>,
    package_id: Patch<Option<int>>,
    reseller_id: Patch<Option<int>>,
    payment_method: Patch<Option<string>>,
    package_start_date: Patch<Option<string>>,
    password: Option<string>)

  /** The columns of a patch applied to a user; the id, the paid amount and the payment date are never sent, the password is handled by the caller. */
  function ApplyProfile(u: User, p: UserPatch): (v: User)
    ensures v.id == u.id && v.password == u.password
    ensures v.paid_amount == u.paid_amount && v.last_payment_date == u.last_payment_date
    ensures v.paid_dates == u.paid_dates && v.payment_days == u.payment_days
    ensures v.username == p.username.Apply(u.username) && v.name == p.name.Apply(u.name)
    ensures v.phone == p.phone.Apply(u.phone) && v.role == p.role.Apply(u.role)
    ensures v.package_id == p.package_id.Apply(u.package_id) && v.reseller_id == p.reseller_id.Apply(u.reseller_id)
    ensures v.payment_method == p.payment_method.Apply(u.payment_method)
    ensures v.package_start_date == p.package_start_date.Apply(u.package_start_date)
  {
    u.(username := p.username.Apply(u.username), name := p.name.Apply(u.name),
       phone := p.phone.Apply(u.phone), role := p.role.Apply(u.role),
       package_id := p.package_id.Apply(u.package_id), reseller_id := p.reseller_id.Apply(u.reseller_id),
       payment_method := p.payment_method.Apply(u.payment_method),
       package_start_date := p.package_start_date.Apply(u.package_start_date))
  }

  /** `updateCustomer`'s new row: the sent fields, and the password re-hashed only when a non-empty one is sent. */
  function CustomerUpdated(u: User, p: UserPatch): (v: User)
    ensures v == ApplyProfile(u, p).(password := v.password)
    ensures Given(p.password) ==> v.password == Some(Hashed(p.password.value))
    ensures !Given(p.password) ==> v.password == u.password
  {
    var v := ApplyProfile(u, p);
    if Given(p.password) then v.(password := Some(Hashed(p.password.value))) else v
  }

  /** `updateReseller`'s new row as written: the body as sent, so a sent password is stored unhashed. */
  function ResellerUpdatedAsWritten(u: User, p: UserPatch): (v: User)
    ensures v == ApplyProfile(u, p).(password := v.password)
    ensures p.password.Some? ==> v.password == Some(Plain(p.password.value))
    ensures p.password.None? ==> v.password == u.password
  {
    var v := ApplyProfile(u, p);
    if p.password.Some? then v.(password := Some(Plain(p.password.value))) else v
  }

  /**
   * Shared shape of the role-guarded updates: 404 unless the id has the role;
   * 500 when the new username belongs to another user; otherwise that one row
   * is replaced (200).
   */
  method UpdateGuarded(db: Database, id: int, role: string, next: User -> User) returns (status: int, updated: Option<User>)
    requires db.Valid()
    requires forall u :: next(u).id == u.id
    modifies db`users
    ensures db.Valid()
    ensures RoleAt(old(db.users), id, role).None? ==> status == NOT_FOUND && updated == None && db.users == old(db.users)
    ensures RoleAt(old(db.users), id, role).Some? ==>
      var i := RoleAt(old(db.users), id, role).value;
      var v := next(old(db.users)[i]);
      if old(db.UsernameTakenByOther(i, v.username)) then
        status == SERVER_ERROR && updated == None && db.users == old(db.users)
      else
        status == OK && updated == Some(v) && db.users == old(db.users)[i := v]
  {
    var at := RoleAt(db.users, id, role);
    if at.None? {
      return NOT_FOUND, None;
    }
    var i := at.value;
    var v := next(db.users[i]);
    if db.UsernameTakenByOther(i, v.username) {
      return SERVER_ERROR, None;
    }
    db.ReplaceUser(i, v);
    return OK, Some(v);
  }

  /** `updateCustomer`. */
  method UpdateCustomer(db: Database, id: int, p: UserPatch) returns (status: int, updated: Option<User>)
    requires db.Valid()
    modifies db`users
    ensures db.Valid()
    ensures RoleAt(old(db.users), id, CUSTOMER).None? ==> status == NOT_FOUND && updated == None && db.users == old(db.users)
    ensures RoleAt(old(db.users), id, CUSTOMER).Some? ==>
      var i := RoleAt(old(db.users), id, CUSTOMER).value;
      var v := CustomerUpdated(old(db.users)[i], p);
      if old(db.UsernameTakenByOther(i, v.username)) then
        status == SERVER_ERROR && updated == None && db.users == old(db.users)
      else
        status == OK && updated == Some(v) && db.users == old(db.users)[i := v]
  {
    status, updated := UpdateGuarded(db, id, CUSTOMER, u => CustomerUpdated(u, p));
  }

  /** `updateReseller` as written. */
  method UpdateReseller(db: Database, id: int, p: UserPatch) returns (status: int, updated: Option<User>)
    requires db.Valid()
    modifies db`users
    ensures db.Valid()
    ensures RoleAt(old(db.users), id, RESELLER).None? ==> status == NOT_FOUND && updated == None && db.users == old(db.users)
    ensures RoleAt(old(db.users), id, RESELLER).Some? ==>
      var i := RoleAt(old(db.users), id, RESELLER).value;
      var v := ResellerUpdatedAsWritten(old(db.users)[i], p);
      if old(db.UsernameTakenByOther(i, v.username)) then
        status == SERVER_ERROR && updated == None && db.users == old(db.users)
      else
        status == OK && updated == Some(v) && db.users == old(db.users)[i := v]
  {
    status, updated := UpdateGuarded(db, id, RESELLER, u => ResellerUpdatedAsWritten(u, p));
  }

  /** `updateReseller` with a sent password hashed, as `updateCustomer` does. */
  method UpdateResellerHashed(db: Database, id: int, p: UserPatch) returns (status: int, updated: Option<User>)
    requires db.Valid()
    modifies db`users
    ensures db.Valid()
    ensures RoleAt(old(db.users), id, RESELLER).None? ==> status == NOT_FOUND && updated == None && db.users == old(db.users)
    ensures RoleAt(old(db.users), id, RESELLER).Some? ==>
      var i := RoleAt(old(db.users), id, RESELLER).value;
      var v := CustomerUpdated(old(db.users)[i], p);
      if old(db.UsernameTakenByOther(i, v.username)) then
        status == SERVER_ERROR && updated == None && db.users == old(db.users)
      else
        status == OK && updated == Some(v) && db.users == old(db.users)[i := v]
  {
    status, updated := UpdateGuarded(db, id, RESELLER, u => CustomerUpdated(u, p));
  }

  /**
   * An update that sends another role takes the row out of the routes for its
   * old role: afterwards every handler guarded by that role answers 404 for it,
   * and the handlers of the new role find it.
   */
  lemma {:induction false} RoleChangeMovesRow(users: seq<User>, i: nat, p: UserPatch)
    requires NoDup(UserIds(users)) && i < |users|
    requires p.role.SetTo? && p.role.value != users[i].role
    ensures RoleAt(users[i := CustomerUpdated(users[i], p)], users[i].id, users[i].role).None?
    ensures RoleAt(users[i := CustomerUpdated(users[i], p)], users[i].id, p.role.value) == Some(i)
  {
    var v := CustomerUpdated(users[i], p);
    ReplaceKeepsIds(users, i, v);
    FindUserAt(users[i := v], i);
  }

  /** `assignCustomerToReseller`: sets reseller_id and package_id by `parseInt`, and payment_method when sent. */
  function Assigned(u: User, resellerId: int, packageId: int, paymentMethod: Patch<Option<string>>): (v: User)
    ensures v.reseller_id == Some(resellerId) && v.package_id == Some(packageId)
    ensures v.payment_method == paymentMethod.Apply(u.payment_method)
    ensures v.(reseller_id := u.reseller_id, package_id := u.package_id, payment_method := u.payment_method) == u
  {
    u.(reseller_id := Some(resellerId), package_id := Some(packageId), payment_method := paymentMethod.Apply(u.payment_method))
  }

  /**
   * `assignCustomerToReseller`: 404 unless the id is a customer's; an id that
   * does not parse is refused by the database (500); otherwise only that
   * customer's reseller, package and payment method change.
   */
  method AssignCustomerToReseller(db: Database, id: int, resellerId: Option<string>, packageId: Option<string>,
                                  paymentMethod: Patch<Option<string>>)
      returns (status: int, updated: Option<User>)
    requires db.Valid()
    modifies db`users
    ensures db.Valid()
    ensures RoleAt(old(db.users), id, CUSTOMER).None? ==> status == NOT_FOUND && db.users == old(db.users)
    ensures RoleAt(old(db.users), id, CUSTOMER).Some? && (ParsedOrNaN(resellerId).NaN? || ParsedOrNaN(packageId).NaN?) ==>
      status == SERVER_ERROR && db.users == old(db.users)
    ensures RoleAt(old(db.users), id, CUSTOMER).Some? && ParsedOrNaN(resellerId).Int? && ParsedOrNaN(packageId).Int? ==>
      var i := RoleAt(old(db.users), id, CUSTOMER).value;
      var v := Assigned(old(db.users)[i], ParsedOrNaN(resellerId).n, ParsedOrNaN(packageId).n, paymentMethod);
      status == OK && updated == Some(v) && db.users == old(db.users)[i := v]
  {
    var at := RoleAt(db.users, id, CUSTOMER);
    if at.None? {
      return NOT_FOUND, None;
    }
    var r, p := ParsedOrNaN(resellerId), ParsedOrNaN(packageId);
    if r.NaN? || p.NaN? {
      return SERVER_ERROR, None;
    }
    var i := at.value;
    var v := Assigned(db.users[i], r.n, p.n, paymentMethod);
    db.ReplaceUser(i, v);
    return OK, Some(v);
  }

  /** `parseInt` of a field that may be missing (`parseInt(undefined)` is NaN). */
  function ParsedOrNaN(raw: Option<string>): (r: Text.ParsedInt)
    ensures raw.None? ==> r.NaN?
    ensures raw.Some? ==> r == Text.ParseInt(raw.value)
  {
    if raw.None? then Text.NaN else Text.ParseInt(raw.value)
  }

  /**
   * `updateCustomerPackage`: 404 unless the id is a customer's; otherwise
   * package_id and payment_method are set to what was sent.
   */
  method UpdateCustomerPackage(db: Database, id: int, packageId: Patch<Option<int>>, paymentMethod: Patch<Option<string>>)
      returns (status: int, updated: Option<User>)
    requires db.Valid()
    modifies db`users
    ensures db.Valid()
    ensures RoleAt(old(db.users), id, CUSTOMER).None? ==> status == NOT_FOUND && db.users == old(db.users)
    ensures RoleAt(old(db.users), id, CUSTOMER).Some? ==>
      var i := RoleAt(old(db.users), id, CUSTOMER).value;
      var u := old(db.users)[i];
      var v := u.(package_id := packageId.Apply(u.package_id), payment_method := paymentMethod.Apply(u.payment_method));
      status == OK && updated == Some(v) && db.users == old(db.users)[i := v]
  {
    var at := RoleAt(db.users, id, CUSTOMER);
    if at.None? {
      return NOT_FOUND, None;
    }
    var i := at.value;
    var u := db.users[i];
    var v := u.(package_id := packageId.Apply(u.package_id), payment_method := paymentMethod.Apply(u.payment_method));
    db.ReplaceUser(i, v);
    return OK, Some(v);
  }

  /** `deleteCustomer` and `deleteReseller`: 404 unless the id has the role; otherwise that row goes. */
  method DeleteWithRole(db: Database, id: int, role: string) returns (status: int)
    requires db.Valid()
    modifies db`users
    ensures db.Valid()
    ensures RoleAt(old(db.users), id, role).None? ==> status == NOT_FOUND && db.users == old(db.users)
    ensures RoleAt(old(db.users), id, role).Some? ==>
      var i := RoleAt(old(db.users), id, role).value;
      status == OK && db.users == old(db.users)[..i] + old(db.users)[i + 1..]
  {
    var at := RoleAt(db.users, id, role);
    if at.None? {
      return NOT_FOUND;
    }
    db.DeleteUser(at.value);
    return OK;
  }

  method DeleteCustomer(db: Database, id: int) returns (status: int)
    requires db.Valid()
    modifies db`users
    ensures db.Valid()
    ensures RoleAt(old(db.users), id, CUSTOMER).None? ==> status == NOT_FOUND && db.users == old(db.users)
    ensures RoleAt(old(db.users), id, CUSTOMER).Some? ==>
      var i := RoleAt(old(db.users), id, CUSTOMER).value;
      status == OK && db.users == old(db.users)[..i] + old(db.users)[i + 1..]
  {
    status := DeleteWithRole(db, id, CUSTOMER);
  }

  method DeleteReseller(db: Database, id: int) returns (status: int)
    requires db.Valid()
    modifies db`users
    ensures db.Valid()
    ensures RoleAt(old(db.users), id, RESELLER).None? ==> status == NOT_FOUND && db.users == old(db.users)
    ensures RoleAt(old(db.users), id, RESELLER).Some? ==>
      var i := RoleAt(old(db.users), id, RESELLER).value;
      status == OK && db.users == old(db.users)[..i] + old(db.users)[i + 1..]
  {
    status := DeleteWithRole(db, id, RESELLER);
  }

  /** After a delete the id is gone from the table. */
  lemma {:induction false} DeletedIdGone(users: seq<User>, i: nat, next: int)
    requires i < |users| && IdsBelow(UserIds(users), next)
    ensures var t := users[..i] + users[i + 1..];
      forall k :: 0 <= k < |t| ==> t[k].id != users[i].id
  {
    var t := users[..i] + users[i + 1..];
    forall k | 0 <= k < |t| ensures t[k].id != users[i].id {
      var k' := if k < i then k else k + 1;
      assert t[k] == users[k'];
      assert UserIds(users)[k'] != UserIds(users)[i];
    }
  }

  /**
   * `resetCustomerPassword` and `resetResellerPassword`: 400 without a new
   * password, before any lookup; 404 unless the id has the role; otherwise
   * only that user's password changes, to the hash of the new one.
   */
  method ResetPassword(db: Database, id: int, role: string, newPassword: Option<string>) returns (status: int)
    requires db.Valid()
    modifies db`users
    ensures db.Valid()
    ensures !Given(newPassword) ==> status == BAD_REQUEST && db.users == old(db.users)
    ensures Given(newPassword) && RoleAt(old(db.users), id, role).None? ==> status == NOT_FOUND && db.users == old(db.users)
    ensures Given(newPassword) && RoleAt(old(db.users), id, role).Some? ==>
      var i := RoleAt(old(db.users), id, role).value;
      status == OK && db.users == old(db.users)[i := old(db.users)[i].(password := Some(Hashed(newPassword.value)))]
  {
    if !Given(newPassword) {
      return BAD_REQUEST;
    }
    var at := RoleAt(db.users, id, role);
    if at.None? {
      return NOT_FOUND;
    }
    var i := at.value;
    db.ReplaceUser(i, db.users[i].(password := Some(Hashed(newPassword.value))));
    return OK;
  }
}
