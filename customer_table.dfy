/**
 * The admin customer table: form validation, the create and update
 * requests it sends, the reset-password dialog and the customers it lists.
 */
module CustomerTable {
  import opened Wrappers
  import opened Domain
  import opened Text
  import opened Forms
  import opened Store
  import UserController

  /**
   * `newCustomerData`; `package_id` holds the select's value, or null, and an
   * empty phone stands for a missing one.
   */
  datatype CustomerForm = CustomerForm(
    username: string,
    password: string,
    name: string,
    phone: string,
    role: string,
    package_id: Option<string>)

  /** The form `openCreateModal` starts from. */
  const EMPTY_FORM := CustomerForm("", "", "", "", "customer", None)

  /** The form is acceptable: a name, and in create mode a username and an acceptable password. */
  predicate FormAccepted(data: CustomerForm, isCreate: bool) {
    !IsBlank(data.name) && (isCreate ==> !IsBlank(data.username) && CreatePasswordError(data.password).None?)
  }

  /** `validateForm`: one error per rejected field. */
  function ValidateForm(data: CustomerForm, isCreate: bool): (errors: Errors)
    ensures "name" in errors <==> IsBlank(data.name)
    ensures "name" in errors ==> errors["name"] == NAME_REQUIRED
    ensures !isCreate ==> errors.Keys <= {"name"}
    ensures isCreate ==> ("username" in errors <==> IsBlank(data.username))
    ensures isCreate && "username" in errors ==> errors["username"] == USERNAME_REQUIRED
    ensures isCreate ==> ("password" in errors <==> CreatePasswordError(data.password).Some?)
    ensures isCreate && "password" in errors ==> errors["password"] == CreatePasswordError(data.password).value
    ensures errors.Keys <= {"name", "username", "password"}
    ensures errors == map[] <==> FormAccepted(data, isCreate)
  {
    var named: Errors := if IsBlank(data.name) then map["name" := NAME_REQUIRED] else map[];
    var userChecked := if isCreate && IsBlank(data.username) then named["username" := USERNAME_REQUIRED] else named;
    if !isCreate then userChecked
    else if IsBlank(data.password) then userChecked["password" := PASSWORD_REQUIRED]
    else if Utf16Length(data.password) < 6 then userChecked["password" := PASSWORD_TOO_SHORT]
    else userChecked
  }

  /**
   * The create request: role "CUSTOMER" whatever the form says, an empty
   * package choice sent as null, the phone as typed.
   */
  function CreatePayload(data: CustomerForm): (req: UserController.UserRequest)
    ensures req.username == data.username && req.name == data.name && req.password == Some(data.password)
    ensures req.phone == data.phone
    ensures !UserController.Given(data.package_id) ==> req.package_id == None
    ensures UserController.Given(data.package_id) ==> req.package_id == data.package_id
    ensures req.reseller_id == None && req.payment_method == Keep
  {
    UserController.UserRequest(data.username, data.name, data.phone, Some(data.password),
                               if UserController.Given(data.package_id) then data.package_id else None,
                               None, Keep, None)
  }

  /** A customer the form accepts is stored as a customer with the password hashed. */
  lemma AcceptedCustomerStoredHashed(data: CustomerForm)
    requires FormAccepted(data, true)
    ensures var u := UserController.CustomerRecord(CreatePayload(data));
      u.role == UserController.CUSTOMER && u.password == Some(Hashed(data.password)) && u.payment_method == Some("DAILY")
  {
  }

  /** Some listed customer already has the username. */
  predicate UsernameListed(customers: seq<User>, username: string) {
    exists k :: 0 <= k < |customers| && customers[k].username == username
  }

  /** `filteredCustomers`: everyone whose role is neither "ADMIN" nor "RESELLER". */
  function ListedCustomers(users: seq<User>): (r: seq<User>)
    ensures |r| <= |users|
    ensures forall u :: u in r <==> u in users && u.role != "ADMIN" && u.role != "RESELLER"
  {
    if users == [] then []
    else if users[0].role != "ADMIN" && users[0].role != "RESELLER" then [users[0]] + ListedCustomers(users[1..])
    else ListedCustomers(users[1..])
  }

  /** Listing two tables one after the other lists each in turn: the screen keeps table order. */
  lemma {:induction false} ListedCustomersAppend(a: seq<User>, b: seq<User>)
    ensures ListedCustomers(a + b) == ListedCustomers(a) + ListedCustomers(b)
  {
    if a == [] {
      assert a + b == b;
    } else {
      assert (a + b)[0] == a[0] && (a + b)[1..] == a[1..] + b;
      ListedCustomersAppend(a[1..], b);
    }
  }

  /** A single user is listed exactly when its role is neither "ADMIN" nor "RESELLER". */
  lemma ListedCustomersSingle(u: User)
    ensures ListedCustomers([u]) == if u.role != "ADMIN" && u.role != "RESELLER" then [u] else []
  {
    assert [u][1..] == [];
  }

  /**
   * The edit form loaded from a customer; the password starts empty, an empty
   * role becomes "customer" and a package id of 0 or none is null, the other
   * ids (a negative one included) being kept.
   */
  function EditForm(customer: User): (f: CustomerForm)
    ensures f.username == customer.username && f.name == customer.name && f.phone == customer.phone && f.password == ""
    ensures customer.role != "" ==> f.role == customer.role
    ensures customer.role == "" ==> f.role == "customer"
    ensures f.package_id.Some? <==> customer.package_id.Some? && customer.package_id.value != 0
    ensures f.package_id.Some? ==> ParseInt(f.package_id.value) == Int(customer.package_id.value)
  {
    CustomerForm(customer.username, "", customer.name, customer.phone,
                 if customer.role == "" then "customer" else customer.role,
                 match customer.package_id
                 case Some(id) => if id == 0 then None else IntStringRoundTrip(id); Some(IntString(id))
                 case None => None)
  }

  /**
   * What `updateCustomer` sends: the whole form, so username, name, phone,
   * role and package are all set, and the password only counts when typed.
   */
  function EditPatch(data: CustomerForm): (p: UserController.UserPatch)
    ensures p.username == SetTo(data.username) && p.name == SetTo(data.name) && p.phone == SetTo(data.phone)
    ensures p.role == SetTo(data.role) && p.package_id == SetTo(UserController.ConnectId(data.package_id))
    ensures p.reseller_id == Keep && p.payment_method == Keep && p.package_start_date == Keep
    ensures p.password == Some(data.password)
  {
    UserController.UserPatch(SetTo(data.username), SetTo(data.name), SetTo(data.phone), SetTo(data.role),
                             SetTo(UserController.ConnectId(data.package_id)), Keep, Keep, Keep, Some(data.password))
  }

  /**
   * Saving the edit form unchanged leaves a customer as stored: the fields it
   * loads are the fields it sends back, and the empty password is not re-hashed.
   */
  lemma {:induction false} UnchangedEditKeepsCustomer(u: User)
    requires u.role != ""
    requires u.package_id.None? || u.package_id.value != 0
    ensures UserController.CustomerUpdated(u, EditPatch(EditForm(u))) == u
  {
    if u.package_id.Some? {
      assert EditForm(u).package_id == Some(IntString(u.package_id.value));
    }
  }

  class Table {
    const currentUserId: Option<int>
    var data: CustomerForm
    var errors: Errors
    var editing: Option<User>
    var resetCustomerId: Option<int>
    var newPassword: string

    constructor (currentUserId: Option<int>)
      ensures this.currentUserId == currentUserId && editing == None && resetCustomerId == None
      ensures data == EMPTY_FORM && errors == map[] && newPassword == ""
    {
      this.currentUserId := currentUserId;
      data := EMPTY_FORM;
      errors := map[];
      editing := None;
      resetCustomerId := None;
      newPassword := "";
    }

    /** `openCreateModal`: an empty form and no errors. */
    method OpenCreateModal()
      modifies this`data, this`errors
      ensures data == EMPTY_FORM && errors == map[]
    {
      data := EMPTY_FORM;
      errors := map[];
    }

    /** `openEditModal`: a no-op on the signed-in user's own row. */
    method OpenEditModal(customer: User)
      modifies this`editing, this`data, this`errors
      ensures currentUserId == Some(customer.id) ==> editing == old(editing) && data == old(data) && errors == old(errors)
      ensures currentUserId != Some(customer.id) ==> editing == Some(customer) && data == EditForm(customer) && errors == map[]
    {
      if currentUserId == Some(customer.id) {
        return;
      }
      editing := Some(customer);
      data := EditForm(customer);
      errors := map[];
    }

    /** `closeModals`: nothing is being edited or reset and no error shows; the form keeps its contents. */
    method CloseModals()
      modifies this`editing, this`resetCustomerId, this`newPassword, this`errors
      ensures editing == None && resetCustomerId == None && newPassword == "" && errors == map[]
    {
      editing := None;
      resetCustomerId := None;
      newPassword := "";
      errors := map[];
    }

    /**
     * `createCustomer`: the request it sends, or none with the errors shown.
     * `succeeded` is the outcome of the request; after a successful one the
     * dialogs close.
     */
    method CreateCustomer(customers: seq<User>, succeeded: bool) returns (sent: Option<UserController.UserRequest>)
      modifies this`errors, this`editing, this`resetCustomerId, this`newPassword
      ensures !FormAccepted(data, true) ==> sent == None && errors == ValidateForm(data, true) && errors != map[]
      ensures !FormAccepted(data, true) ==> ("name" in errors <==> IsBlank(data.name))
      ensures !FormAccepted(data, true) ==> ("username" in errors <==> IsBlank(data.username))
      ensures !FormAccepted(data, true) ==> ("password" in errors <==> CreatePasswordError(data.password).Some?)
      ensures FormAccepted(data, true) && UsernameListed(customers, data.username) ==>
        sent == None && errors == map["username" := USERNAME_EXISTS]
      ensures FormAccepted(data, true) && !UsernameListed(customers, data.username) ==> sent == Some(CreatePayload(data))
      ensures sent.Some? && succeeded ==> errors == map[] && editing == None && resetCustomerId == None && newPassword == ""
      ensures !(sent.Some? && succeeded) ==>
        editing == old(editing) && resetCustomerId == old(resetCustomerId) && newPassword == old(newPassword)
      ensures sent.Some? && !succeeded ==> errors == old(errors)
    {
      var validation := ValidateForm(data, true);
      if validation != map[] {
        errors := validation;
        return None;
      }
      var k := 0;
      while k < |customers|
        invariant 0 <= k <= |customers|
        invariant forall j :: 0 <= j < k ==> customers[j].username != data.username
      {
        if customers[k].username == data.username {
          errors := map["username" := USERNAME_EXISTS];
          return None;
        }
        k := k + 1;
      }
      sent := Some(CreatePayload(data));
      if succeeded {
        CloseModals();
      }
    }

    /**
     * `updateCustomer`: for the customer being edited, when the name is given,
     * the whole form as a patch; the dialogs close after a successful request.
     */
    method UpdateCustomer(succeeded: bool) returns (sent: Option<(int, UserController.UserPatch)>)
      modifies this`errors, this`editing, this`resetCustomerId, this`newPassword
      ensures old(editing).None? ==> sent == None && errors == old(errors)
      ensures old(editing).Some? && IsBlank(data.name) ==> sent == None && errors == map["name" := NAME_REQUIRED]
      ensures old(editing).Some? && !IsBlank(data.name) ==> sent == Some((old(editing).value.id, EditPatch(data)))
      ensures sent.Some? && succeeded ==> errors == map[] && editing == None && resetCustomerId == None && newPassword == ""
      ensures !(sent.Some? && succeeded) ==>
        editing == old(editing) && resetCustomerId == old(resetCustomerId) && newPassword == old(newPassword)
      ensures sent.Some? && !succeeded ==> errors == old(errors)
    {
      if editing.None? {
        return None;
      }
      var validation := ValidateForm(data, false);
      if validation != map[] {
        assert validation.Keys == {"name"};
        errors := validation;
        return None;
      }
      sent := Some((editing.value.id, EditPatch(data)));
      if succeeded {
        CloseModals();
      }
    }

    /** `resetPassword`: the password checks come before any request; the dialogs close after a successful one. */
    method ResetPassword(succeeded: bool) returns (sent: Option<(Option<int>, string)>)
      modifies this`errors, this`editing, this`resetCustomerId, this`newPassword
      ensures ResetPasswordError(old(newPassword)).Some? ==>
        sent == None && errors == map["password" := ResetPasswordError(old(newPassword)).value]
      ensures ResetPasswordError(old(newPassword)).None? ==> sent == Some((old(resetCustomerId), old(newPassword)))
      ensures sent.Some? && succeeded ==> errors == map[] && editing == None && resetCustomerId == None && newPassword == ""
      ensures !(sent.Some? && succeeded) ==>
        editing == old(editing) && resetCustomerId == old(resetCustomerId) && newPassword == old(newPassword)
      ensures sent.Some? && !succeeded ==> errors == old(errors)
    {
      if newPassword == "" {
        errors := map["password" := NEW_PASSWORD_REQUIRED];
        return None;
      }
      if Utf16Length(newPassword) < 6 {
        errors := map["password" := PASSWORD_TOO_SHORT];
        return None;
      }
      sent := Some((resetCustomerId, newPassword));
      if succeeded {
        CloseModals();
      }
    }
  }
}
