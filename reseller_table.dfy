/**
 * The admin reseller table: form validation, the uniqueness checks before a
 * reseller is created, the update request, the reset-password dialog and the
 * number of customers each reseller has.
 */
module ResellerTable {
  import opened Wrappers
  import opened Domain
  import opened Text
  import opened Forms
  import opened Store
  import UserController

  const NAME_EXISTS := "Reseller name already exists. Please choose another."

  /** `resellerData`. */
  datatype ResellerForm = ResellerForm(name: string, username: string, phone: string, password: string)

  /** A name and a phone, and in create mode a username and an acceptable password. */
  predicate FormAccepted(data: ResellerForm, isCreate: bool) {
    !IsBlank(data.name) && !IsBlank(data.phone) &&
    (isCreate ==> !IsBlank(data.username) && CreatePasswordError(data.password).None?)
  }

  /** `validateForm`: one error per rejected field. */
  function ValidateForm(data: ResellerForm, isCreate: bool): (errors: Errors)
    ensures "name" in errors <==> IsBlank(data.name)
    ensures "phone" in errors <==> IsBlank(data.phone)
    ensures "name" in errors ==> errors["name"] == NAME_REQUIRED
    ensures "phone" in errors ==> errors["phone"] == PHONE_REQUIRED
    ensures !isCreate ==> errors.Keys <= {"name", "phone"}
    ensures isCreate ==> ("username" in errors <==> IsBlank(data.username))
    ensures isCreate && "username" in errors ==> errors["username"] == USERNAME_REQUIRED
    ensures isCreate ==> ("password" in errors <==> CreatePasswordError(data.password).Some?)
    ensures isCreate && "password" in errors ==> errors["password"] == CreatePasswordError(data.password).value
    ensures errors.Keys <= {"name", "phone", "username", "password"}
    ensures errors == map[] <==> FormAccepted(data, isCreate)
  {
    var named: Errors := if IsBlank(data.name) then map["name" := NAME_REQUIRED] else map[];
    var phoned := if IsBlank(data.phone) then named["phone" := PHONE_REQUIRED] else named;
    var userChecked := if isCreate && IsBlank(data.username) then phoned["username" := USERNAME_REQUIRED] else phoned;
    if !isCreate then userChecked
    else if IsBlank(data.password) then userChecked["password" := PASSWORD_REQUIRED]
    else if Utf16Length(data.password) < 6 then userChecked["password" := PASSWORD_TOO_SHORT]
    else userChecked
  }

  /** The create request: the form as it is (the role is set by the server). */
  function CreatePayload(data: ResellerForm): (req: UserController.ResellerRequest)
    ensures req.username == data.username && req.name == data.name && req.phone == data.phone
    ensures req.password == Some(data.password)
  {
    UserController.ResellerRequest(data.username, data.name, data.phone, Some(data.password))
  }

  /** `updateData`: name and phone always, the password only when one was typed. */
  function UpdateData(data: ResellerForm): (p: UserController.UserPatch)
    ensures p.name == SetTo(data.name) && p.phone == SetTo(data.phone)
    ensures p.username == Keep && p.payment_method == Keep && p.package_start_date == Keep
    ensures p.role == Keep && p.package_id == Keep && p.reseller_id == Keep
    ensures data.password == "" ==> p.password == None
    ensures data.password != "" ==> p.password == Some(data.password)
  {
    UserController.UserPatch(Keep, SetTo(data.name), SetTo(data.phone), Keep, Keep, Keep, Keep, Keep,
                             if data.password != "" then Some(data.password) else None)
  }

  /**
   * An edit never renames the reseller's login nor changes its role, and a
   * password typed into the edit form reaches the table unhashed through the
   * server's update as written.
   */
  lemma EditKeepsUsernameAndStoresPlain(u: User, data: ResellerForm)
    ensures UserController.ResellerUpdatedAsWritten(u, UpdateData(data)).username == u.username
    ensures UserController.ResellerUpdatedAsWritten(u, UpdateData(data)).role == u.role
    ensures data.password != "" ==>
      UserController.ResellerUpdatedAsWritten(u, UpdateData(data)).password == Some(Plain(data.password))
    ensures data.password == "" ==> UserController.ResellerUpdatedAsWritten(u, UpdateData(data)).password == u.password
  {
  }

  /** Some listed reseller has the username. */
  predicate UsernameListed(resellers: seq<User>, username: string) {
    exists k :: 0 <= k < |resellers| && resellers[k].username == username
  }

  /** Some listed reseller has the name. */
  predicate NameListed(resellers: seq<User>, name: string) {
    exists k :: 0 <= k < |resellers| && resellers[k].name == name
  }

  /** `customers.filter((c) => c.reseller_id === reseller.id).length`. */
  function CustomerCount(customers: seq<User>, resellerId: int): (n: nat)
    ensures n <= |customers|
    ensures n == 0 <==> forall k :: 0 <= k < |customers| ==> customers[k].reseller_id != Some(resellerId)
  {
    if customers == [] then 0
    else
      var rest := CustomerCount(customers[1..], resellerId);
      assert forall k :: 1 <= k < |customers| ==> customers[k] == customers[1..][k - 1];
      (if customers[0].reseller_id == Some(resellerId) then 1 else 0) + rest
  }

  /** Counts add up over two lists of customers. */
  lemma {:induction false} CustomerCountAppend(a: seq<User>, b: seq<User>, resellerId: int)
    ensures CustomerCount(a + b, resellerId) == CustomerCount(a, resellerId) + CustomerCount(b, resellerId)
  {
    if a == [] {
      assert a + b == b;
    } else {
      assert (a + b)[0] == a[0] && (a + b)[1..] == a[1..] + b;
      CustomerCountAppend(a[1..], b, resellerId);
    }
  }

  /** Moving one customer to another reseller moves one from that reseller's count. */
  lemma CustomerCountReplace(customers: seq<User>, i: nat, v: User, resellerId: int)
    requires i < |customers| && customers[i].reseller_id == Some(resellerId) && v.reseller_id != Some(resellerId)
    ensures CustomerCount(customers[i := v], resellerId) + 1 == CustomerCount(customers, resellerId)
  {
    var a, b := customers[..i], customers[i + 1..];
    assert customers == a + [customers[i]] + b;
    assert customers[i := v] == a + [v] + b;
    CustomerCountAppend(a + [customers[i]], b, resellerId);
    CustomerCountAppend(a, [customers[i]], resellerId);
    CustomerCountAppend(a + [v], b, resellerId);
    CustomerCountAppend(a, [v], resellerId);
  }

  class Table {
    var data: ResellerForm
    var errors: Errors
    var editing: Option<User>
    var resetResellerId: Option<int>
    var newPassword: string

    constructor ()
      ensures data == ResellerForm("", "", "", "") && errors == map[] && editing == None
      ensures resetResellerId == None && newPassword == ""
    {
      data := ResellerForm("", "", "", "");
      errors := map[];
      editing := None;
      resetResellerId := None;
      newPassword := "";
    }

    method OpenEditModal(reseller: User)
      modifies this`editing, this`data, this`errors
      ensures editing == Some(reseller) && errors == map[]
      ensures data == ResellerForm(reseller.name, reseller.username, reseller.phone, "")
    {
      editing := Some(reseller);
      data := ResellerForm(reseller.name, reseller.username, reseller.phone, "");
      errors := map[];
    }

    /** `closeModals`: nothing is being edited or reset and no error shows; the form keeps its contents. */
    method CloseModals()
      modifies this`editing, this`resetResellerId, this`newPassword, this`errors
      ensures editing == None && resetResellerId == None && newPassword == "" && errors == map[]
    {
      editing := None;
      resetResellerId := None;
      newPassword := "";
      errors := map[];
    }

    /**
     * `createReseller`: validation, then the username check, then the name
     * check. `succeeded` is the outcome of the request; after a successful one
     * the dialogs close.
     */
    method CreateReseller(resellers: seq<User>, succeeded: bool) returns (sent: Option<UserController.ResellerRequest>)
      modifies this`errors, this`editing, this`resetResellerId, this`newPassword
      ensures !FormAccepted(data, true) ==> sent == None && errors == ValidateForm(data, true) && errors != map[]
      ensures !FormAccepted(data, true) ==> ("name" in errors <==> IsBlank(data.name))
      ensures !FormAccepted(data, true) ==> ("phone" in errors <==> IsBlank(data.phone))
      ensures FormAccepted(data, true) && UsernameListed(resellers, data.username) ==>
        sent == None && errors == map["username" := USERNAME_EXISTS]
      ensures FormAccepted(data, true) && !UsernameListed(resellers, data.username) && NameListed(resellers, data.name) ==>
        sent == None && errors == map["name" := NAME_EXISTS]
      ensures FormAccepted(data, true) && !UsernameListed(resellers, data.username) && !NameListed(resellers, data.name) ==>
        sent == Some(CreatePayload(data))
      ensures sent.Some? && succeeded ==> errors == map[] && editing == None && resetResellerId == None && newPassword == ""
      ensures !(sent.Some? && succeeded) ==>
        editing == old(editing) && resetResellerId == old(resetResellerId) && newPassword == old(newPassword)
      ensures sent.Some? && !succeeded ==> errors == old(errors)
    {
      var validation := ValidateForm(data, true);
      if validation != map[] {
        errors := validation;
        return None;
      }
      var k := 0;
      while k < |resellers|
        invariant 0 <= k <= |resellers|
        invariant forall j :: 0 <= j < k ==> resellers[j].username != data.username
      {
        if resellers[k].username == data.username {
          errors := map["username" := USERNAME_EXISTS];
          return None;
        }
        k := k + 1;
      }
      k := 0;
      while k < |resellers|
        invariant 0 <= k <= |resellers|
        invariant forall j :: 0 <= j < k ==> resellers[j].name != data.name
      {
        if resellers[k].name == data.name {
          errors := map["name" := NAME_EXISTS];
          return None;
        }
        k := k + 1;
      }
      sent := Some(CreatePayload(data));
      if succeeded {
        CloseModals();
      }
    }

    /** `updateReseller`: the update for the reseller being edited once name and phone are given; the dialogs close after a successful request. */
    method UpdateReseller(succeeded: bool) returns (sent: Option<(int, UserController.UserPatch)>)
      modifies this`errors, this`editing, this`resetResellerId, this`newPassword
      ensures old(editing).None? ==> sent == None && errors == old(errors)
      ensures old(editing).Some? && !FormAccepted(data, false) ==> sent == None && errors == ValidateForm(data, false) && errors != map[]
      ensures old(editing).Some? && !FormAccepted(data, false) ==> errors.Keys <= {"name", "phone"}
      ensures old(editing).Some? && FormAccepted(data, false) ==> sent == Some((old(editing).value.id, UpdateData(data)))
      ensures sent.Some? && succeeded ==> errors == map[] && editing == None && resetResellerId == None && newPassword == ""
      ensures !(sent.Some? && succeeded) ==>
        editing == old(editing) && resetResellerId == old(resetResellerId) && newPassword == old(newPassword)
      ensures sent.Some? && !succeeded ==> errors == old(errors)
    {
      if editing.None? {
        return None;
      }
      var validation := ValidateForm(data, false);
      if validation != map[] {
        errors := validation;
        return None;
      }
      sent := Some((editing.value.id, UpdateData(data)));
      if succeeded {
        CloseModals();
      }
    }

    /** `resetPassword`: the password checks come before any request; the dialogs close after a successful one. */
    method ResetPassword(succeeded: bool) returns (sent: Option<(Option<int>, string)>)
      modifies this`errors, this`editing, this`resetResellerId, this`newPassword
      ensures ResetPasswordError(old(newPassword)).Some? ==>
        sent == None && errors == map["password" := ResetPasswordError(old(newPassword)).value]
      ensures ResetPasswordError(old(newPassword)).None? ==> sent == Some((old(resetResellerId), old(newPassword)))
      ensures sent.Some? && succeeded ==> errors == map[] && editing == None && resetResellerId == None && newPassword == ""
      ensures !(sent.Some? && succeeded) ==>
        editing == old(editing) && resetResellerId == old(resetResellerId) && newPassword == old(newPassword)
      ensures sent.Some? && !succeeded ==> errors == old(errors)
    {
      var e := ResetPasswordError(newPassword);
      if e.Some? {
        errors := map["password" := e.value];
        return None;
      }
      sent := Some((resetResellerId, newPassword));
      if succeeded {
        CloseModals();
      }
    }
  }
}
