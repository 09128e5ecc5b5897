/**
 * A reseller's customer management screen: the package input, the create,
 * reset-password and assign guards with the requests they send, and the list
 * of customers still free to assign.
 */
module CustomerManagement {
  import opened Wrappers
  import opened Domain
  import opened Text
  import opened Forms
  import UserController
  import Store

  const CREDENTIALS_REQUIRED := "Username and password are required"
  const SELECT_CUSTOMER := "Please select a customer"
  const PACKAGE_AND_METHOD_REQUIRED := "Package and payment method are required"

  /** `value ? parseInt(value) : null` for the package select. */
  function PackageInput(value: string): (r: Option<ParsedInt>)
    ensures value == "" <==> r.None?
    ensures r.Some? ==> r.value == ParseInt(value)
  {
    if value == "" then None else Some(ParseInt(value))
  }

  /** A package id put into the select reads back as that id. */
  lemma PackageInputOfPrintedId(n: nat)
    ensures PackageInput(DecimalString(n)) == Some(Int(n))
  {
    ParseIntRoundTrip(n);
  }

  /** A parsed number as JSON carries it: NaN is sent as null. */
  function JsonNumber(p: ParsedInt): (r: Option<string>)
    ensures p.NaN? ==> r.None?
    ensures p.Int? && p.n >= 0 ==> r == Some(DecimalString(p.n))
  {
    match p
    case NaN => None
    case Int(n) => Some(if n < 0 then "-" + DecimalString(-n) else DecimalString(n))
  }

  /** `formData`. */
  datatype ManagedForm = ManagedForm(
    username: string,
    password: string,
    name: string,
    phone: string,
    package_id: Option<ParsedInt>,
    payment_method: Option<string>,
    package_start_date: string)

  /** The create request: role "CUSTOMER", the reseller from the route, an empty start date as null. */
  function CreatePayload(data: ManagedForm, resellerId: string): (req: UserController.UserRequest)
    ensures req.username == data.username && req.password == Some(data.password)
    ensures req.reseller_id == JsonNumber(ParseInt(resellerId))
    ensures data.package_start_date == "" ==> req.package_start_date == None
    ensures data.package_start_date != "" ==> req.package_start_date == Some(data.package_start_date)
    ensures req.payment_method == Store.SetTo(data.payment_method)
  {
    UserController.UserRequest(
      data.username, data.name, data.phone, Some(data.password),
      match data.package_id case None => None case Some(p) => JsonNumber(p),
      JsonNumber(ParseInt(resellerId)), Store.SetTo(data.payment_method),
      if data.package_start_date == "" then None else Some(data.package_start_date))
  }

  /**
   * The form always carries `payment_method`, so the server's "DAILY" default
   * never applies: a create without a package stores a null method.
   */
  lemma CreatedWithoutPackageHasNoMethod(data: ManagedForm, resellerId: string)
    requires data.payment_method.None?
    ensures UserController.CustomerRecord(CreatePayload(data, resellerId)).payment_method == None
  {
  }

  /** A customer created on a reseller's page is linked to that reseller. */
  lemma CreatedUnderReseller(data: ManagedForm, reseller: nat)
    requires reseller > 0
    ensures UserController.ConnectId(CreatePayload(data, DecimalString(reseller)).reseller_id) == Some(reseller)
  {
    ParseIntRoundTrip(reseller);
    UserController.ConnectPrintedId(reseller);
  }

  /** The body of the assign request. */
  datatype AssignRequest = AssignRequest(
    customerId: string,
    reseller_id: string,
    package_id: int,
    payment_method: string,
    package_start_date: Option<string>)

  /** An assignment of a printed package id to a printed reseller id is read back by the server as those ids. */
  lemma AssignIdsReadBack(req: AssignRequest, reseller: nat)
    requires req.reseller_id == DecimalString(reseller) && req.package_id >= 0
    ensures UserController.ParsedOrNaN(Some(req.reseller_id)) == Int(reseller)
    ensures UserController.ParsedOrNaN(JsonNumber(Int(req.package_id))) == Int(req.package_id)
  {
    ParseIntRoundTrip(reseller);
    assert JsonNumber(Int(req.package_id)) == Some(DecimalString(req.package_id));
    ParseIntRoundTrip(req.package_id);
  }

  /** `getUnassignedCustomers`: no reseller (null or 0) and not already on this reseller's list. */
  function UnassignedCustomers(all: seq<User>, mine: seq<User>): (r: seq<User>)
    ensures |r| <= |all|
    ensures forall u :: u in r <==>
      u in all && (u.reseller_id.None? || u.reseller_id == Some(0)) && forall k :: 0 <= k < |mine| ==> mine[k].id != u.id
  {
    if all == [] then []
    else
      var u := all[0];
      if (u.reseller_id.None? || u.reseller_id == Some(0)) && forall k :: 0 <= k < |mine| ==> mine[k].id != u.id then
        [u] + UnassignedCustomers(all[1..], mine)
      else UnassignedCustomers(all[1..], mine)
  }

  /** No customer can be assigned twice to the same reseller from the picker. */
  lemma UnassignedNotMine(all: seq<User>, mine: seq<User>, u: User)
    requires u in UnassignedCustomers(all, mine)
    ensures u !in mine
  {
  }

  /** A parsed number JavaScript treats as true: neither NaN nor 0. */
  predicate Truthy(p: ParsedInt) {
    p.Int? && p.n != 0
  }

  /** The payment method of the first package carrying id `n`, if any. */
  function MethodOf(packages: seq<Package>, n: int): (r: Option<string>)
    ensures r.None? <==> forall i :: 0 <= i < |packages| ==> packages[i].id != n
    ensures UniquePackageIds(packages) ==>
      forall i :: 0 <= i < |packages| && packages[i].id == n ==> r == Some(packages[i].payment_method)
  {
    FoundByUniqueId(packages, n);
    match FindPackage(packages, Some(n))
    case None => None
    case Some(p) => Some(p.payment_method)
  }

  lemma FoundByUniqueId(packages: seq<Package>, n: int)
    ensures UniquePackageIds(packages) ==>
      forall i :: 0 <= i < |packages| && packages[i].id == n ==> FindPackage(packages, Some(n)) == Some(packages[i])
  {
    if UniquePackageIds(packages) {
      forall i | 0 <= i < |packages| && packages[i].id == n
        ensures FindPackage(packages, Some(n)) == Some(packages[i])
      {
        FindPackageUnique(packages, i);
      }
    }
  }

  /**
   * The assign picker's method: the chosen package's method when the choice
   * is a true number naming a package, "" otherwise.
   */
  function SelectedMethod(packages: seq<Package>, selected: Option<ParsedInt>): (m: string)
    ensures !(selected.Some? && Truthy(selected.value)) ==> m == ""
    ensures selected.Some? && selected.value.Int? && MethodOf(packages, selected.value.n).None? ==> m == ""
    ensures selected.Some? && Truthy(selected.value) && MethodOf(packages, selected.value.n).Some? ==>
      m == MethodOf(packages, selected.value.n).value
  {
    if selected.Some? && Truthy(selected.value) then
      match MethodOf(packages, selected.value.n)
      case Some(m) => m
      case None => ""
    else ""
  }

  /** Choosing a listed package by its printed id in the assign picker brings that package's method. */
  lemma SelectingPrintedIdBringsMethod(packages: seq<Package>, i: nat)
    requires UniquePackageIds(packages) && i < |packages| && packages[i].id > 0
    ensures SelectedMethod(packages, Some(ParseInt(DecimalString(packages[i].id)))) == packages[i].payment_method
  {
    ParseIntRoundTrip(packages[i].id);
  }

  /**
   * The create and edit modals' package select: the chosen package's method,
   * or "" when the value names no package (the create modal's explicit ""
   * for the empty choice is the same value).
   */
  function ChoiceMethod(value: string, packages: seq<Package>): (r: Option<string>)
    ensures r.Some?
    ensures ParseInt(value).NaN? ==> r == Some("")
    ensures ParseInt(value).Int? && MethodOf(packages, ParseInt(value).n).Some? ==> r == MethodOf(packages, ParseInt(value).n)
    ensures ParseInt(value).Int? && MethodOf(packages, ParseInt(value).n).None? ==> r == Some("")
  {
    match ParseInt(value)
    case NaN => Some("")
    case Int(n) => Some(match MethodOf(packages, n) case Some(m) => m case None => "")
  }

  /**
   * The effect on a new `formData.package_id`: a true id naming a package
   * sets that package's method, a true id naming none keeps the method, and
   * anything else (null, NaN, 0) clears it to null.
   */
  function PackageIdEffect(packageId: Option<ParsedInt>, current: Option<string>, packages: seq<Package>): (r: Option<string>)
    ensures !(packageId.Some? && Truthy(packageId.value)) ==> r == None
    ensures packageId.Some? && Truthy(packageId.value) && MethodOf(packages, packageId.value.n).None? ==> r == current
    ensures packageId.Some? && Truthy(packageId.value) && MethodOf(packages, packageId.value.n).Some? ==>
      r == MethodOf(packages, packageId.value.n)
  {
    if packageId.Some? && Truthy(packageId.value) then
      match MethodOf(packages, packageId.value.n)
      case Some(m) => Some(m)
      case None => current
    else None
  }

  /**
   * Choosing a listed package by its printed id in a modal sets its method,
   * whether or not the effect runs; going back to the empty choice leaves ""
   * when the effect does not run and null when it does.
   */
  lemma FormChoiceOfPrintedId(packages: seq<Package>, i: nat)
    requires UniquePackageIds(packages) && i < |packages| && packages[i].id > 0
    ensures ChoiceMethod(DecimalString(packages[i].id), packages) == Some(packages[i].payment_method)
    ensures PackageIdEffect(PackageInput(DecimalString(packages[i].id)), ChoiceMethod(DecimalString(packages[i].id), packages), packages)
      == Some(packages[i].payment_method)
    ensures ChoiceMethod("", packages) == Some("") && PackageIdEffect(PackageInput(""), Some(""), packages) == None
  {
    ParseIntRoundTrip(packages[i].id);
    PackageInputOfPrintedId(packages[i].id);
    TrimStartAllSpace("");
  }

  /** A notification the screen shows. */
  datatype Notice = Notice(message: string, kind: string)

  class Manager {
    const resellerId: string
    var formData: ManagedForm
    var selectedCustomer: Option<User>
    var newPassword: string
    var selectedCustomerToAssign: Option<string>
    var selectedPackage: Option<ParsedInt>
    var selectedPaymentMethod: string
    var assignPackageStartDate: string
    var notification: Option<Notice>

    constructor (resellerId: string)
      ensures this.resellerId == resellerId && selectedCustomer == None && selectedCustomerToAssign == None
      ensures selectedPackage == None && selectedPaymentMethod == "" && newPassword == "" && notification == None
    {
      this.resellerId := resellerId;
      formData := ManagedForm("", "", "", "", None, None, "");
      selectedCustomer := None;
      newPassword := "";
      selectedCustomerToAssign := None;
      selectedPackage := None;
      selectedPaymentMethod := "";
      assignPackageStartDate := "";
      notification := None;
    }

    /** `handleInputChange` on the package select. */
    method SetPackageInput(value: string)
      modifies this`formData
      ensures formData == old(formData).(package_id := PackageInput(value))
    {
      formData := formData.(package_id := PackageInput(value));
    }

    /**
     * A package chosen in a modal's select: handleInputChange sets the id and
     * the handler the method it names; when the id differs from the old one,
     * the package_id effect then runs on the new id.
     */
    method ChooseFormPackage(value: string, packages: seq<Package>)
      modifies this`formData
      ensures formData.package_id == PackageInput(value)
      ensures formData.package_id != old(formData.package_id) ==>
        formData.payment_method == PackageIdEffect(formData.package_id, ChoiceMethod(value, packages), packages)
      ensures formData.package_id == old(formData.package_id) ==> formData.payment_method == ChoiceMethod(value, packages)
      ensures formData == old(formData).(package_id := formData.package_id, payment_method := formData.payment_method)
    {
      var previous := formData.package_id;
      formData := formData.(package_id := PackageInput(value), payment_method := ChoiceMethod(value, packages));
      if formData.package_id != previous {
        formData := formData.(payment_method := PackageIdEffect(formData.package_id, formData.payment_method, packages));
      }
    }

    /**
     * A package chosen in the assign picker: `setSelectedPackage(parseInt(value))`,
     * then, when the choice changed, the effect that sets the picker's method.
     */
    method SelectPackage(value: string, packages: seq<Package>)
      modifies this`selectedPackage, this`selectedPaymentMethod
      ensures selectedPackage == Some(ParseInt(value))
      ensures selectedPackage != old(selectedPackage) ==> selectedPaymentMethod == SelectedMethod(packages, selectedPackage)
      ensures selectedPackage == old(selectedPackage) ==> selectedPaymentMethod == old(selectedPaymentMethod)
    {
      var previous := selectedPackage;
      selectedPackage := Some(ParseInt(value));
      if selectedPackage != previous {
        selectedPaymentMethod := SelectedMethod(packages, selectedPackage);
      }
    }

    /** `createCustomer`: a username and a password are required before anything is sent. */
    method CreateCustomer() returns (sent: Option<UserController.UserRequest>)
      modifies this`notification
      ensures formData.username == "" || formData.password == "" ==>
        sent == None && notification == Some(Notice(CREDENTIALS_REQUIRED, "error"))
      ensures formData.username != "" && formData.password != "" ==>
        sent == Some(CreatePayload(formData, resellerId)) && notification == old(notification)
    {
      if formData.username == "" || formData.password == "" {
        notification := Some(Notice(CREDENTIALS_REQUIRED, "error"));
        return None;
      }
      return Some(CreatePayload(formData, resellerId));
    }

    /** `resetPassword`: empty password, then no selected customer (silently), then too short. */
    method ResetPassword() returns (sent: Option<(int, string)>)
      modifies this`notification
      ensures newPassword == "" ==> sent == None && notification == Some(Notice(NEW_PASSWORD_REQUIRED, "error"))
      ensures newPassword != "" && selectedCustomer.None? ==> sent == None && notification == old(notification)
      ensures newPassword != "" && selectedCustomer.Some? && Utf16Length(newPassword) < 6 ==>
        sent == None && notification == Some(Notice(PASSWORD_TOO_SHORT, "error"))
      ensures sent.Some? <==> selectedCustomer.Some? && ResetPasswordError(newPassword).None?
      ensures sent.Some? ==> sent.value == (selectedCustomer.value.id, newPassword) && notification == old(notification)
    {
      if newPassword == "" {
        notification := Some(Notice(NEW_PASSWORD_REQUIRED, "error"));
        return None;
      }
      if selectedCustomer.None? {
        return None;
      }
      if Utf16Length(newPassword) < 6 {
        notification := Some(Notice(PASSWORD_TOO_SHORT, "error"));
        return None;
      }
      return Some((selectedCustomer.value.id, newPassword));
    }

    /** A customer is chosen in the assign picker. */
    predicate CustomerChosen()
      reads this
    {
      selectedCustomerToAssign.Some? && selectedCustomerToAssign.value != ""
    }

    /** A package (a non-zero number) and a payment method are chosen. */
    predicate PackageChosen()
      reads this
    {
      selectedPackage.Some? && selectedPackage.value.Int? && selectedPackage.value.n != 0 && selectedPaymentMethod != ""
    }

    /** `assignCustomer`: a customer first, then a package and a method. */
    method AssignCustomer() returns (sent: Option<AssignRequest>)
      modifies this`notification
      ensures !CustomerChosen() ==> sent == None && notification == Some(Notice(SELECT_CUSTOMER, "error"))
      ensures CustomerChosen() && !PackageChosen() ==>
        sent == None && notification == Some(Notice(PACKAGE_AND_METHOD_REQUIRED, "error"))
      ensures CustomerChosen() && PackageChosen() ==> notification == old(notification)
      ensures CustomerChosen() && PackageChosen() ==>
        sent == Some(AssignRequest(selectedCustomerToAssign.value, resellerId, selectedPackage.value.n, selectedPaymentMethod,
                                   if assignPackageStartDate == "" then None else Some(assignPackageStartDate)))
    {
      if selectedCustomerToAssign.None? || selectedCustomerToAssign.value == "" {
        notification := Some(Notice(SELECT_CUSTOMER, "error"));
        return None;
      }
      if selectedPackage.None? || selectedPackage.value.NaN? || selectedPackage.value.n == 0 || selectedPaymentMethod == "" {
        notification := Some(Notice(PACKAGE_AND_METHOD_REQUIRED, "error"));
        return None;
      }
      return Some(AssignRequest(selectedCustomerToAssign.value, resellerId, selectedPackage.value.n, selectedPaymentMethod,
                                if assignPackageStartDate == "" then None else Some(assignPackageStartDate)));
    }
  }
}
