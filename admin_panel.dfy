/**
 * The admin panel's own logic: the package form's product selection and its
 * price, the package create and edit payloads, the bulk payment confirmation
 * and the local update of a customer after a payment.
 */
module AdminPanel {
  import opened Wrappers
  import opened Domain
  import opened Lists
  import opened Store
  import Text
  import Billing
  import PackageController

  /** The package form being filled in. */
  datatype PackageForm = PackageForm(
    name: string,
    description: string,
    payment_method: string,
    payment_amount: int,
    payment_months: int,
    productIds: seq<int>)

  /** Product ids are distinct in the catalogue. */
  predicate UniqueProductIds(products: seq<Product>) {
    forall i, j :: 0 <= i < j < |products| ==> products[i].id != products[j].id
  }

  /** `products.filter(p => ids.includes(p.id)).reduce((s, p) => s + p.price, 0)`. */
  function SelectedTotal(products: seq<Product>, ids: seq<int>): (t: int)
    ensures (forall k :: 0 <= k < |products| ==> products[k].id !in ids) ==> t == 0
    ensures (forall k :: 0 <= k < |products| ==> products[k].price >= 0) ==> t >= 0
  {
    if products == [] then 0
    else (if products[0].id in ids then products[0].price else 0) + SelectedTotal(products[1..], ids)
  }

  /** `products.find(p => p.id === id)?.price || 0`. */
  function PriceOf(products: seq<Product>, id: int): (r: int)
    ensures FindProduct(products, id).None? ==> r == 0
    ensures FindProduct(products, id).Some? ==> r == FindProduct(products, id).value.price
    ensures (forall i :: 0 <= i < |products| ==> products[i].id != id) ==> r == 0
    ensures forall i :: 0 <= i < |products| && products[i].id == id && (forall j :: 0 <= j < i ==> products[j].id != id) ==>
      r == products[i].price
  {
    match FindProduct(products, id)
    case None => 0
    case Some(p) => p.price
  }

  /** `calculatePackageTotal`: the sum over the selected ids of their prices, 0 for an id not in the catalogue. */
  function PackageTotal(products: seq<Product>, ids: seq<int>): (t: int)
    ensures (forall k :: 0 <= k < |ids| ==> FindProduct(products, ids[k]).None?) ==> t == 0
    ensures (forall k :: 0 <= k < |products| ==> products[k].price >= 0) ==> t >= 0
  {
    if ids == [] then 0 else PriceOf(products, ids[0]) + PackageTotal(products, ids[1..])
  }

  /** Only which ids are selected matters to the catalogue sum, not their order or repetition. */
  lemma {:induction false} SelectedTotalByMembership(products: seq<Product>, a: seq<int>, b: seq<int>)
    requires forall x :: x in a <==> x in b
    ensures SelectedTotal(products, a) == SelectedTotal(products, b)
  {
    if products != [] {
      SelectedTotalByMembership(products[1..], a, b);
    }
  }

  /** An id no catalogue product has does not change the catalogue sum. */
  lemma {:induction false} SelectedTotalIgnoresUnknown(products: seq<Product>, x: int, rest: seq<int>)
    requires forall k :: 0 <= k < |products| ==> products[k].id != x
    ensures SelectedTotal(products, [x] + rest) == SelectedTotal(products, rest)
  {
    if products != [] {
      SelectedTotalIgnoresUnknown(products[1..], x, rest);
    }
  }

  /** Adding a fresh id to the selection adds that product's price. */
  lemma {:induction false} SelectedTotalCons(products: seq<Product>, x: int, rest: seq<int>)
    requires UniqueProductIds(products) && x !in rest
    ensures SelectedTotal(products, [x] + rest) == PriceOf(products, x) + SelectedTotal(products, rest)
  {
    if products != [] {
      var p, ps := products[0], products[1..];
      assert UniqueProductIds(ps) by {
        forall i, j | 0 <= i < j < |ps| ensures ps[i].id != ps[j].id {
          assert ps[i] == products[i + 1] && ps[j] == products[j + 1];
        }
      }
      if p.id == x {
        assert forall k :: 0 <= k < |ps| ==> ps[k].id != x by {
          forall k | 0 <= k < |ps| ensures ps[k].id != x {
            assert ps[k] == products[k + 1];
          }
        }
        SelectedTotalIgnoresUnknown(ps, x, rest);
      } else {
        SelectedTotalCons(ps, x, rest);
        assert FindProduct(products, x) == FindProduct(ps, x);
      }
    }
  }

  /**
   * The two ways the panel prices a package agree: the catalogue sum that
   * `toggleProductInPackage` stores and `calculatePackageTotal`'s sum over the
   * ids, as long as neither list repeats an id.
   */
  lemma {:induction false} TotalsAgree(products: seq<Product>, ids: seq<int>)
    requires UniqueProductIds(products) && NoDup(ids)
    ensures SelectedTotal(products, ids) == PackageTotal(products, ids)
  {
    if ids == [] {
      EmptySelectionCostsNothing(products);
    } else {
      assert ids == [ids[0]] + ids[1..];
      assert NoDup(ids[1..]);
      TotalsAgree(products, ids[1..]);
      SelectedTotalCons(products, ids[0], ids[1..]);
    }
  }

  lemma {:induction false} EmptySelectionCostsNothing(products: seq<Product>)
    ensures SelectedTotal(products, []) == 0
  {
    if products != [] {
      EmptySelectionCostsNothing(products[1..]);
    }
  }

  /** Toggling a product twice restores the selected products and the amount. */
  lemma ToggleTwiceRestoresAmount(products: seq<Product>, ids: seq<int>, x: int)
    requires NoDup(ids)
    ensures multiset(Toggle(Toggle(ids, x), x)) == multiset(ids)
    ensures SelectedTotal(products, Toggle(Toggle(ids, x), x)) == SelectedTotal(products, ids)
    ensures x !in ids ==> Toggle(Toggle(ids, x), x) == ids
  {
    ToggleTwiceSameElements(ids, x);
    var t := Toggle(Toggle(ids, x), x);
    forall y ensures y in t <==> y in ids {
      assert y in t <==> y in multiset(t);
    }
    SelectedTotalByMembership(products, t, ids);
    if x !in ids { ToggleTwiceAbsent(ids, x); }
  }

  /** The create payload: the method upper-cased, the product ids as selected. */
  function CreatePayload(form: PackageForm): (req: PackageController.CreateRequest)
    ensures req.payment_method == Some(Text.Upper(form.payment_method))
    ensures req.name == Some(form.name) && req.productIds == Some(form.productIds)
    ensures req.payment_amount == form.payment_amount && req.payment_months == Some(form.payment_months)
  {
    PackageController.CreateRequest(Some(form.name), Some(form.description), Some(Text.Upper(form.payment_method)),
                                    form.payment_amount, Some(form.payment_months), Some(form.productIds))
  }

  /** The edit payload: every field sent, the method upper-cased. */
  function EditPayload(form: PackageForm): (req: PackageController.UpdateRequest)
    ensures req.payment_method == SetTo(Text.Upper(form.payment_method))
    ensures req.productIds == Some(form.productIds) && req.name == SetTo(form.name)
  {
    PackageController.UpdateRequest(SetTo(form.name), SetTo(Some(form.description)), SetTo(Text.Upper(form.payment_method)),
                                    SetTo(form.payment_amount), SetTo(Some(form.payment_months)), Some(form.productIds))
  }

  /**
   * A package created from the form with the method "daily" is stored as
   * "DAILY", which the admin's payment screens then bill per 30 days.
   */
  lemma {:induction false} DailyFormBilledMonthly(form: PackageForm, count: nat)
    requires form.payment_method == "daily"
    ensures CreatePayload(form).payment_method == Some("DAILY")
    ensures Billing.Amount(CreatePayload(form).payment_method.value, form.payment_amount, count)
         == Billing.Amount("monthly", form.payment_amount, count)
  {
    assert Text.Upper("daily") == "DAILY";
    Billing.UpperCaseCadenceBilledMonthly(form.payment_amount, count);
  }

  // ---------------------------------------------------------------------------
  // Bulk confirmation

  /** The outcome of `handleConfirmPayment`. */
  datatype Outcome =
    | NeedSelection            // alerted: a customer and a package must be chosen
    | Posted(payments: seq<Payment>)
    | Failed                   // the request was never sent; the error is shown

  /** `new Date("yyyy-MM-dd").toISOString()`: a date-only string is read as UTC midnight. */
  function IsoMidnight(date: string): (r: string)
    ensures |r| == |date| + 14 && r[..|date|] == date
  {
    date + "T00:00:00.000Z"
  }

  /** Distinct dates give distinct timestamps, so each selected date is its own record. */
  lemma IsoMidnightInjective(a: string, b: string)
    ensures IsoMidnight(a) == IsoMidnight(b) <==> a == b
  {
    if IsoMidnight(a) == IsoMidnight(b) {
      assert a == IsoMidnight(a)[..|a|] == IsoMidnight(b)[..|b|] == b;
    }
  }

  /** The intended records: one confirmed payment per date, at the package's amount, for the chosen months. */
  function BulkRecords(customer: User, pkg: Package, dates: seq<string>, startDate: string, months: int): (r: seq<Payment>)
    ensures |r| == |dates|
    ensures forall k :: 0 <= k < |dates| ==>
      r[k] == Payment(customer.id, pkg.id, IsoMidnight(dates[k]), pkg.payment_amount, "confirmed", startDate, months)
  {
    seq(|dates|, k requires 0 <= k < |dates| =>
      Payment(customer.id, pkg.id, IsoMidnight(dates[k]), pkg.payment_amount, "confirmed", startDate, months))
  }

  /**
   * `handleConfirmPayment` as written: the record mapping reads an undefined
   * variable, so any non-empty selection throws before the request is sent;
   * an empty selection posts an empty batch.
   */
  function ConfirmOutcomeAsWritten(customer: Option<User>, pkg: Option<Package>, dates: seq<string>): (o: Outcome)
    ensures customer.None? || pkg.None? ==> o == NeedSelection
    ensures customer.Some? && pkg.Some? && dates == [] ==> o == Posted([])
    ensures customer.Some? && pkg.Some? && dates != [] ==> o == Failed
  {
    if customer.None? || pkg.None? then NeedSelection
    else if dates == [] then Posted([])
    else Failed
  }

  /** `handleConfirmPayment` with the months taken from the panel's `paymentMonths` state. */
  function ConfirmOutcome(customer: Option<User>, pkg: Option<Package>, dates: seq<string>, startDate: string, months: int)
      : (o: Outcome)
    ensures customer.None? || pkg.None? ==> o == NeedSelection
    ensures customer.Some? && pkg.Some? ==> o == Posted(BulkRecords(customer.value, pkg.value, dates, startDate, months))
  {
    if customer.None? || pkg.None? then NeedSelection
    else Posted(BulkRecords(customer.value, pkg.value, dates, startDate, months))
  }

  /** As written, a confirmation with a selection never reaches the server; the intended one posts a record per date. */
  lemma AsWrittenNeverPosts(customer: User, pkg: Package, dates: seq<string>, startDate: string, months: int)
    requires dates != []
    ensures ConfirmOutcomeAsWritten(Some(customer), Some(pkg), dates) == Failed
    ensures var o := ConfirmOutcome(Some(customer), Some(pkg), dates, startDate, months);
      o.Posted? && |o.payments| == |dates| && forall k :: 0 <= k < |dates| ==> o.payments[k].status == "confirmed"
  {
  }

  // ---------------------------------------------------------------------------
  // The local customer update after a payment

  /** What the payment modal submits. */
  datatype PaymentSubmission = PaymentSubmission(customerId: int, amount: int, selectedDates: seq<string>, paymentDate: string)

  /** One customer after a submitted payment: paid amount grows, the dates are appended to the paid dates. */
  function Credit(c: User, data: PaymentSubmission): (v: User)
    ensures v.paid_amount == Some(c.paid_amount.GetOr(0) + data.amount)
    ensures v.paid_dates == c.paid_dates + data.selectedDates
    ensures v.(paid_amount := c.paid_amount, paid_dates := c.paid_dates) == c
  {
    c.(paid_amount := Some(c.paid_amount.GetOr(0) + data.amount), paid_dates := c.paid_dates + data.selectedDates)
  }

  /** The `customers.map` of `handlePaymentSubmit`: only the customer with the submitted id changes. */
  function Credited(customers: seq<User>, data: PaymentSubmission): (r: seq<User>)
    ensures |r| == |customers|
    ensures forall k :: 0 <= k < |customers| && customers[k].id == data.customerId ==> r[k] == Credit(customers[k], data)
    ensures forall k :: 0 <= k < |customers| && customers[k].id != data.customerId ==> r[k] == customers[k]
  {
    seq(|customers|, k requires 0 <= k < |customers| =>
      if customers[k].id == data.customerId then Credit(customers[k], data) else customers[k])
  }

  /** After a payment every date paid for shows as paid, alongside the dates paid before. */
  lemma CreditedMarksDatesPaid(customers: seq<User>, data: PaymentSubmission, k: nat)
    requires k < |customers| && customers[k].id == data.customerId
    ensures forall d :: d in data.selectedDates ==> d in Credited(customers, data)[k].paid_dates
    ensures forall d :: d in customers[k].paid_dates ==> d in Credited(customers, data)[k].paid_dates
  {
  }

  /**
   * How `handlePaymentSubmit` ends: a notification shown (success or not), or
   * a rejected promise when showing one raises.
   */
  datatype SubmitOutcome = Notified(success: bool) | Rejected

  /**
   * `handlePaymentSubmit` as written, after the request: the updater calls
   * `format` without a format string on the matching customer, which raises,
   * so the list is never replaced; `toast` is not imported, so both the
   * success and the error notification raise and the promise is rejected.
   */
  function SubmitAsWritten(customers: seq<User>, data: PaymentSubmission, requestSucceeded: bool): (r: (seq<User>, SubmitOutcome))
    ensures r.0 == customers && r.1 == Rejected
  {
    (customers, Rejected)
  }

  /** `handlePaymentSubmit` with a format string and `toast` imported: the intended local update. */
  function SubmitFixed(customers: seq<User>, data: PaymentSubmission, requestSucceeded: bool): (r: (seq<User>, SubmitOutcome))
    ensures requestSucceeded ==> r.0 == Credited(customers, data)
    ensures !requestSucceeded ==> r.0 == customers
    ensures r.1 == Notified(requestSucceeded)
  {
    if requestSucceeded then (Credited(customers, data), Notified(true)) else (customers, Notified(false))
  }

  /**
   * The submitted payment is lost from the local list as written: after a
   * successful request the customer shows the old paid amount, where the
   * intended update shows it credited.
   */
  lemma SubmitAsWrittenLosesPayment(customers: seq<User>, data: PaymentSubmission, k: nat)
    requires k < |customers| && customers[k].id == data.customerId && data.amount != 0
    ensures SubmitAsWritten(customers, data, true).0[k].paid_amount == customers[k].paid_amount
    ensures SubmitFixed(customers, data, true).0[k].paid_amount != customers[k].paid_amount
  {
  }

  class Panel {
    var products: seq<Product>
    var newPackage: PackageForm
    var customers: seq<User>
    var selectedCustomer: Option<User>
    var selectedPackage: Option<Package>
    var paymentStartDate: string
    var paymentMonths: int

    /** The form's amount is the price of the products selected in it. */
    ghost predicate AmountMatches()
      reads this
    {
      newPackage.payment_amount == SelectedTotal(products, newPackage.productIds)
    }

    constructor (products: seq<Product>, customers: seq<User>, today: string)
      ensures this.products == products && this.customers == customers
      ensures newPackage == PackageForm("", "", "daily", 0, 0, [])
      ensures selectedCustomer == None && selectedPackage == None
      ensures paymentStartDate == today && paymentMonths == 1
      ensures AmountMatches()
    {
      this.products := products;
      this.customers := customers;
      newPackage := PackageForm("", "", "daily", 0, 0, []);
      selectedCustomer := None;
      selectedPackage := None;
      paymentStartDate := today;
      paymentMonths := 1;
      new;
      EmptySelectionCostsNothing(products);
    }

    /** `toggleProductInPackage`: toggles the id and re-prices the form from the catalogue. */
    method ToggleProductInPackage(productId: int)
      modifies this`newPackage
      ensures newPackage == old(newPackage).(productIds := Toggle(old(newPackage.productIds), productId),
                                             payment_amount := SelectedTotal(products, Toggle(old(newPackage.productIds), productId)))
      ensures AmountMatches()
      ensures NoDup(old(newPackage.productIds)) ==> NoDup(newPackage.productIds)
    {
      var productIds := Toggle(newPackage.productIds, productId);
      var totalAmount := SelectedTotal(products, productIds);
      newPackage := newPackage.(productIds := productIds, payment_amount := totalAmount);
    }

    /** `calculatePackageTotal` on the form. */
    function CalculatePackageTotal(): (t: int)
      reads this
      ensures UniqueProductIds(products) && NoDup(newPackage.productIds) && AmountMatches() ==>
        t == newPackage.payment_amount
    {
      if UniqueProductIds(products) && NoDup(newPackage.productIds) then
        TotalsAgree(products, newPackage.productIds);
        PackageTotal(products, newPackage.productIds)
      else
        PackageTotal(products, newPackage.productIds)
    }

    /** `handleConfirmPayment` as written. */
    method HandleConfirmPayment(selectedDates: seq<string>) returns (outcome: Outcome)
      ensures outcome == ConfirmOutcomeAsWritten(selectedCustomer, selectedPackage, selectedDates)
    {
      if selectedCustomer.None? || selectedPackage.None? {
        return NeedSelection;
      }
      if |selectedDates| > 0 {
        return Failed;
      }
      return Posted([]);
    }

    /** `handleConfirmPayment` with the records built from `paymentMonths`. */
    method HandleConfirmPaymentFixed(selectedDates: seq<string>) returns (outcome: Outcome)
      ensures outcome == ConfirmOutcome(selectedCustomer, selectedPackage, selectedDates, paymentStartDate, paymentMonths)
    {
      if selectedCustomer.None? || selectedPackage.None? {
        return NeedSelection;
      }
      var customer, pkg := selectedCustomer.value, selectedPackage.value;
      var payments: seq<Payment> := [];
      var k := 0;
      while k < |selectedDates|
        invariant 0 <= k <= |selectedDates| && |payments| == k
        invariant forall j :: 0 <= j < k ==>
          payments[j] == Payment(customer.id, pkg.id, IsoMidnight(selectedDates[j]), pkg.payment_amount, "confirmed", paymentStartDate, paymentMonths)
      {
        payments := payments + [Payment(customer.id, pkg.id, IsoMidnight(selectedDates[k]), pkg.payment_amount,
                                        "confirmed", paymentStartDate, paymentMonths)];
        k := k + 1;
      }
      return Posted(payments);
    }

    /** `handlePaymentSubmit` as written: the local list never changes and the promise is rejected. */
    method HandlePaymentSubmit(data: PaymentSubmission, requestSucceeded: bool) returns (outcome: SubmitOutcome)
      modifies this`customers
      ensures (customers, outcome) == SubmitAsWritten(old(customers), data, requestSucceeded)
    {
      outcome := Rejected;
    }

    /**
     * `handlePaymentSubmit` with the date formatted by a format string and
     * `toast` imported: when the request succeeds the customer with the
     * submitted id is credited locally; when it fails nothing changes.
     */
    method HandlePaymentSubmitFixed(data: PaymentSubmission, requestSucceeded: bool) returns (outcome: SubmitOutcome)
      modifies this`customers
      ensures (customers, outcome) == SubmitFixed(old(customers), data, requestSucceeded)
    {
      if requestSucceeded {
        customers := Credited(customers, data);
      }
      outcome := Notified(requestSucceeded);
    }
  }
}
