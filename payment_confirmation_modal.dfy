/**
 * The admin's payment confirmation modal: the admin picks unpaid dates, the
 * modal prices them under the customer's package and hands the customer id,
 * the amount and the payment date to its caller.
 */
module PaymentConfirmationModal {
  import opened Wrappers
  import opened Domain
  import opened Lists
  import Billing

  /** What the modal hands to `onSubmit`. */
  datatype Submission = Submission(customer_id: int, amount: int, payment_date: string)

  class Modal {
    const customer: User
    const packages: seq<Package>
    var paymentAmount: int
    var paymentDate: string
    var selectedDates: seq<string>

    /** The selection never repeats a date and never holds a date already paid. */
    ghost predicate Valid()
      reads this
    {
      NoDup(selectedDates) &&
      forall i :: 0 <= i < |selectedDates| ==> selectedDates[i] !in customer.paid_dates
    }

    /** The shown amount is the price of the current selection (0 while there is no package). */
    ghost predicate AmountCurrent()
      reads this
    {
      match CustomerPackage()
      case None => paymentAmount == 0
      case Some(p) => paymentAmount == Billing.Amount(p.payment_method, p.payment_amount, |selectedDates|)
    }

    /** Opening the modal; the current date is a parameter because the model has no clock. */
    constructor (customer: User, packages: seq<Package>, today: string)
      ensures this.customer == customer && this.packages == packages
      ensures paymentAmount == 0 && paymentDate == today && selectedDates == []
      ensures Valid() && AmountCurrent()
    {
      this.customer := customer;
      this.packages := packages;
      paymentAmount := 0;
      paymentDate := today;
      selectedDates := [];
    }

    /** `packages.find(p => p.id === customer.package_id)`. */
    function CustomerPackage(): (r: Option<Package>)
      ensures r.Some? ==> r.value in packages && Some(r.value.id) == customer.package_id
      ensures r.None? <==> forall i :: 0 <= i < |packages| ==> Some(packages[i].id) != customer.package_id
    {
      FindPackage(packages, customer.package_id)
    }

    /** `calculatePaymentAmount`: prices the selection; without a package nothing changes. */
    method CalculatePaymentAmount()
      modifies this`paymentAmount
      ensures CustomerPackage().None? ==> paymentAmount == old(paymentAmount)
      ensures CustomerPackage().Some? ==>
        var p := CustomerPackage().value;
        paymentAmount == Billing.Amount(p.payment_method, p.payment_amount, |selectedDates|)
    {
      var found := CustomerPackage();
      if found.None? {
        return;
      }
      var p := found.value;
      var amount := 0;
      if p.payment_method == "daily" {
        amount := p.payment_amount * |selectedDates|;
        Billing.DailyChargesPerDay(p.payment_amount, |selectedDates|);
      } else if p.payment_method == "weekly" {
        amount := p.payment_amount * Billing.CeilDiv(|selectedDates|, 7);
      } else {
        amount := p.payment_amount * Billing.CeilDiv(|selectedDates|, 30);
      }
      paymentAmount := amount;
    }

    /** `handleDateToggle`: a paid date is ignored, any other date is toggled. */
    method HandleDateToggle(date: string)
      requires Valid()
      modifies this`selectedDates
      ensures Valid()
      ensures date in customer.paid_dates ==> selectedDates == old(selectedDates)
      ensures date !in customer.paid_dates ==> selectedDates == Toggle(old(selectedDates), date)
    {
      if date in customer.paid_dates {
        return;
      }
      selectedDates := Toggle(selectedDates, date);
    }

    /** A click on a date, followed by the effect that re-prices the selection whenever it changes. */
    method ClickDate(date: string)
      requires Valid() && AmountCurrent()
      modifies this`selectedDates, this`paymentAmount
      ensures Valid() && AmountCurrent()
      ensures date in customer.paid_dates ==> selectedDates == old(selectedDates)
      ensures date !in customer.paid_dates ==> selectedDates == Toggle(old(selectedDates), date)
      ensures date !in customer.paid_dates ==>
        |selectedDates| == if date in old(selectedDates) then |old(selectedDates)| - 1 else |old(selectedDates)| + 1
    {
      if date !in customer.paid_dates {
        ToggleLength(selectedDates, date);
      }
      HandleDateToggle(date);
      if CustomerPackage().Some? {
        CalculatePaymentAmount();
      }
    }

    /** The date input. */
    method SetPaymentDate(date: string)
      modifies this`paymentDate
      ensures paymentDate == date
    {
      paymentDate := date;
    }

    /** `handleSubmit`: the customer's id, the shown amount and the chosen payment date. */
    method HandleSubmit() returns (s: Submission)
      requires AmountCurrent()
      ensures s.customer_id == customer.id && s.payment_date == paymentDate
      ensures CustomerPackage().None? ==> s.amount == 0
      ensures CustomerPackage().Some? ==>
        var p := CustomerPackage().value;
        s.amount == Billing.Amount(p.payment_method, p.payment_amount, |selectedDates|)
    {
      s := Submission(customer.id, paymentAmount, paymentDate);
    }

    /** The Confirm Payment button is disabled while nothing is selected. */
    predicate SubmitDisabled(): (b: bool)
      reads this
      ensures b && AmountCurrent() ==> paymentAmount == 0
    {
      |selectedDates| == 0
    }

    /** A date button is disabled once the date is among the customer's paid dates. */
    predicate DateDisabled(date: string): (b: bool)
      reads this
      ensures b && Valid() ==> date !in selectedDates
    {
      date in customer.paid_dates
    }

    /** Whenever Confirm Payment can be clicked, a positive package rate gives a positive amount. */
    lemma EnabledSubmitIsPositive()
      requires AmountCurrent() && !SubmitDisabled()
      requires CustomerPackage().Some? && CustomerPackage().value.payment_amount > 0
      ensures paymentAmount > 0
    {
      var p := CustomerPackage().value;
      var n := |selectedDates|;
      assert Billing.Periods(p.payment_method, n) * Billing.PeriodDays(p.payment_method) >= n;
      assert Billing.Periods(p.payment_method, n) >= 1;
    }
  }

  /** Selecting a date and then deselecting it restores the amount shown. */
  lemma {:induction false} ReselectRestoresAmount(p: Package, s: seq<string>, date: string)
    requires NoDup(s)
    ensures Billing.Amount(p.payment_method, p.payment_amount, |Toggle(Toggle(s, date), date)|)
         == Billing.Amount(p.payment_method, p.payment_amount, |s|)
  {
    ToggleTwiceSameElements(s, date);
    assert |multiset(Toggle(Toggle(s, date), date))| == |multiset(s)|;
  }
}
