/**
 * The admin's customer payment table: for each customer the amount owed
 * under its package, what is paid, what remains, a status label and whether
 * the Confirm Payment button is enabled.
 */
module CustomerPaymentTable {
  import opened Wrappers
  import opened Domain
  import Billing

  /**
   * `calculateTotalAmount`: the package rate charged for the customer's
   * `payment_days` under the package's cadence, or 0 without a package.
   */
  function TotalAmount(customer: User, packages: seq<Package>): (t: int)
    ensures (forall i :: 0 <= i < |packages| ==> Some(packages[i].id) != customer.package_id) ==> t == 0
    ensures var found := FindPackage(packages, customer.package_id);
            found.Some? && found.value.payment_method == "daily" ==>
              t == found.value.payment_amount * customer.payment_days
    ensures var found := FindPackage(packages, customer.package_id);
            found.Some? && found.value.payment_method == "weekly" ==>
              t == found.value.payment_amount * Billing.CeilDiv(customer.payment_days, 7)
    ensures var found := FindPackage(packages, customer.package_id);
            found.Some? && found.value.payment_method != "daily" && found.value.payment_method != "weekly" ==>
              t == found.value.payment_amount * Billing.CeilDiv(customer.payment_days, 30)
  {
    match FindPackage(packages, customer.package_id)
    case None => 0
    case Some(p) =>
      Billing.DailyChargesPerDay(p.payment_amount, customer.payment_days);
      Billing.Amount(p.payment_method, p.payment_amount, customer.payment_days)
  }

  /** `customer.paid_amount || 0`. */
  function PaidAmount(customer: User): (r: int)
    ensures customer.paid_amount.None? ==> r == 0
    ensures customer.paid_amount.Some? ==> r == customer.paid_amount.value
  {
    customer.paid_amount.GetOr(0)
  }

  /** What is still owed: the total, less what has been paid. */
  function RemainingAmount(customer: User, packages: seq<Package>): (r: int)
    ensures PaidAmount(customer) >= 0 ==> r <= TotalAmount(customer, packages)
    ensures customer.paid_amount.None? ==> r == TotalAmount(customer, packages)
    ensures r + PaidAmount(customer) == TotalAmount(customer, packages)
  {
    TotalAmount(customer, packages) - PaidAmount(customer)
  }

  datatype Status = Lunas | Sebagian | BelumBayar {
    /** The label shown in the Status column. */
    function Label(): (r: string)
      ensures r == "Lunas" <==> this == Lunas
      ensures r == "Sebagian" <==> this == Sebagian
      ensures r == "Belum Bayar" <==> this == BelumBayar
    {
      match this
      case Lunas => "Lunas"
      case Sebagian => "Sebagian"
      case BelumBayar => "Belum Bayar"
    }
  }

  /** Paid in full, partly paid, or not paid. */
  function StatusOf(customer: User, packages: seq<Package>): (s: Status)
    ensures s == Lunas <==> RemainingAmount(customer, packages) <= 0
    ensures s == Sebagian <==> RemainingAmount(customer, packages) > 0 && PaidAmount(customer) > 0
    ensures s == BelumBayar <==> RemainingAmount(customer, packages) > 0 && PaidAmount(customer) <= 0
  {
    var remaining := RemainingAmount(customer, packages);
    if remaining <= 0 then Lunas
    else if PaidAmount(customer) > 0 then Sebagian
    else BelumBayar
  }

  /** `disabled={remainingAmount <= 0}` on the Confirm Payment button. */
  function ConfirmDisabled(customer: User, packages: seq<Package>): (b: bool)
    ensures b <==> StatusOf(customer, packages) == Lunas
  {
    RemainingAmount(customer, packages) <= 0
  }

  /** The three labels are distinct, so the status column tells the cases apart. */
  lemma {:induction false} LabelsDistinct(s: Status, t: Status)
    requires s != t
    ensures s.Label() != t.Label()
  {
    match s
    case Lunas => assert s.Label()[0] == 'L';
    case Sebagian => assert s.Label()[0] == 'S';
    case BelumBayar => assert s.Label()[0] == 'B';
  }

  /** A weekly customer is charged one full week for any one to seven days. */
  lemma WeeklyPartialWeek(customer: User, packages: seq<Package>)
    requires var found := FindPackage(packages, customer.package_id);
             found.Some? && found.value.payment_method == "weekly"
    requires 1 <= customer.payment_days <= 7
    ensures TotalAmount(customer, packages) == FindPackage(packages, customer.package_id).value.payment_amount
  {
    Billing.CeilDivOnePeriod(customer.payment_days, 7);
  }

  /** A customer without a matching package owes nothing, so with a non-negative payment it shows as paid. */
  lemma NoPackageShowsPaid(customer: User, packages: seq<Package>)
    requires forall i :: 0 <= i < |packages| ==> Some(packages[i].id) != customer.package_id
    requires PaidAmount(customer) >= 0
    ensures StatusOf(customer, packages) == Lunas && ConfirmDisabled(customer, packages)
  {
  }

  /**
   * An example of the exact comparison: a package stored with the
   * upper-case "DAILY" the admin package form sends is billed per 30 days, so
   * ten days of a 10000 package show a total of 10000, not 100000.
   */
  lemma UpperCaseDailyBilledPerThirtyDays(customer: User, pkg: Package)
    requires pkg.payment_method == "DAILY" && pkg.payment_amount == 10000
    requires customer.package_id == Some(pkg.id) && customer.payment_days == 10
    ensures TotalAmount(customer, [pkg]) == 10000
  {
    Billing.CeilDivOnePeriod(10, 30);
  }
}
