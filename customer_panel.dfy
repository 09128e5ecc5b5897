/**
 * The customer's own panel: pick a package, pick payment dates on a calendar
 * that spans the chosen duration, see a pro-rata total and confirm.
 */
module CustomerPanel {
  import opened Wrappers
  import opened Domain
  import opened Lists
  import opened Dates
  import Text
  import Billing

  /** `calculateDailyRate`: the package amount spread over the days of one period. */
  function DailyRate(amount: real, cadence: string): (r: real)
    ensures cadence == "weekly" ==> r * 7.0 == amount
    ensures cadence == "monthly" ==> r * 30.0 == amount
    ensures cadence != "weekly" && cadence != "monthly" ==> r == amount
  {
    match cadence
    case "daily" => amount
    case "weekly" => amount / 7.0
    case "monthly" => amount / 30.0
    case _ => amount
  }

  /**
   * The panel's total for a number of selected days, pro rata: seven days of
   * a weekly and thirty days of a monthly package cost one period's amount.
   */
  function PanelTotal(pkg: Package, count: nat): (t: real)
    ensures count == 0 ==> t == 0.0
    ensures pkg.payment_amount >= 0 ==> t >= 0.0
    ensures pkg.payment_method == "weekly" ==> t * 7.0 == count as real * pkg.payment_amount as real
    ensures pkg.payment_method == "monthly" ==> t * 30.0 == count as real * pkg.payment_amount as real
    ensures pkg.payment_method != "weekly" && pkg.payment_method != "monthly" ==>
      t == count as real * pkg.payment_amount as real
  {
    count as real * DailyRate(pkg.payment_amount as real, pkg.payment_method)
  }

  /** Seven selected days of a weekly package cost exactly one week's amount. */
  lemma FullWeekCostsRate(pkg: Package)
    requires pkg.payment_method == "weekly"
    ensures PanelTotal(pkg, 7) == pkg.payment_amount as real
  {
  }

  /**
   * For a daily package the panel and the admin's payment screens agree; for
   * a weekly package the panel charges part of a week pro rata while the admin
   * screens charge the whole week, so the panel never shows more.
   */
  lemma {:induction false} PanelAgainstAdmin(pkg: Package, count: nat)
    requires pkg.payment_amount >= 0
    ensures pkg.payment_method == "daily" ==>
      PanelTotal(pkg, count) == Billing.Amount("daily", pkg.payment_amount, count) as real
    ensures pkg.payment_method == "weekly" && 1 <= count <= 7 ==>
      PanelTotal(pkg, count) <= Billing.Amount("weekly", pkg.payment_amount, count) as real
    ensures pkg.payment_method == "weekly" && 1 <= count < 7 && pkg.payment_amount > 0 ==>
      PanelTotal(pkg, count) < Billing.Amount("weekly", pkg.payment_amount, count) as real
  {
    Billing.DailyChargesPerDay(pkg.payment_amount, count);
    if pkg.payment_method == "weekly" && 1 <= count <= 7 {
      Billing.WeeklyPartialWeekIsFullWeek(pkg.payment_amount, count);
      var a := pkg.payment_amount as real;
      var d := DailyRate(a, "weekly");
      assert d * 7.0 == a;
      assert count as real * d <= 7.0 * d;
    }
  }

  /** How far the calendar reaches past the start date. */
  datatype EndOffset = AddMonths(months: int) | AddDays(days: int)

  /** The end of the calendar: whole months for a monthly package, otherwise 7 or 30 days per unit of duration. */
  function CalendarEnd(cadence: string, duration: int): (e: EndOffset)
    ensures cadence == "monthly" <==> e.AddMonths?
    ensures e.AddMonths? ==> e.months == duration
    ensures cadence == "weekly" ==> e == AddDays(7 * duration)
    ensures cadence != "weekly" && cadence != "monthly" ==> e == AddDays(30 * duration)
  {
    if cadence == "monthly" then AddMonths(duration)
    else AddDays(duration * (if cadence == "weekly" then 7 else 30))
  }

  /** A calendar day can be picked when it falls in the start date's month; the year is not compared. */
  predicate IsSelectableDay(day: Date, start: Date) {
    day.month == start.month
  }

  /**
   * Only the month is compared: a day of the start month in any year can be
   * picked, so a twelve-month calendar lets the same month of the next year be
   * picked too, and a day of any other month cannot be picked.
   */
  lemma SelectableInAnyYear(start: Date, year: int, day: int, month: int)
    ensures IsSelectableDay(Date(year, start.month, day), start)
    ensures month != start.month ==> !IsSelectableDay(Date(year, month, day), start)
  {
  }

  /** The duration input: `parseInt(value) || 1`, so an unreadable or zero entry becomes 1. */
  function DurationInput(value: string): (d: int)
    ensures d != 0
    ensures Text.ParseInt(value).NaN? ==> d == 1
    ensures Text.ParseInt(value).Int? && Text.ParseInt(value).n != 0 ==> d == Text.ParseInt(value).n
    ensures Text.ParseInt(value) == Text.Int(0) ==> d == 1
  {
    match Text.ParseInt(value)
    case NaN => 1
    case Int(n) => if n == 0 then 1 else n
  }

  /** A typed positive number is taken as the duration. */
  lemma DurationOfPrintedNumber(n: nat)
    requires n > 0
    ensures DurationInput(Text.DecimalString(n)) == n
  {
    Text.ParseIntRoundTrip(n);
  }

  /** What `handleConfirmPayment` assembles. */
  datatype PaymentData = PaymentData(packageId: int, dates: seq<string>, totalAmount: real, paymentMethod: string)

  class Panel {
    var packages: seq<Package>
    var selectedPackage: Option<Package>
    var paymentStartDate: Date
    var paymentDuration: int
    var selectedDates: seq<string>
    var totalAmount: real

    /** Dates are selected once each, and only on the calendar of a chosen package. */
    ghost predicate Valid()
      reads this
    {
      NoDup(selectedDates) && (selectedDates != [] ==> selectedPackage.Some?)
    }

    /** The total shown is the pro-rata price of the selection whenever a package is chosen. */
    ghost predicate TotalCurrent()
      reads this
    {
      selectedPackage.Some? ==> totalAmount == PanelTotal(selectedPackage.value, |selectedDates|)
    }

    /** The panel as first shown; the current date is a parameter because the model has no clock. */
    constructor (today: Date)
      ensures packages == [] && selectedPackage == None && paymentStartDate == today
      ensures paymentDuration == 1 && selectedDates == [] && totalAmount == 0.0
      ensures Valid() && TotalCurrent()
    {
      packages := [];
      selectedPackage := None;
      paymentStartDate := today;
      paymentDuration := 1;
      selectedDates := [];
      totalAmount := 0.0;
    }

    /** The package list arrives from the server. */
    method SetPackages(fetched: seq<Package>)
      modifies this`packages
      ensures packages == fetched
    {
      packages := fetched;
    }

    /** `calculateTotalAmount`; without a package nothing changes. */
    method CalculateTotalAmount()
      modifies this`totalAmount
      ensures selectedPackage.None? ==> totalAmount == old(totalAmount)
      ensures selectedPackage.Some? ==> totalAmount == PanelTotal(selectedPackage.value, |selectedDates|)
    {
      if selectedPackage.None? {
        return;
      }
      var pkg := selectedPackage.value;
      var dailyRate := DailyRate(pkg.payment_amount as real, pkg.payment_method);
      totalAmount := |selectedDates| as real * dailyRate;
    }

    /**
     * `handlePackageSelect` followed by the effect that re-prices: the
     * selection is emptied, the calendar restarts today with a duration of 1.
     */
    method HandlePackageSelect(pkg: Package, today: Date)
      modifies this`selectedPackage, this`selectedDates, this`paymentStartDate, this`paymentDuration, this`totalAmount
      ensures selectedPackage == Some(pkg) && selectedDates == []
      ensures paymentStartDate == today && paymentDuration == 1 && totalAmount == 0.0
      ensures Valid() && TotalCurrent()
    {
      selectedPackage := Some(pkg);
      selectedDates := [];
      paymentStartDate := today;
      paymentDuration := 1;
      CalculateTotalAmount();
    }

    /** `handleDateSelect` on a calendar day, followed by the re-pricing effect. */
    method HandleDateSelect(date: Date)
      requires Valid() && TotalCurrent() && selectedPackage.Some? && InIsoRange(date)
      modifies this`selectedDates, this`totalAmount
      ensures Valid() && TotalCurrent()
      ensures selectedDates == Toggle(old(selectedDates), IsoDate(date))
      ensures |selectedDates| == if IsoDate(date) in old(selectedDates) then |old(selectedDates)| - 1 else |old(selectedDates)| + 1
    {
      ToggleLength(selectedDates, IsoDate(date));
      selectedDates := Toggle(selectedDates, IsoDate(date));
      CalculateTotalAmount();
    }

    /**
     * A click on a calendar day: the button of a day outside the start date's
     * month is disabled, so only the start month's days reach `handleDateSelect`.
     */
    method ClickDay(date: Date)
      requires Valid() && TotalCurrent() && selectedPackage.Some? && InIsoRange(date)
      modifies this`selectedDates, this`totalAmount
      ensures Valid() && TotalCurrent()
      ensures IsSelectableDay(date, paymentStartDate) ==> selectedDates == Toggle(old(selectedDates), IsoDate(date))
      ensures !IsSelectableDay(date, paymentStartDate) ==> selectedDates == old(selectedDates) && totalAmount == old(totalAmount)
    {
      if IsSelectableDay(date, paymentStartDate) {
        HandleDateSelect(date);
      }
    }

    /** The start-date input. */
    method SetPaymentStartDate(date: Date)
      modifies this`paymentStartDate
      ensures paymentStartDate == date
    {
      paymentStartDate := date;
    }

    /** The duration input. */
    method SetPaymentDuration(value: string)
      modifies this`paymentDuration
      ensures paymentDuration == DurationInput(value) && paymentDuration != 0
    {
      paymentDuration := DurationInput(value);
    }

    /** `handleConfirmPayment`: nothing without a selection, otherwise the payment summary. */
    method HandleConfirmPayment() returns (data: Option<PaymentData>)
      requires Valid() && TotalCurrent()
      ensures selectedDates == [] ==> data == None
      ensures selectedDates != [] ==> data.Some? && selectedPackage.Some?
      ensures selectedDates != [] && selectedPackage.Some? ==>
        data == Some(PaymentData(selectedPackage.value.id, selectedDates,
                                 PanelTotal(selectedPackage.value, |selectedDates|),
                                 selectedPackage.value.payment_method))
    {
      if |selectedDates| == 0 {
        return None;
      }
      var pkg := selectedPackage.value;
      data := Some(PaymentData(pkg.id, selectedDates, totalAmount, pkg.payment_method));
    }

    /** The calendar's reach for the current package and duration; nothing without a package. */
    function CurrentCalendarEnd(): (e: Option<EndOffset>)
      reads this
      ensures e.None? <==> selectedPackage.None?
      ensures e.Some? ==> e.value == CalendarEnd(selectedPackage.value.payment_method, paymentDuration)
    {
      match selectedPackage
      case None => None
      case Some(p) => Some(CalendarEnd(p.payment_method, paymentDuration))
    }
  }
}
