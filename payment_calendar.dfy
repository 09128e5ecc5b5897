/**
 * The customer's payment calendar: one block per month starting with the
 * package's start month, listing the week starts of a weekly package or the
 * days of a daily one, and a selection of dates to confirm.
 */
module PaymentCalendar {
  import opened Wrappers
  import opened Lists
  import opened Dates

  /** One month of the calendar: which month, its week starts and its days. */
  datatype MonthData = MonthData(year: int, month: int, weeks: seq<Date>, days: seq<Date>)

  /** The week starts of a month: the 1st, the 8th, ... while still inside the month. */
  function WeekStarts(y: int, m: int): (r: seq<Date>)
    requires 1 <= m <= 12
    ensures forall d :: d in r <==> d.year == y && d.month == m && ValidDate(d) && (d.day - 1) % 7 == 0
  {
    var n := DaysInMonth(y, m);
    var r := seq((n - 1) / 7 + 1, k requires 0 <= k => Date(y, m, 1 + 7 * k));
    forall k | 0 <= k < |r| ensures ValidDate(r[k]) {
      assert 7 * k <= 7 * ((n - 1) / 7) <= n - 1;
    }
    forall d: Date | d.year == y && d.month == m && ValidDate(d) && (d.day - 1) % 7 == 0 ensures d in r {
      var k := (d.day - 1) / 7;
      assert k <= (n - 1) / 7;
      assert r[k] == d;
    }
    r
  }

  /** Every day of a month, in order. */
  function DaysOf(y: int, m: int): (r: seq<Date>)
    requires 1 <= m <= 12
    ensures forall d :: d in r <==> d.year == y && d.month == m && ValidDate(d)
    ensures forall i, j :: 0 <= i < j < |r| ==> r[i].day < r[j].day
  {
    var r := seq(DaysInMonth(y, m), i requires 0 <= i => Date(y, m, i + 1));
    forall d: Date | d.year == y && d.month == m && ValidDate(d) ensures d in r {
      assert r[d.day - 1] == d;
    }
    r
  }

  /** The k-th month block for a package starting in (y, m). */
  function MonthBlock(y: int, m: int, k: nat, cadence: string): (r: MonthData)
    requires 1 <= m <= 12
    ensures r.year == ShiftYear(y, m, k) && r.month == ShiftMonth(y, m, k)
    ensures r.weeks != [] <==> cadence == "weekly"
    ensures r.days != [] <==> cadence == "daily"
  {
    var year, month := ShiftYear(y, m, k), ShiftMonth(y, m, k);
    MonthData(year, month,
              if cadence == "weekly" then WeekStarts(year, month) else [],
              if cadence == "daily" then DaysOf(year, month) else [])
  }

  /** `generateCalendar`: `months` blocks, month after month. */
  method GenerateCalendar(startYear: int, startMonth: int, months: int, cadence: string)
      returns (calendar: seq<MonthData>)
    requires 1 <= startMonth <= 12
    ensures |calendar| == if months < 0 then 0 else months
    ensures forall k :: 0 <= k < |calendar| ==> calendar[k] == MonthBlock(startYear, startMonth, k, cadence)
  {
    calendar := [];
    var m := 0;
    while m < months
      invariant 0 <= m && |calendar| == m
      invariant months >= 0 ==> m <= months
      invariant months < 0 ==> m == 0
      invariant forall k :: 0 <= k < m ==> calendar[k] == MonthBlock(startYear, startMonth, k, cadence)
    {
      var year, month := ShiftYear(startYear, startMonth, m), ShiftMonth(startYear, startMonth, m);
      var weeks: seq<Date> := [];
      var days: seq<Date> := [];
      if cadence == "weekly" {
        var day := 1;
        while day <= DaysInMonth(year, month)
          invariant 1 <= day <= DaysInMonth(year, month) + 7 && (day - 1) % 7 == 0
          invariant |weeks| == (day - 1) / 7
          invariant forall k :: 0 <= k < |weeks| ==> weeks[k] == Date(year, month, 1 + 7 * k)
          decreases DaysInMonth(year, month) - day
        {
          weeks := weeks + [Date(year, month, day)];
          day := day + 7;
        }
        assert |weeks| == (DaysInMonth(year, month) - 1) / 7 + 1;
        assert weeks == WeekStarts(year, month);
      } else if cadence == "daily" {
        var d := 1;
        while d <= DaysInMonth(year, month)
          invariant 1 <= d <= DaysInMonth(year, month) + 1 && |days| == d - 1
          invariant forall i :: 0 <= i < |days| ==> days[i] == Date(year, month, i + 1)
        {
          days := days + [Date(year, month, d)];
          d := d + 1;
        }
        assert days == DaysOf(year, month);
      }
      calendar := calendar + [MonthData(year, month, weeks, days)];
      m := m + 1;
    }
  }

  /** A weekly month shows four week starts, or five when the month has a 29th day. */
  lemma WeekCount(y: int, m: int)
    requires 1 <= m <= 12
    ensures |WeekStarts(y, m)| == if DaysInMonth(y, m) >= 29 then 5 else 4
  {
  }

  /** Every week start and every day shown is a real date of that month. */
  lemma {:induction false} BlockDatesValid(y: int, m: int, k: nat, cadence: string)
    requires 1 <= m <= 12
    ensures var b := MonthBlock(y, m, k, cadence);
      (forall i :: 0 <= i < |b.weeks| ==> ValidDate(b.weeks[i]) && b.weeks[i].month == b.month && b.weeks[i].year == b.year) &&
      (forall i :: 0 <= i < |b.days| ==> ValidDate(b.days[i]) && b.days[i].month == b.month && b.days[i].year == b.year)
  {
    var b := MonthBlock(y, m, k, cadence);
    forall i | 0 <= i < |b.weeks|
      ensures ValidDate(b.weeks[i])
    {
      assert 7 * i <= DaysInMonth(b.year, b.month) - 1;
    }
  }

  /** Weeks cover the month: the last week start is within seven days of the month's end. */
  lemma WeeksCoverMonth(y: int, m: int)
    requires 1 <= m <= 12
    ensures var w := WeekStarts(y, m);
      |w| > 0 && w[0].day == 1 && w[|w| - 1].day + 7 > DaysInMonth(y, m)
  {
  }

  /** Consecutive blocks are consecutive months; December is followed by January of the next year. */
  lemma {:induction false} BlocksAreConsecutive(y: int, m: int, k: nat, cadence: string)
    requires 1 <= m <= 12
    ensures var a, b := MonthBlock(y, m, k, cadence), MonthBlock(y, m, k + 1, cadence);
      if a.month == 12 then b.year == a.year + 1 && b.month == 1
      else b.year == a.year && b.month == a.month + 1
  {
    NextMonthRollsOver(y, m, k);
  }

  /** The calendar's selection, kept as YYYY-MM-DD keys. */
  class Calendar {
    var selectedDates: seq<string>

    ghost predicate Valid()
      reads this
    {
      NoDup(selectedDates)
    }

    constructor ()
      ensures selectedDates == [] && Valid()
    {
      selectedDates := [];
    }

    /** `toggleDate`: selects the date's key, or deselects it when already selected. */
    method ToggleDate(date: Date)
      requires Valid() && InIsoRange(date)
      modifies this
      ensures Valid()
      ensures selectedDates == Toggle(old(selectedDates), IsoDate(date))
    {
      selectedDates := Toggle(selectedDates, IsoDate(date));
    }

    /**
     * `handleConfirm`: with nothing selected the user is alerted and nothing is
     * sent; otherwise the selection goes to `onConfirm` and is cleared.
     */
    method HandleConfirm() returns (sent: Option<seq<string>>)
      requires Valid()
      modifies this
      ensures Valid()
      ensures old(selectedDates) == [] ==> sent == None && selectedDates == []
      ensures old(selectedDates) != [] ==> sent == Some(old(selectedDates)) && selectedDates == []
      ensures sent == None <==> old(ConfirmDisabled())
    {
      if |selectedDates| == 0 {
        return None;
      }
      sent := Some(selectedDates);
      selectedDates := [];
    }

    /** The Confirm button is disabled while nothing is selected. */
    predicate ConfirmDisabled(): (b: bool)
      reads this
      ensures b <==> selectedDates == []
    {
      |selectedDates| == 0
    }
  }

  /** Toggling one date never touches the key of another. */
  lemma ToggleKeepsOtherDates(s: seq<string>, d: Date, e: Date)
    requires InIsoRange(d) && InIsoRange(e) && d != e
    ensures IsoDate(e) in Toggle(s, IsoDate(d)) <==> IsoDate(e) in s
  {
    IsoInjective(d, e);
    var t := Toggle(s, IsoDate(d));
    if IsoDate(e) in s {
      var i :| 0 <= i < |s| && s[i] == IsoDate(e);
    }
    if IsoDate(e) in t {
      var i :| 0 <= i < |t| && t[i] == IsoDate(e);
    }
  }
}
