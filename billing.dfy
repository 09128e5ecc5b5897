/**
 * The billing-amount rule shared by the admin payment table and the payment
 * confirmation modal: a package rate is charged once per day, per started
 * week or per started 30-day month of the selected days.
 */
module Billing {

  /** `Math.ceil(n / d)` for a non-negative n: the least q with q * d >= n. */
  function CeilDiv(n: nat, d: nat): (q: nat)
    requires d > 0
    ensures q * d >= n
    ensures q == 0 || (q - 1) * d < n
    decreases n
  {
    if n == 0 then 0
    else if n <= d then 1
    else 1 + CeilDiv(n - d, d)
  }

  /** Days in a billing period: "daily" 1, "weekly" 7, anything else 30. */
  function PeriodDays(cadence: string): (p: nat)
    ensures p > 0
  {
    if cadence == "daily" then 1
    else if cadence == "weekly" then 7
    else 30
  }

  /**
   * The number of billing periods the selected days cover. The comparison is
   * with the exact lower-case strings, so the upper-case "DAILY" and
   * "WEEKLY" that the admin package form sends, and the backend stores as
   * sent, fall into the 30-day branch.
   */
  function Periods(cadence: string, count: nat): (u: nat)
    ensures u * PeriodDays(cadence) >= count
    ensures u * PeriodDays(cadence) < count + PeriodDays(cadence) || count == 0
    ensures count == 0 ==> u == 0
  {
    CeilDiv(count, PeriodDays(cadence))
  }

  /**
   * The amount owed for `count` selected days of a package with rate `rate`
   * per period: nothing for no days, and at least one period's rate for any
   * day when the rate is not negative.
   */
  function Amount(cadence: string, rate: int, count: nat): (a: int)
    ensures count == 0 ==> a == 0
    ensures rate >= 0 && count > 0 ==> a >= rate
  {
    var u := Periods(cadence, count);
    if rate >= 0 && count > 0 then
      assert u >= 1;
      MulMono(1, u, rate);
      rate * u
    else
      rate * u
  }

  /** "daily" charges the rate once per selected day. */
  lemma {:induction false} DailyChargesPerDay(rate: int, count: nat)
    ensures Amount("daily", rate, count) == rate * count
  {
    CeilDivByOne(count);
  }

  lemma {:induction false} CeilDivByOne(n: nat)
    ensures CeilDiv(n, 1) == n
    decreases n
  {
    if n > 1 { CeilDivByOne(n - 1); }
  }

  /** Any 1 to d days cost one period. */
  lemma CeilDivOnePeriod(n: nat, d: nat)
    requires d > 0 && 1 <= n <= d
    ensures CeilDiv(n, d) == 1
  {
  }

  /** One to seven selected days under "weekly" cost the same as seven. */
  lemma WeeklyPartialWeekIsFullWeek(rate: int, count: nat)
    requires 1 <= count <= 7
    ensures Amount("weekly", rate, count) == Amount("weekly", rate, 7) == rate
  {
    CeilDivOnePeriod(count, 7);
    CeilDivOnePeriod(7, 7);
  }

  /** Counts inside the same started period cost the same, for every method. */
  lemma {:induction false} SamePeriodSameAmount(cadence: string, rate: int, n: nat, m: nat)
    requires n >= 1 && m >= 1
    requires (n - 1) / PeriodDays(cadence) == (m - 1) / PeriodDays(cadence)
    ensures Amount(cadence, rate, n) == Amount(cadence, rate, m)
  {
    var d := PeriodDays(cadence);
    CeilDivFormula(n, d);
    CeilDivFormula(m, d);
  }

  /** For a positive count, ceil(n / d) is (n - 1) / d + 1. */
  lemma CeilDivFormula(n: nat, d: nat)
    requires d > 0 && n >= 1
    ensures CeilDiv(n, d) == (n - 1) / d + 1
  {
    var q := CeilDiv(n, d);
    var k := (n - 1) / d;
    DivBounds(n - 1, d);
    if q <= k {
      MulMono(q, k, d);
    } else if q >= k + 2 {
      MulMono(k + 1, q - 1, d);
    }
  }

  /** The quotient's multiple lies within one divisor below the dividend. */
  lemma DivBounds(x: nat, d: nat)
    requires d > 0
    ensures (x / d) * d <= x < (x / d + 1) * d
  {
    var k, r := x / d, x % d;
    assert x == k * d + r && 0 <= r < d;
    assert (k + 1) * d == k * d + d;
  }

  lemma MulMono(a: nat, b: nat, d: nat)
    requires a <= b
    ensures a * d <= b * d
  {
  }

  /** More selected days never cost less when the rate is not negative. */
  lemma {:induction false} AmountMonotone(cadence: string, rate: int, n: nat, m: nat)
    requires rate >= 0 && n <= m
    ensures Amount(cadence, rate, n) <= Amount(cadence, rate, m)
  {
    var d := PeriodDays(cadence);
    if n >= 1 {
      CeilDivFormula(n, d);
      CeilDivFormula(m, d);
      assert (n - 1) / d <= (m - 1) / d;
    }
    assert Periods(cadence, n) <= Periods(cadence, m);
    MulMono(Periods(cadence, n), Periods(cadence, m), rate);
  }

  /** Under "daily" each extra day costs more when the rate is positive. */
  lemma DailyStrictlyIncreasing(rate: int, n: nat, m: nat)
    requires rate > 0 && n < m
    ensures Amount("daily", rate, n) < Amount("daily", rate, m)
  {
    DailyChargesPerDay(rate, n);
    DailyChargesPerDay(rate, m);
  }

  /** The upper-case cadences the admin package form sends are billed per 30 days. */
  lemma UpperCaseCadenceBilledMonthly(rate: int, count: nat)
    ensures Amount("DAILY", rate, count) == Amount("monthly", rate, count)
    ensures Amount("WEEKLY", rate, count) == Amount("monthly", rate, count)
  {
  }
}
