/** Calendar dates as (year, month, day) under the proleptic Gregorian rules JavaScript's Date uses. */
module Dates {
  import Text

  datatype Date = Date(year: int, month: int, day: int)

  predicate IsLeapYear(y: int) {
    y % 4 == 0 && (y % 100 != 0 || y % 400 == 0)
  }

  /** The length of a month; `new Date(y, m, 0).getDate()` for the 1-based month m. */
  function DaysInMonth(y: int, m: int): (n: int)
    requires 1 <= m <= 12
    ensures 28 <= n <= 31
    ensures m == 2 ==> (n == 29 <==> IsLeapYear(y))
  {
    if m == 2 then (if IsLeapYear(y) then 29 else 28)
    else if m == 4 || m == 6 || m == 9 || m == 11 then 30
    else 31
  }

  predicate ValidDate(d: Date) {
    1 <= d.month <= 12 && 1 <= d.day <= DaysInMonth(d.year, d.month)
  }

  /** The year of the month k months after (y, m): `new Date(y, m - 1 + k, 1).getFullYear()`. */
  function ShiftYear(y: int, m: int, k: nat): int
    requires 1 <= m <= 12
  {
    y + (m - 1 + k) / 12
  }

  /** The 1-based month k months after (y, m). */
  function ShiftMonth(y: int, m: int, k: nat): (r: int)
    requires 1 <= m <= 12
    ensures 1 <= r <= 12
  {
    (m - 1 + k) % 12 + 1
  }

  /** One month after December is January of the next year; otherwise the year stays. */
  lemma NextMonthRollsOver(y: int, m: int, k: nat)
    requires 1 <= m <= 12
    ensures ShiftMonth(y, m, k) == 12 ==>
              ShiftYear(y, m, k + 1) == ShiftYear(y, m, k) + 1 && ShiftMonth(y, m, k + 1) == 1
    ensures ShiftMonth(y, m, k) < 12 ==>
              ShiftYear(y, m, k + 1) == ShiftYear(y, m, k) && ShiftMonth(y, m, k + 1) == ShiftMonth(y, m, k) + 1
  {
  }

  /** Dates that `toISOString().split("T")[0]` prints as YYYY-MM-DD. */
  predicate InIsoRange(d: Date) {
    0 <= d.year <= 9999 && 1 <= d.month <= 12 && 1 <= d.day <= 31
  }

  /** Two decimal digits with a leading zero. */
  function Pad2(n: nat): (r: string)
    requires n < 100
    ensures |r| == 2 && Text.AllDigits(r)
  {
    [Text.DigitChar(n / 10), Text.DigitChar(n % 10)]
  }

  /** Four decimal digits with leading zeros. */
  function Pad4(n: nat): (r: string)
    requires n < 10000
    ensures |r| == 4 && Text.AllDigits(r)
  {
    Pad2(n / 100) + Pad2(n % 100)
  }

  /** The calendar's date key, YYYY-MM-DD. */
  function IsoDate(d: Date): (r: string)
    requires InIsoRange(d)
    ensures |r| == 10 && r[4] == '-' && r[7] == '-'
    ensures Text.AllDigits(r[..4]) && Text.AllDigits(r[5..7]) && Text.AllDigits(r[8..])
  {
    var r := Pad4(d.year) + "-" + Pad2(d.month) + "-" + Pad2(d.day);
    assert r[..4] == Pad4(d.year) && r[5..7] == Pad2(d.month) && r[8..] == Pad2(d.day);
    r
  }

  /** Reads a YYYY-MM-DD key back into a date. */
  function ReadIso(s: string): (d: Date)
    requires |s| == 10
    requires Text.AllDigits(s[..4]) && Text.AllDigits(s[5..7]) && Text.AllDigits(s[8..])
    ensures 0 <= d.year < 10000 && 0 <= d.month < 100 && 0 <= d.day < 100
  {
    DecimalValueBound(s[..4]);
    DecimalValueBound(s[5..7]);
    DecimalValueBound(s[8..]);
    Date(Text.DecimalValue(s[..4]), Text.DecimalValue(s[5..7]), Text.DecimalValue(s[8..]))
  }

  lemma Pad2Value(n: nat)
    requires n < 100
    ensures Text.DecimalValue(Pad2(n)) == n
  {
    var r := Pad2(n);
    assert r[..1][..0] == [];
    assert Text.DecimalValue(r[..1]) == n / 10;
  }

  lemma Pad4Value(n: nat)
    requires n < 10000
    ensures Text.DecimalValue(Pad4(n)) == n
  {
    var r := Pad4(n);
    var hi, lo := n / 100, n % 100;
    assert r[..3] == Pad2(hi) + [Text.DigitChar(lo / 10)];
    assert r[..3][..2] == Pad2(hi);
    Pad2Value(hi);
    assert Text.DecimalValue(r[..3]) == 10 * hi + lo / 10;
  }

  /** Reading a printed key gives back the date. */
  lemma IsoRoundTrip(d: Date)
    requires InIsoRange(d)
    ensures ReadIso(IsoDate(d)) == d
  {
    var r := IsoDate(d);
    assert r[..4] == Pad4(d.year) && r[5..7] == Pad2(d.month) && r[8..] == Pad2(d.day);
    Pad4Value(d.year);
    Pad2Value(d.month);
    Pad2Value(d.day);
  }

  /** n digits read as a number below 10^n. */
  lemma {:induction false} DecimalValueBound(s: string)
    requires Text.AllDigits(s)
    ensures Text.DecimalValue(s) < Power10(|s|)
  {
    if s != [] {
      DecimalValueBound(s[..|s| - 1]);
    }
  }

  function Power10(n: nat): (p: nat)
    ensures p >= 1
  {
    if n == 0 then 1 else 10 * Power10(n - 1)
  }

  /** Two digits read as a number print back as the same two digits. */
  lemma Pad2OfValue(t: string)
    requires |t| == 2 && Text.AllDigits(t)
    ensures Text.DecimalValue(t) < 100 && Pad2(Text.DecimalValue(t)) == t
  {
    assert t[..1][..0] == [];
    assert Text.DecimalValue(t[..1]) == Text.DigitValue(t[0]);
    var v := Text.DecimalValue(t);
    assert t[..|t| - 1] == t[..1];
    assert v == 10 * Text.DigitValue(t[0]) + Text.DigitValue(t[1]);
    assert v / 10 == Text.DigitValue(t[0]) && v % 10 == Text.DigitValue(t[1]);
  }

  /** Four digits read as a number print back as the same four digits. */
  lemma Pad4OfValue(t: string)
    requires |t| == 4 && Text.AllDigits(t)
    ensures Text.DecimalValue(t) < 10000 && Pad4(Text.DecimalValue(t)) == t
  {
    var hi, lo := t[..2], t[2..];
    DecimalValueAppend(hi, lo);
    assert t == hi + lo;
    Pad2OfValue(hi);
    Pad2OfValue(lo);
    var v := Text.DecimalValue(t);
    assert v == 100 * Text.DecimalValue(hi) + Text.DecimalValue(lo);
    assert v / 100 == Text.DecimalValue(hi) && v % 100 == Text.DecimalValue(lo);
  }

  /** Reading two digit strings one after the other: the first shifted by two places. */
  lemma DecimalValueAppend(hi: string, lo: string)
    requires Text.AllDigits(hi) && |lo| == 2 && Text.AllDigits(lo)
    ensures Text.AllDigits(hi + lo)
    ensures Text.DecimalValue(hi + lo) == 100 * Text.DecimalValue(hi) + Text.DecimalValue(lo)
  {
    var s := hi + lo;
    var m := hi + lo[..1];
    assert s[..|s| - 1] == m && s[|s| - 1] == lo[1];
    assert m[..|m| - 1] == hi && m[|m| - 1] == lo[0];
    assert lo[..1][..0] == [] && lo[..|lo| - 1] == lo[..1];
    assert Text.DecimalValue(lo[..1]) == Text.DigitValue(lo[0]);
    assert Text.DecimalValue(m) == 10 * Text.DecimalValue(hi) + Text.DigitValue(lo[0]);
    assert Text.DecimalValue(lo) == 10 * Text.DigitValue(lo[0]) + Text.DigitValue(lo[1]);
  }

  /**
   * The other direction of the round trip: a well-formed key whose date is
   * in range prints back as the same key.
   */
  lemma IsoReadThenPrint(s: string)
    requires |s| == 10 && s[4] == '-' && s[7] == '-'
    requires Text.AllDigits(s[..4]) && Text.AllDigits(s[5..7]) && Text.AllDigits(s[8..])
    requires InIsoRange(ReadIso(s))
    ensures IsoDate(ReadIso(s)) == s
  {
    Pad4OfValue(s[..4]);
    Pad2OfValue(s[5..7]);
    Pad2OfValue(s[8..]);
    var r := IsoDate(ReadIso(s));
    assert r == s[..4] + "-" + s[5..7] + "-" + s[8..];
    assert s == s[..4] + [s[4]] + s[5..7] + [s[7]] + s[8..];
  }

  /** Distinct dates get distinct keys, so toggling a key toggles exactly one date. */
  lemma IsoInjective(d: Date, e: Date)
    requires InIsoRange(d) && InIsoRange(e)
    ensures IsoDate(d) == IsoDate(e) <==> d == e
  {
    if IsoDate(d) == IsoDate(e) {
      IsoRoundTrip(d);
      IsoRoundTrip(e);
    }
  }

  lemma ValidDateInIsoRange(d: Date)
    requires ValidDate(d) && 0 <= d.year <= 9999
    ensures InIsoRange(d)
  {
  }
}
