/**
 * The product form's price field: typed text is reduced to its digits and
 * read as a number, and the number is shown with "." between groups of
 * three digits.
 */
module ProductForm {
  import opened Lists
  import opened Text

  /** `value.replace(/[^\d]/g, "")`: the digits of the input, in order. */
  function KeepDigits(s: string): (r: string)
    ensures AllDigits(r) && |r| <= |s|
    ensures forall c :: c in r <==> c in s && IsDigit(c)
  {
    if s == [] then []
    else if IsDigit(s[0]) then [s[0]] + KeepDigits(s[1..])
    else KeepDigits(s[1..])
  }

  /** Text that is all digits is kept as it is. */
  lemma {:induction false} KeepDigitsOfDigits(s: string)
    requires AllDigits(s)
    ensures KeepDigits(s) == s
  {
    if s != [] { KeepDigitsOfDigits(s[1..]); }
  }

  /** Stripping twice is stripping once. */
  lemma KeepDigitsIdempotent(s: string)
    ensures KeepDigits(KeepDigits(s)) == KeepDigits(s)
  {
    KeepDigitsOfDigits(KeepDigits(s));
  }

  /** The digits of a concatenation are the digits of each part, in order. */
  lemma {:induction false} KeepDigitsAppend(a: string, b: string)
    ensures KeepDigits(a + b) == KeepDigits(a) + KeepDigits(b)
  {
    if a == [] {
      assert a + b == b;
    } else {
      assert (a + b)[0] == a[0] && (a + b)[1..] == a[1..] + b;
      KeepDigitsAppend(a[1..], b);
    }
  }

  /**
   * `handlePriceChange` followed by the panel's `parseFloat(value) || 0`:
   * the number the digits spell, 0 when there are none.
   */
  function PriceFromInput(s: string): (price: nat)
    ensures (forall i :: 0 <= i < |s| ==> !IsDigit(s[i])) ==> price == 0
    ensures AllDigits(s) ==> price == DecimalValue(s)
    ensures price == 0 <==> forall c :: c in s && IsDigit(c) ==> c == '0'
  {
    DigitsKept(s);
    ZeroValueOfZeros(KeepDigits(s));
    DecimalValue(KeepDigits(s))
  }

  /** KeepDigitsOfDigits as an implication, for use inside an expression. */
  lemma DigitsKept(s: string)
    ensures AllDigits(s) ==> KeepDigits(s) == s
  {
    if AllDigits(s) { KeepDigitsOfDigits(s); }
  }

  /** A string of digits has the value 0 exactly when every digit is "0". */
  lemma {:induction false} ZeroValueOfZeros(d: string)
    requires AllDigits(d)
    ensures DecimalValue(d) == 0 <==> forall c :: c in d ==> c == '0'
  {
    if d != [] {
      var init, last := d[..|d| - 1], d[|d| - 1];
      assert d == init + [last];
      assert forall c :: c in d <==> c in init || c == last;
      assert AllDigits(init) by { assert forall i :: 0 <= i < |init| ==> init[i] == d[i]; }
      assert DecimalValue(d) == 10 * DecimalValue(init) + DigitValue(last);
      assert DigitValue(last) == 0 <==> last == '0';
      ZeroValueOfZeros(init);
      assert last in d;
    }
  }

  /**
   * `.replace(/\B(?=(\d{3})+(?!\d))/g, ".")` on a string of digits: a "." goes
   * before every position inside the string that has a whole number of
   * three-digit groups after it.
   */
  function InsertDots(s: string): (r: string)
    ensures |s| <= 3 ==> r == s
    ensures |r| >= |s|
    decreases |s|
  {
    if |s| <= 3 then s else InsertDots(s[..|s| - 3]) + "." + s[|s| - 3..]
  }

  /** The shape of a grouped number: a "." exactly at the inner positions that leave a multiple of four characters after them. */
  predicate Grouped(r: string) {
    forall i :: 0 <= i < |r| ==> (r[i] == '.' <==> i > 0 && (|r| - i) % 4 == 0)
  }

  /** Grouping puts (n - 1) / 3 dots into n digits and adds nothing but dots. */
  lemma {:induction false} InsertDotsLength(s: string)
    requires AllDigits(s) && |s| > 0
    ensures |InsertDots(s)| == |s| + (|s| - 1) / 3
    ensures forall i :: 0 <= i < |InsertDots(s)| ==> IsDigit(InsertDots(s)[i]) || InsertDots(s)[i] == '.'
  {
    if |s| > 3 {
      var p, t := s[..|s| - 3], s[|s| - 3..];
      InsertDotsLength(p);
      var q := InsertDots(p);
      var r := InsertDots(s);
      assert r == q + "." + t;
      forall i | 0 <= i < |r| ensures IsDigit(r[i]) || r[i] == '.' {
        if i < |q| {
          assert r[i] == q[i];
        } else if i > |q| {
          assert r[i] == t[i - |q| - 1];
        }
      }
    }
  }

  /** The grouped output has the grouped shape. */
  lemma {:induction false} InsertDotsGrouped(s: string)
    requires AllDigits(s) && |s| > 0
    ensures Grouped(InsertDots(s))
  {
    if |s| > 3 {
      var p, t := s[..|s| - 3], s[|s| - 3..];
      InsertDotsGrouped(p);
      InsertDotsLength(p);
      var q := InsertDots(p);
      var r := InsertDots(s);
      assert r == q + "." + t;
      assert |r| == |q| + 4;
      forall i | 0 <= i < |r| ensures r[i] == '.' <==> i > 0 && (|r| - i) % 4 == 0 {
        if i < |q| {
          assert r[i] == q[i];
          ModShift(|q| - i);
        } else if i > |q| {
          assert r[i] == t[i - |q| - 1];
          assert IsDigit(t[i - |q| - 1]);
        }
      }
    }
  }

  lemma ModShift(n: nat)
    ensures (n + 4) % 4 == n % 4
  {
  }

  /** Keeping only the digits of the grouped form gives back the digits. */
  lemma {:induction false} InsertDotsStrip(s: string)
    requires AllDigits(s)
    ensures KeepDigits(InsertDots(s)) == s
  {
    if |s| <= 3 {
      KeepDigitsOfDigits(s);
    } else {
      var p, t := s[..|s| - 3], s[|s| - 3..];
      assert s == p + t;
      InsertDotsStrip(p);
      KeepDigitsJoin(InsertDots(p), t);
    }
  }

  /** A dot and a run of digits appended to a text add just those digits. */
  lemma KeepDigitsJoin(q: string, t: string)
    requires AllDigits(t)
    ensures KeepDigits(q + "." + t) == KeepDigits(q) + t
  {
    var dot := ".";
    assert KeepDigits(dot) == [];
    KeepDigitsAppend(q, dot);
    KeepDigitsAppend(q + dot, t);
    KeepDigitsOfDigits(t);
  }

  /** Up to three digits need no separator. */
  lemma ShortPriceUnchanged(s: string)
    requires |s| <= 3
    ensures InsertDots(s) == s
  {
  }

  /** Every group after the first has exactly three digits, and the first has one to three. */
  lemma GroupLengths(s: string, i: nat)
    requires AllDigits(s) && |s| > 0 && i < |InsertDots(s)| && InsertDots(s)[i] == '.'
    ensures i >= 1 && (i > 3 ==> InsertDots(s)[i - 4] == '.')
    ensures i + 4 <= |InsertDots(s)| && (i + 4 == |InsertDots(s)| || InsertDots(s)[i + 4] == '.')
    ensures forall k :: i < k < i + 4 ==> InsertDots(s)[k] != '.'
  {
    InsertDotsGrouped(s);
    var r := InsertDots(s);
    assert i > 0 && (|r| - i) % 4 == 0;
    if i > 3 {
      assert (|r| - (i - 4)) % 4 == 0;
    }
    if i + 4 < |r| {
      assert (|r| - (i + 4)) % 4 == 0;
    }
    forall k | i < k < i + 4 ensures r[k] != '.' {
      assert (|r| - k) % 4 != 0;
    }
  }

  /** `formatPrice`: the price printed in decimal, grouped by thousands. */
  function FormatPrice(price: nat): (r: string)
    ensures Grouped(r)
    ensures forall i :: 0 <= i < |r| ==> IsDigit(r[i]) || r[i] == '.'
    ensures Remove(r, '.') == DecimalString(price)
  {
    var d := DecimalString(price);
    InsertDotsGrouped(d);
    InsertDotsLength(d);
    InsertDotsStrip(d);
    KeepDigitsIsRemoveDots(InsertDots(d));
    InsertDots(d)
  }

  /** The price input's value: empty while the price is 0. */
  function PriceInputValue(price: nat): (v: string)
    ensures price == 0 <==> v == ""
  {
    if price == 0 then "" else DecimalString(price)
  }

  /** The formatted hint is shown only for a positive price. */
  predicate ShowsHint(price: nat): (b: bool)
    ensures b <==> PriceInputValue(price) != ""
  {
    price > 0
  }

  /** What the input shows reads back as the same price. */
  lemma InputRoundTrip(price: nat)
    ensures PriceFromInput(PriceInputValue(price)) == price
  {
    if price > 0 {
      KeepDigitsOfDigits(DecimalString(price));
      DecimalRoundTrip(price);
    }
  }

  /** The grouped form, typed back into the field, gives the same price. */
  lemma {:induction false} FormattedRoundTrip(price: nat)
    ensures PriceFromInput(FormatPrice(price)) == price
  {
    var d := DecimalString(price);
    var r := FormatPrice(price);
    KeepDigitsIsRemoveDots(r);
    KeepDigitsOfDigits(d);
    DecimalRoundTrip(price);
  }

  /** On digits and dots, keeping the digits is removing the dots. */
  lemma {:induction false} KeepDigitsIsRemoveDots(r: string)
    requires forall i :: 0 <= i < |r| ==> IsDigit(r[i]) || r[i] == '.'
    ensures KeepDigits(r) == Remove(r, '.')
  {
    if r != [] {
      KeepDigitsIsRemoveDots(r[1..]);
    }
  }
}
