/**
 * String helpers used by the screens and controllers: ASCII case mapping,
 * substring search, JavaScript's `trim`, lexicographic order (the order SQL
 * uses on text columns), decimal printing and `parseInt`.
 */
module Text {

  predicate IsDigit(c: char) {
    '0' <= c <= '9'
  }

  predicate AllDigits(s: string) {
    forall i :: 0 <= i < |s| ==> IsDigit(s[i])
  }

  function LowerChar(c: char): char {
    if 'A' <= c <= 'Z' then (c as int + 32) as char else c
  }

  function UpperChar(c: char): char {
    if 'a' <= c <= 'z' then (c as int - 32) as char else c
  }

  /** `toLowerCase`, on the ASCII letters. */
  function Lower(s: string): (r: string)
    ensures |r| == |s|
    ensures forall i :: 0 <= i < |s| ==> r[i] == LowerChar(s[i])
  {
    seq(|s|, i requires 0 <= i < |s| => LowerChar(s[i]))
  }

  /** `toUpperCase`, on the ASCII letters. */
  function Upper(s: string): (r: string)
    ensures |r| == |s|
    ensures forall i :: 0 <= i < |s| ==> r[i] == UpperChar(s[i])
  {
    seq(|s|, i requires 0 <= i < |s| => UpperChar(s[i]))
  }

  /** An upper-cased string has no lower-case ASCII letter left. */
  lemma UpperHasNoLowerCase(s: string)
    ensures forall i :: 0 <= i < |Upper(s)| ==> !('a' <= Upper(s)[i] <= 'z')
  {
  }

  /** `haystack.includes(needle)`. */
  predicate Contains(haystack: string, needle: string)
    decreases |haystack|
  {
    needle <= haystack || (|haystack| > 0 && Contains(haystack[1..], needle))
  }

  /** The needle occurs in the haystack starting at offset k. */
  predicate OccursAt(haystack: string, needle: string, k: int) {
    0 <= k <= |haystack| - |needle| && haystack[k..k + |needle|] == needle
  }

  /** `includes` is true exactly when the needle occurs at some offset. */
  lemma {:induction false} ContainsAt(haystack: string, needle: string)
    ensures Contains(haystack, needle) <==> exists k :: OccursAt(haystack, needle, k)
    decreases |haystack|
  {
    if needle <= haystack {
      assert OccursAt(haystack, needle, 0);
    } else if |haystack| > 0 {
      ContainsAt(haystack[1..], needle);
      if Contains(haystack, needle) {
        var k :| OccursAt(haystack[1..], needle, k);
        OccursShift(haystack, needle, k + 1);
      }
      if exists k :: OccursAt(haystack, needle, k) {
        var k :| OccursAt(haystack, needle, k);
        assert k != 0;
        OccursShift(haystack, needle, k);
      }
    } else {
      assert forall k :: !OccursAt(haystack, needle, k);
    }
  }

  /** An occurrence at k is an occurrence at k - 1 in the tail. */
  lemma OccursShift(haystack: string, needle: string, k: int)
    requires |haystack| > 0 && k >= 1
    ensures OccursAt(haystack, needle, k) <==> OccursAt(haystack[1..], needle, k - 1)
  {
    if 0 <= k - 1 <= |haystack| - 1 - |needle| {
      assert haystack[1..][k - 1..k - 1 + |needle|] == haystack[k..k + |needle|];
    }
  }

  /** Every string contains the empty string (so an empty search term keeps everything). */
  lemma ContainsEmpty(s: string)
    ensures Contains(s, "")
  {
  }

  /** The characters JavaScript's `trim` removes: its white space (including every space separator) and its line terminators. */
  const SPACES: set<char> := {
    ' ', '\t', '\n', '\r', '\U{B}', '\U{C}', '\U{A0}', '\U{1680}',
    '\U{2000}', '\U{2001}', '\U{2002}', '\U{2003}', '\U{2004}', '\U{2005}',
    '\U{2006}', '\U{2007}', '\U{2008}', '\U{2009}', '\U{200A}',
    '\U{2028}', '\U{2029}', '\U{202F}', '\U{205F}', '\U{3000}', '\U{FEFF}'}

  predicate IsSpace(c: char) {
    c in SPACES
  }

  function TrimStart(s: string): (r: string)
    ensures |r| <= |s| && r == s[|s| - |r|..]
    ensures r == [] || !IsSpace(r[0])
    ensures forall i :: 0 <= i < |s| - |r| ==> IsSpace(s[i])
  {
    if |s| > 0 && IsSpace(s[0]) then
      var r := TrimStart(s[1..]);
      assert forall i :: 1 <= i < |s| ==> s[i] == s[1..][i - 1];
      r
    else s
  }

  function TrimEnd(s: string): (r: string)
    ensures |r| <= |s| && r == s[..|r|]
    ensures r == [] || !IsSpace(r[|r| - 1])
    ensures forall i :: |r| <= i < |s| ==> IsSpace(s[i])
  {
    if |s| > 0 && IsSpace(s[|s| - 1]) then
      var r := TrimEnd(s[..|s| - 1]);
      assert forall i :: 0 <= i < |s| - 1 ==> s[i] == s[..|s| - 1][i];
      r
    else s
  }

  /** `r` is the slice of `s` at `k`, and everything of `s` before and after it is white space. */
  predicate TrimmedAt(s: string, r: string, k: int) {
    OccursAt(s, r, k) &&
    (forall i :: 0 <= i < k ==> IsSpace(s[i])) &&
    (forall i :: k + |r| <= i < |s| ==> IsSpace(s[i]))
  }

  /**
   * `s.trim()`: a slice of `s` with no white space at either end, cut out of
   * white space on both sides.
   */
  function Trim(s: string): (r: string)
    ensures r == [] || (!IsSpace(r[0]) && !IsSpace(r[|r| - 1]))
    ensures exists k :: TrimmedAt(s, r, k)
  {
    TrimBothEnds(s);
    TrimEnd(TrimStart(s))
  }

  /** Trimming the start and then the end cuts out a slice between two runs of white space. */
  lemma TrimBothEnds(s: string)
    ensures TrimmedAt(s, TrimEnd(TrimStart(s)), |s| - |TrimStart(s)|)
  {
    var t := TrimStart(s);
    SliceAfterStart(s, t, TrimEnd(t), |s| - |t|);
  }

  /** A prefix `r` of the suffix `s[k..]`, followed there by white space only, is such a slice of `s`. */
  lemma SliceAfterStart(s: string, t: string, r: string, k: int)
    requires 0 <= k <= |s| && t == s[k..] && r <= t
    requires forall i :: 0 <= i < k ==> IsSpace(s[i])
    requires forall i :: |r| <= i < |t| ==> IsSpace(t[i])
    ensures TrimmedAt(s, r, k)
  {
    assert s[k..k + |r|] == r;
    forall i | k + |r| <= i < |s|
      ensures IsSpace(s[i])
    {
      assert s[i] == t[i - k];
    }
  }

  /** Every character is white space. */
  predicate IsBlank(s: string) {
    forall i :: 0 <= i < |s| ==> IsSpace(s[i])
  }

  /** `!s.trim()`: a string trims to nothing exactly when it is blank. */
  lemma {:induction false} BlankIffTrimmedEmpty(s: string)
    ensures IsBlank(s) <==> Trim(s) == []
  {
    TrimStartAllSpace(s);
    var t := TrimStart(s);
    if t != [] {
      TrimEndKeepsNonSpace(t);
      assert !IsSpace(s[|s| - |t|]);
    }
  }

  lemma {:induction false} TrimStartAllSpace(s: string)
    ensures TrimStart(s) == [] <==> forall i :: 0 <= i < |s| ==> IsSpace(s[i])
  {
    if |s| > 0 && IsSpace(s[0]) {
      TrimStartAllSpace(s[1..]);
      assert forall i :: 1 <= i < |s| ==> s[i] == s[1..][i - 1];
    }
  }

  lemma TrimEndKeepsNonSpace(t: string)
    requires t != [] && !IsSpace(t[0])
    ensures TrimEnd(t) != []
  {
  }

  /** Lexicographic order on character codes: what `ORDER BY` and `>` do on ISO date strings. */
  predicate LexLess(a: string, b: string)
    decreases |a|
  {
    if |a| == 0 then |b| > 0
    else if |b| == 0 then false
    else if a[0] < b[0] then true
    else if a[0] == b[0] then LexLess(a[1..], b[1..])
    else false
  }

  predicate LexLessEq(a: string, b: string) {
    a == b || LexLess(a, b)
  }

  lemma {:induction false} LexLessIrreflexive(a: string)
    ensures !LexLess(a, a)
    decreases |a|
  {
    if |a| > 0 { LexLessIrreflexive(a[1..]); }
  }

  lemma {:induction false} LexLessTransitive(a: string, b: string, c: string)
    requires LexLess(a, b) && LexLess(b, c)
    ensures LexLess(a, c)
    decreases |a|
  {
    if |a| > 0 && a[0] == b[0] && b[0] == c[0] {
      LexLessTransitive(a[1..], b[1..], c[1..]);
    }
  }

  lemma {:induction false} LexLessTotal(a: string, b: string)
    ensures a == b || LexLess(a, b) || LexLess(b, a)
    decreases |a|
  {
    if |a| > 0 && |b| > 0 && a[0] == b[0] {
      LexLessTotal(a[1..], b[1..]);
      if a[1..] == b[1..] {
        assert a == [a[0]] + a[1..] && b == [b[0]] + b[1..];
      }
    }
  }

  lemma LexLessEqTotal(a: string, b: string)
    ensures LexLessEq(a, b) || LexLessEq(b, a)
  {
    LexLessTotal(a, b);
  }

  lemma LexLessEqTransitive(a: string, b: string, c: string)
    requires LexLessEq(a, b) && LexLessEq(b, c)
    ensures LexLessEq(a, c)
  {
    if a != b && b != c { LexLessTransitive(a, b, c); }
  }

  function DigitChar(d: nat): char
    requires d < 10
  {
    ('0' as int + d) as char
  }

  function DigitValue(c: char): nat
    requires IsDigit(c)
  {
    c as int - '0' as int
  }

  /** `n.toString()` for a non-negative integer: decimal digits, no leading zero. */
  function DecimalString(n: nat): (r: string)
    ensures |r| > 0 && AllDigits(r)
    ensures r[0] == '0' ==> n == 0 && r == "0"
  {
    if n < 10 then [DigitChar(n)] else DecimalString(n / 10) + [DigitChar(n % 10)]
  }

  /** The value of a string of decimal digits (the empty string reads as 0). */
  function DecimalValue(s: string): nat
    requires AllDigits(s)
  {
    if s == [] then 0 else 10 * DecimalValue(s[..|s| - 1]) + DigitValue(s[|s| - 1])
  }

  /** Printing a number and reading it back gives the number. */
  lemma {:induction false} DecimalRoundTrip(n: nat)
    ensures DecimalValue(DecimalString(n)) == n
  {
    if n >= 10 {
      DecimalRoundTrip(n / 10);
      var s := DecimalString(n);
      assert s[..|s| - 1] == DecimalString(n / 10);
    }
  }

  /** The result of JavaScript's `parseInt`: an integer, or NaN when no digit leads. */
  datatype ParsedInt = Int(n: int) | NaN

  /** The longest prefix of decimal digits. */
  function LeadingDigits(s: string): (r: string)
    ensures r <= s && AllDigits(r)
    ensures |r| < |s| ==> !IsDigit(s[|r|])
  {
    if |s| > 0 && IsDigit(s[0]) then [s[0]] + LeadingDigits(s[1..]) else []
  }

  /** A hexadecimal digit, in either case. */
  predicate IsHexDigit(c: char) {
    IsDigit(c) || 'a' <= c <= 'f' || 'A' <= c <= 'F'
  }

  predicate AllHexDigits(s: string) {
    forall i :: 0 <= i < |s| ==> IsHexDigit(s[i])
  }

  function HexDigitValue(c: char): (v: nat)
    requires IsHexDigit(c)
    ensures v < 16
  {
    if IsDigit(c) then c as int - '0' as int
    else if 'a' <= c <= 'f' then c as int - 'a' as int + 10
    else c as int - 'A' as int + 10
  }

  /** The value of a string of hexadecimal digits. */
  function HexValue(s: string): nat
    requires AllHexDigits(s)
  {
    if s == [] then 0 else 16 * HexValue(s[..|s| - 1]) + HexDigitValue(s[|s| - 1])
  }

  /** The longest prefix of hexadecimal digits. */
  function LeadingHexDigits(s: string): (r: string)
    ensures r <= s && AllHexDigits(r)
    ensures |r| < |s| ==> !IsHexDigit(s[|r|])
  {
    if |s| > 0 && IsHexDigit(s[0]) then [s[0]] + LeadingHexDigits(s[1..]) else []
  }

  /** The "0x" or "0X" that makes `parseInt` without a radix read base 16. */
  predicate HexPrefixed(s: string) {
    |s| >= 2 && s[0] == '0' && (s[1] == 'x' || s[1] == 'X')
  }

  /**
   * The digits after the sign: hexadecimal after a "0x" or "0X" prefix,
   * decimal otherwise; NaN when no digit follows.
   */
  function ReadDigits(body: string): (r: ParsedInt)
    ensures r.Int? ==> r.n >= 0 && body != []
    ensures body != [] && AllDigits(body) ==> r == Int(DecimalValue(body))
    ensures HexPrefixed(body) && AllHexDigits(body[2..]) ==> r == if |body| == 2 then NaN else Int(HexValue(body[2..]))
  {
    DigitsReadWhole(body);
    HexReadWhole(body);
    if HexPrefixed(body) then
      var digits := LeadingHexDigits(body[2..]);
      if digits == [] then NaN else Int(HexValue(digits))
    else
      var digits := LeadingDigits(body);
      if digits == [] then NaN else Int(DecimalValue(digits))
  }

  /** An optional sign, then the digits ReadDigits takes; NaN when there are none. */
  function Signed(t: string): (r: ParsedInt)
    ensures t == [] ==> r == NaN
    ensures t != [] && AllDigits(t) ==> r == Int(DecimalValue(t))
    ensures HexPrefixed(t) && AllHexDigits(t[2..]) ==> r == if |t| == 2 then NaN else Int(HexValue(t[2..]))
  {
    if |t| > 0 && (t[0] == '-' || t[0] == '+') then
      match ReadDigits(t[1..])
      case NaN => NaN
      case Int(n) => Int(if t[0] == '-' then -n else n)
    else
      ReadDigits(t)
  }

  /** `parseInt(s)` without a radix: leading white space is skipped, then Signed reads the rest. */
  function ParseInt(s: string): (r: ParsedInt)
    ensures IsBlank(s) ==> r == NaN
    ensures s != [] && AllDigits(s) ==> r == Int(DecimalValue(s))
    ensures HexPrefixed(s) && AllHexDigits(s[2..]) ==> r == if |s| == 2 then NaN else Int(HexValue(s[2..]))
  {
    TrimStartAllSpace(s);
    DigitsReadWhole(s);
    HexReadWhole(s);
    Signed(TrimStart(s))
  }

  lemma {:induction false} LeadingHexDigitsOfHexDigits(s: string)
    requires AllHexDigits(s)
    ensures LeadingHexDigits(s) == s
  {
    if |s| > 0 { LeadingHexDigitsOfHexDigits(s[1..]); }
  }

  /** A "0x" text has no white space to skip and no sign, and its digits are read whole. */
  lemma HexReadWhole(s: string)
    ensures HexPrefixed(s) && AllHexDigits(s[2..]) ==> TrimStart(s) == s && LeadingHexDigits(s[2..]) == s[2..]
  {
    if HexPrefixed(s) && AllHexDigits(s[2..]) {
      assert !IsSpace(s[0]);
      LeadingHexDigitsOfHexDigits(s[2..]);
    }
  }

  /** `parseInt` reads a "0x" prefix as base 16, where a base-10 reading would stop at the "x". */
  lemma ParseIntReadsHex()
    ensures ParseInt("0x1A") == Int(26) && ParseInt("0x") == NaN
  {
    var s := "0x1A";
    assert s[2..] == "1A";
    assert HexPrefixed(s);
    assert AllHexDigits(s[2..]) by { assert IsHexDigit('1') && IsHexDigit('A'); }
    assert HexValue("1A") == 26 by { assert "1A"[..1] == "1"; assert "1"[..0] == ""; }
    assert HexPrefixed("0x") && AllHexDigits("0x"[2..]);
  }


  lemma {:induction false} LeadingDigitsOfDigits(s: string)
    requires AllDigits(s)
    ensures LeadingDigits(s) == s
  {
    if |s| > 0 { LeadingDigitsOfDigits(s[1..]); }
  }

  /** A non-empty digit string has no white space to skip and is read whole. */
  lemma DigitsReadWhole(s: string)
    ensures s != [] && AllDigits(s) ==> TrimStart(s) == s && LeadingDigits(s) == s
  {
    if s != [] && AllDigits(s) {
      assert !IsSpace(s[0]) by { assert IsDigit(s[0]); }
      LeadingDigitsOfDigits(s);
    }
  }

  /** `parseInt` reads back what `toString` printed. */
  lemma ParseIntRoundTrip(n: nat)
    ensures ParseInt(DecimalString(n)) == Int(n)
  {
    DecimalRoundTrip(n);
  }

  /** `String(n)` for any integer: a minus sign before the digits of a negative one. */
  function IntString(n: int): (r: string)
    ensures r != [] && (n >= 0 ==> AllDigits(r))
  {
    if n >= 0 then DecimalString(n) else "-" + DecimalString(-n)
  }

  /** `parseInt` reads back what `String` printed, a negative number included. */
  lemma IntStringRoundTrip(n: int)
    ensures ParseInt(IntString(n)) == Int(n)
  {
    if n >= 0 {
      ParseIntRoundTrip(n);
    } else {
      var digits := DecimalString(-n);
      var t := "-" + digits;
      assert t[1..] == digits;
      NoLeadingSpace(t);
      assert ParseInt(t) == Signed(t);
      MinusDigits(t);
      DecimalRoundTrip(-n);
    }
  }

  /** Text that starts with a non-space character is its own TrimStart. */
  lemma NoLeadingSpace(t: string)
    requires t != [] && !IsSpace(t[0])
    ensures TrimStart(t) == t
  {
  }

  /** A minus sign before a run of digits reads as the negated digit value. */
  lemma MinusDigits(t: string)
    requires |t| > 1 && t[0] == '-' && AllDigits(t[1..])
    ensures Signed(t) == Int(0 - DecimalValue(t[1..]))
  {
    assert ReadDigits(t[1..]) == Int(DecimalValue(t[1..]));
  }

  /**
   * A string's `length` in JavaScript: UTF-16 code units, so a character
   * above U+FFFF (a surrogate pair) counts twice.
   */
  function Utf16Length(s: string): (n: nat)
    ensures |s| <= n <= 2 * |s|
  {
    if s == [] then 0 else Utf16Length(s[..|s| - 1]) + (if s[|s| - 1] as int > 0xFFFF then 2 else 1)
  }

  /** The UTF-16 length of a concatenation is the sum of the lengths. */
  lemma {:induction false} Utf16LengthAppend(a: string, b: string)
    ensures Utf16Length(a + b) == Utf16Length(a) + Utf16Length(b)
  {
    if b != [] {
      assert (a + b)[..|a + b| - 1] == a + b[..|b| - 1];
      Utf16LengthAppend(a, b[..|b| - 1]);
    } else {
      assert a + b == a;
    }
  }

  /** Within the Basic Multilingual Plane the UTF-16 length is the character count, and only there. */
  lemma {:induction false} Utf16LengthOfBmp(s: string)
    ensures Utf16Length(s) == |s| <==> forall i :: 0 <= i < |s| ==> s[i] as int <= 0xFFFF
  {
    if s != [] {
      Utf16LengthOfBmp(s[..|s| - 1]);
      assert forall i :: 0 <= i < |s| - 1 ==> s[..|s| - 1][i] == s[i];
    }
  }
}
