/** Parsing of user-typed text: amounts (`parseAmount`), integers (`parseInt`), the strict
    MM/DD/YYYY date pattern, and the month and year buttons of the summary flow. */
module Parsing {

  import opened Wrappers
  import opened Strings

  // ---------------------------------------------------------------------------------------
  // Amounts

  /** The characters `parseAmount` keeps: digits, the decimal point and the minus sign. */
  predicate IsAmountChar(c: char) {
    IsDigit(c) || c == '.' || c == '-'
  }

  /** Drops commas and every other character outside `[0-9.-]`, keeping the order. */
  function CleanAmount(s: string): (t: string)
    ensures |t| <= |s|
    ensures forall i :: 0 <= i < |t| ==> IsAmountChar(t[i])
  {
    if |s| == 0 then ""
    else (if IsAmountChar(s[0]) then [s[0]] else "") + CleanAmount(s[1..])
  }

  function Pow10(k: nat): (r: nat)
    ensures r >= 1
  {
    if k == 0 then 1 else 10 * Pow10(k - 1)
  }

  /** `parseFloat` on a string of digits, points and minus signs: the longest prefix of the
      form `-? (digits ('.' digits*)? | '.' digits)`, or `None` (NaN) when there is none. */
  function ParseFloatPrefix(t: string): Option<real> {
    var negative := |t| > 0 && t[0] == '-';
    var body := if negative then t[1..] else t;
    var whole := LeadingDigits(body);
    var rest := body[|whole|..];
    var fraction := if |rest| > 0 && rest[0] == '.' then LeadingDigits(rest[1..]) else "";
    if |whole| == 0 && |fraction| == 0 then None
    else
      var magnitude := Magnitude(whole, fraction);
      Some(if negative then -magnitude else magnitude)
  }

  /** The value of the decimal literal `whole.fraction`. */
  function Magnitude(whole: string, fraction: string): (v: real)
    requires AllDigits(whole) && AllDigits(fraction)
    ensures v >= 0.0
  {
    var f := DigitsValue(fraction) as real / Pow10(|fraction|) as real;
    assert f >= 0.0;
    DigitsValue(whole) as real + f
  }

  /** `parseAmount(text)`: clean, then `parseFloat`, with NaN read as 0. */
  function ParseAmount(s: string): real {
    ParseFloatPrefix(CleanAmount(s)).GetOr(0.0)
  }

  lemma {:induction false} CleanAmountAppend(a: string, b: string)
    ensures CleanAmount(a + b) == CleanAmount(a) + CleanAmount(b)
  {
    if |a| > 0 {
      assert (a + b)[1..] == a[1..] + b;
      CleanAmountAppend(a[1..], b);
    } else {
      assert a + b == b;
    }
  }

  lemma {:induction false} CleanAmountKeepsAmountChars(s: string)
    requires forall i :: 0 <= i < |s| ==> IsAmountChar(s[i])
    ensures CleanAmount(s) == s
  {
    if |s| > 0 {
      CleanAmountKeepsAmountChars(s[1..]);
      assert [s[0]] + s[1..] == s;
    }
  }

  lemma CleanDropsSeparator(a: string, b: string)
    ensures CleanAmount(a + "," + b) == CleanAmount(a + b)
  {
    assert a + "," + b == a + ("," + b);
    CleanAmountAppend(a, "," + b);
    assert CleanAmount("," + b) == CleanAmount(b) by {
      assert ("," + b)[0] == ',' && ("," + b)[1..] == b;
    }
    CleanAmountAppend(a, b);
  }

  /** Thousands separators (and any other dropped character) do not change the amount. */
  lemma ParseAmountIgnoresSeparator(a: string, b: string)
    ensures ParseAmount(a + "," + b) == ParseAmount(a + b)
  {
    CleanDropsSeparator(a, b);
  }

  /** Cleaning is idempotent, so parsing an already cleaned string gives the same amount. */
  lemma ParseAmountOfCleaned(s: string)
    ensures ParseAmount(CleanAmount(s)) == ParseAmount(s)
  {
    CleanAmountKeepsAmountChars(CleanAmount(s));
  }

  /** A plain decimal integer reads back as itself. */
  lemma ParseAmountOfNat(n: nat)
    ensures ParseAmount(NatToString(n)) == n as real
  {
    var s := NatToString(n);
    assert forall i :: 0 <= i < |s| ==> IsAmountChar(s[i]);
    CleanAmountKeepsAmountChars(s);
    FloatPrefixOfWhole(s);
    NatToStringValue(n);
  }

  /** A run of digits reads as its decimal value. */
  lemma FloatPrefixOfWhole(w: string)
    requires |w| > 0 && AllDigits(w)
    ensures ParseFloatPrefix(w) == Some(DigitsValue(w) as real)
  {
    LeadingDigitsOfDigits(w);
    assert w[0] != '-';
    assert w[|w|..] == "";
    assert Magnitude(w, "") == DigitsValue(w) as real by {
      assert DigitsValue("") == 0 && Pow10(0) == 1;
    }
  }

  /** The digits at the front of `w + t` are `w` when `t` does not start with a digit. */
  lemma {:induction false} LeadingDigitsStopAt(w: string, t: string)
    requires AllDigits(w) && (|t| == 0 || !IsDigit(t[0]))
    ensures LeadingDigits(w + t) == w
  {
    if |w| > 0 {
      assert (w + t)[1..] == w[1..] + t;
      LeadingDigitsStopAt(w[1..], t);
      assert [w[0]] + w[1..] == w;
    } else {
      assert w + t == t;
    }
  }

  lemma FloatPrefixOfDecimal(w: string, f: string)
    requires |w| > 0 && AllDigits(w) && AllDigits(f)
    ensures ParseFloatPrefix(w + "." + f) == Some(Magnitude(w, f))
  {
    var s := w + "." + f;
    assert s == w + ("." + f);
    LeadingDigitsStopAt(w, "." + f);
    LeadingDigitsOfDigits(f);
    assert s[0] == w[0];
    var rest := s[|w|..];
    assert rest == "." + f;
    assert rest[1..] == f;
  }

  /** `w.f` reads as `w + f / 10^|f|` for digit strings `w` (non-empty) and `f`. */
  lemma ParseAmountOfDecimal(w: string, f: string)
    requires |w| > 0 && AllDigits(w) && AllDigits(f)
    ensures ParseAmount(w + "." + f) == DigitsValue(w) as real + DigitsValue(f) as real / Pow10(|f|) as real
  {
    var s := w + "." + f;
    DecimalIsAmountChars(w, f);
    CleanAmountKeepsAmountChars(s);
    FloatPrefixOfDecimal(w, f);
    assert ParseAmount(s) == Magnitude(w, f);
  }

  lemma DecimalIsAmountChars(w: string, f: string)
    requires AllDigits(w) && AllDigits(f)
    ensures forall i :: 0 <= i < |w + "." + f| ==> IsAmountChar((w + "." + f)[i])
  {
    var s := w + "." + f;
    forall i | 0 <= i < |s|
      ensures IsAmountChar(s[i])
    {
      if i < |w| {
        assert s[i] == w[i];
      } else if i > |w| {
        assert s[i] == f[i - |w| - 1];
      }
    }
  }

  /** A leading minus sign negates a well-formed amount. */
  lemma ParseAmountNegated(s: string)
    requires |s| > 0 && (forall i :: 0 <= i < |s| ==> IsAmountChar(s[i])) && s[0] != '-'
    ensures ParseAmount("-" + s) == -ParseAmount(s)
  {
    CleanAmountKeepsAmountChars(s);
    CleanAmountKeepsAmountChars("-" + s);
    assert ("-" + s)[1..] == s;
  }

  /** Without a minus sign anywhere, an amount is never negative. */
  lemma ParseAmountWithoutMinus(s: string)
    requires forall i :: 0 <= i < |s| ==> s[i] != '-'
    ensures ParseAmount(s) >= 0.0
  {
    CleanWithoutMinus(s);
    var t := CleanAmount(s);
    assert |t| == 0 || t[0] != '-';
  }

  lemma {:induction false} CleanWithoutMinus(s: string)
    requires forall i :: 0 <= i < |s| ==> s[i] != '-'
    ensures forall i :: 0 <= i < |CleanAmount(s)| ==> CleanAmount(s)[i] != '-'
  {
    if |s| > 0 {
      CleanWithoutMinus(s[1..]);
    }
  }

  // ---------------------------------------------------------------------------------------
  // Integers

  predicate IsHexDigit(c: char) {
    IsDigit(c) || 'a' <= c <= 'f' || 'A' <= c <= 'F'
  }

  function HexDigitValue(c: char): (v: nat)
    requires IsHexDigit(c)
    ensures v < 16
  {
    if IsDigit(c) then DigitValue(c)
    else if 'a' <= c <= 'f' then (c as int) - ('a' as int) + 10
    else (c as int) - ('A' as int) + 10
  }

  function LeadingHexDigits(s: string): (p: string)
    ensures |p| <= |s| && p == s[..|p|]
    ensures forall i :: 0 <= i < |p| ==> IsHexDigit(p[i])
  {
    if |s| == 0 || !IsHexDigit(s[0]) then "" else [s[0]] + LeadingHexDigits(s[1..])
  }

  function HexValue(s: string): nat
    requires forall i :: 0 <= i < |s| ==> IsHexDigit(s[i])
  {
    if |s| == 0 then 0 else 16 * HexValue(s[..|s| - 1]) + HexDigitValue(s[|s| - 1])
  }

  /** Which radix `parseInt` was called with: none (`parseInt(text)`, where a `0x` prefix
      switches to hexadecimal) or an explicit 10. */
  datatype Radix = Unspecified | Decimal

  /** `parseInt(s, radix)`: skip leading white space, take an optional sign, then the longest
      run of digits; `None` stands for NaN (no digit at all). */
  function ParseInt(s: string, radix: Radix): (r: Option<int>)
    ensures r.Some? ==> exists i :: 0 <= i < |s| && IsHexDigit(s[i])
  {
    var t := TrimStart(s);
    var unsigned := if |t| > 0 && (t[0] == '-' || t[0] == '+') then t[1..] else t;
    var negative := |t| > 0 && t[0] == '-';
    match ParseMagnitude(unsigned, radix)
    case None => None
    case Some(m) =>
      assert unsigned == s[|s| - |unsigned|..];
      DigitInSuffix(s, |s| - |unsigned|);
      var value: int := if negative then -(m as int) else m;
      Some(value)
  }

  /** The digits after the sign: hexadecimal after `0x` or `0X` when no radix is given, else
      decimal; `None` when there is no digit. */
  function ParseMagnitude(u: string, radix: Radix): (r: Option<nat>)
    ensures r.Some? ==> exists i :: 0 <= i < |u| && IsHexDigit(u[i])
  {
    if radix == Unspecified && |u| >= 2 && u[0] == '0' && (u[1] == 'x' || u[1] == 'X') then
      var digits := LeadingHexDigits(u[2..]);
      if |digits| == 0 then None
      else
        assert IsHexDigit(u[2]);
        Some(HexValue(digits))
    else
      var digits := LeadingDigits(u);
      if |digits| == 0 then None
      else
        assert IsHexDigit(u[0]);
        Some(DigitsValue(digits))
  }

  /** A digit of a suffix is a digit of the whole string. */
  lemma DigitInSuffix(s: string, k: nat)
    requires k <= |s| && exists i :: 0 <= i < |s[k..]| && IsHexDigit(s[k..][i])
    ensures exists i :: 0 <= i < |s| && IsHexDigit(s[i])
  {
    var i :| 0 <= i < |s[k..]| && IsHexDigit(s[k..][i]);
    assert s[k + i] == s[k..][i];
  }

  /** An integer's decimal rendering parses back to it, with or without an explicit radix. */
  lemma IntRoundTrip(n: int, radix: Radix)
    ensures ParseInt(IntToString(n), radix) == Some(n)
  {
    var s := IntToString(n);
    var m: nat := if n < 0 then -n else n;
    var d := NatToString(m);
    assert !IsJsWhitespace(s[0]);
    assert TrimStart(s) == s;
    if n < 0 {
      assert s[1..] == d;
    } else {
      assert s == d;
    }
    LeadingDigitsOfDigits(d);
    NatToStringValue(m);
  }

  // ---------------------------------------------------------------------------------------
  // Dates typed by the user

  /** `/^(0[1-9]|1[0-2])\/(0[1-9]|[12][0-9]|3[01])\/\d{4}$/`, the pattern the loan billing
      date and an edited date must match. */
  predicate IsBillingDate(s: string) {
    && |s| == 10
    && ((s[0] == '0' && '1' <= s[1] <= '9') || (s[0] == '1' && '0' <= s[1] <= '2'))
    && s[2] == '/'
    && ((s[3] == '0' && '1' <= s[4] <= '9') || ((s[3] == '1' || s[3] == '2') && IsDigit(s[4]))
        || (s[3] == '3' && (s[4] == '0' || s[4] == '1')))
    && s[5] == '/'
    && IsDigit(s[6]) && IsDigit(s[7]) && IsDigit(s[8]) && IsDigit(s[9])
  }

  lemma TwoDigitValue(a: char, b: char)
    requires IsDigit(a) && IsDigit(b)
    ensures DigitsValue([a, b]) == 10 * DigitValue(a) + DigitValue(b)
  {
    assert [a, b][..1] == [a];
    assert [a][..0] == [];
    assert DigitsValue([a]) == DigitValue(a);
    assert DigitsValue([a, b]) == 10 * DigitsValue([a]) + DigitValue(b);
  }

  /** The pattern accepts exactly ten characters `MM/DD/YYYY` of digits and slashes whose month
      is 1..12 and whose day is 1..31; it does not check the day against the month. */
  lemma BillingDateMeaning(s: string)
    ensures IsBillingDate(s) <==>
      && |s| == 10 && s[2] == '/' && s[5] == '/'
      && AllDigits(s[0..2]) && AllDigits(s[3..5]) && AllDigits(s[6..10])
      && 1 <= DigitsValue(s[0..2]) <= 12
      && 1 <= DigitsValue(s[3..5]) <= 31
  {
    if |s| == 10 && IsDigit(s[0]) && IsDigit(s[1]) && IsDigit(s[3]) && IsDigit(s[4]) {
      assert s[0..2] == [s[0], s[1]];
      assert s[3..5] == [s[3], s[4]];
      TwoDigitValue(s[0], s[1]);
      TwoDigitValue(s[3], s[4]);
    }
    if IsBillingDate(s) {
      assert AllDigits(s[6..10]);
    }
    if |s| == 10 && AllDigits(s[0..2]) && AllDigits(s[3..5]) && AllDigits(s[6..10]) {
      assert IsDigit(s[0]) && IsDigit(s[1]) by {
        assert s[0..2][0] == s[0] && s[0..2][1] == s[1];
      }
      assert IsDigit(s[3]) && IsDigit(s[4]) by {
        assert s[3..5][0] == s[3] && s[3..5][1] == s[4];
      }
      assert IsDigit(s[6]) && IsDigit(s[7]) && IsDigit(s[8]) && IsDigit(s[9]) by {
        assert s[6..10][0] == s[6] && s[6..10][1] == s[7] && s[6..10][2] == s[8] && s[6..10][3] == s[9];
      }
    }
  }

  // ---------------------------------------------------------------------------------------
  // Summary buttons

  /** The two characters every month and year button starts with. */
  const CalendarPrefix := "📅 "

  const MonthNames: seq<string> :=
    ["January", "February", "March", "April", "May", "June", "July", "August", "September",
     "October", "November", "December"]

  /** The position of the first `x` in `xs`, or -1. */
  function IndexIn(xs: seq<string>, x: string): (r: int)
    ensures -1 <= r < |xs|
    ensures r >= 0 ==> xs[r] == x && forall j :: 0 <= j < r ==> xs[j] != x
    ensures r == -1 ==> x !in xs
  {
    if |xs| == 0 then -1
    else if xs[0] == x then 0
    else
      var k := IndexIn(xs[1..], x);
      if k < 0 then -1 else k + 1
  }

  /** `parseMonthFromText`: drop the first `"📅 "` wherever it occurs, then look the rest up
      among the month names (0 = January); -1 when it is not a month name. */
  function ParseMonthFromText(text: string): (m: int)
    ensures -1 <= m < 12
    ensures m >= 0 <==> ReplaceFirst(text, CalendarPrefix, "") in MonthNames
    ensures m >= 0 ==> MonthNames[m] == ReplaceFirst(text, CalendarPrefix, "")
  {
    IndexIn(MonthNames, ReplaceFirst(text, CalendarPrefix, ""))
  }

  /** `parseYearFromText`: drop the first `"📅 "`, then `parseInt(…, 10)`. */
  function ParseYearFromText(text: string): Option<int> {
    ParseInt(ReplaceFirst(text, CalendarPrefix, ""), Decimal)
  }

  lemma MonthNamesDistinct()
    ensures forall i, j :: 0 <= i < j < |MonthNames| ==> MonthNames[i] != MonthNames[j]
  {
  }

  /** A month parses to `m` exactly when the text, with its first prefix dropped, is the name
      of month `m`; every other text gives -1. */
  lemma ParseMonthMeaning(text: string, m: int)
    requires 0 <= m < 12
    ensures ParseMonthFromText(text) == m <==> ReplaceFirst(text, CalendarPrefix, "") == MonthNames[m]
  {
    MonthNamesDistinct();
  }

  /** Each month button parses back to its month. */
  lemma MonthButtonRoundTrip(m: nat)
    requires m < 12
    ensures ParseMonthFromText(CalendarPrefix + MonthNames[m]) == m
  {
    ReplaceFirstOfPrefixed(CalendarPrefix, MonthNames[m]);
    ParseMonthMeaning(CalendarPrefix + MonthNames[m], m);
  }

  /** Each year button parses back to its year. */
  lemma YearButtonRoundTrip(y: int)
    ensures ParseYearFromText(CalendarPrefix + IntToString(y)) == Some(y)
  {
    ReplaceFirstOfPrefixed(CalendarPrefix, IntToString(y));
    IntRoundTrip(y, Decimal);
  }
}
