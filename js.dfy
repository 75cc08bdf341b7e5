// The pieces of JavaScript semantics that the account-info code leans on:
// truthiness of optional strings, the `x || default` idiom, and the decimal
// subset of `parseInt` used to read string balances. The decimal text of an
// integer is defined here only as the reference that `parseInt` inverts.
// Numbers are exact integers here, not doubles.

module Js {

  datatype Option<+T> = None | Some(value: T)

  /** A possibly-undefined string is truthy when it is defined and not "". */
  predicate Truthy(s: Option<string>) {
    s.Some? && s.value != ""
  }

  const Btc: string := "BTC"

  /** `currency || "BTC"`: a falsy currency (absent or "") becomes "BTC". */
  function CurrencyOrBtc(currency: Option<string>): (r: string)
    ensures r != ""
    ensures Truthy(currency) ==> r == currency.value
    ensures !Truthy(currency) ==> r == Btc
  {
    if Truthy(currency) then currency.value else Btc
  }

  /** A JavaScript number as far as balances need it: an exact integer or NaN. */
  datatype JsNumber = Num(value: int) | NaN

  predicate IsDigit(c: char) {
    '0' <= c <= '9'
  }

  predicate AllDigits(s: string) {
    forall i :: 0 <= i < |s| ==> IsDigit(s[i])
  }

  function DigitValue(c: char): (d: nat)
    requires IsDigit(c)
    ensures d < 10
  {
    (c as int) - ('0' as int)
  }

  function DigitChar(d: nat): (c: char)
    requires d < 10
    ensures IsDigit(c) && DigitValue(c) == d
  {
    ('0' as int + d) as char
  }

  /** Length of the longest prefix of `s` made only of decimal digits. */
  function LeadingDigits(s: string): (n: nat)
    ensures n <= |s|
    ensures forall i :: 0 <= i < n ==> IsDigit(s[i])
    ensures n < |s| ==> !IsDigit(s[n])
  {
    if s == [] || !IsDigit(s[0]) then 0 else 1 + LeadingDigits(s[1..])
  }

  /** Value of a string of decimal digits, most significant first. */
  function DigitsValue(ds: string): nat
    requires AllDigits(ds)
  {
    if ds == [] then 0 else 10 * DigitsValue(ds[..|ds| - 1]) + DigitValue(ds[|ds| - 1])
  }

  /** The text after an optional leading sign character. */
  function Unsigned(s: string): (u: string)
    ensures |u| <= |s|
  {
    if |s| > 0 && (s[0] == '-' || s[0] == '+') then s[1..] else s
  }

  /**
   * `parseInt(s)` with no radix, restricted to decimal: an optional sign,
   * then the longest run of digits; the rest of the string is ignored, and
   * no digit at all gives NaN.
   */
  function ParseInt(s: string): (r: JsNumber)
    ensures |s| > 0 && IsDigit(s[0]) ==> r.Num? && r.value >= 0
    ensures (|s| == 0 || (!IsDigit(s[0]) && s[0] != '-' && s[0] != '+')) ==> r == NaN
    ensures r.Num? && r.value < 0 ==> s[0] == '-'
    // a sign with no digit after it ("-", "+x") gives NaN as well
    ensures r == NaN <==> LeadingDigits(Unsigned(s)) == 0
  {
    var body := Unsigned(s);
    var n := LeadingDigits(body);
    if n == 0 then NaN
    else
      var v: int := DigitsValue(body[..n]);
      Num(if |s| > 0 && s[0] == '-' then -v else v)
  }

  /** The decimal text of a non-negative integer: its digits, no leading zero. */
  function Decimal(n: nat): (s: string)
    ensures |s| > 0 && AllDigits(s)
    ensures |s| > 1 ==> s[0] != '0'
  {
    if n < 10 then [DigitChar(n)] else Decimal(n / 10) + [DigitChar(n % 10)]
  }

  /** The decimal text of any integer, with a leading "-" when negative. */
  function IntToString(i: int): (s: string)
    ensures |s| > 0
  {
    if i < 0 then "-" + Decimal(-i) else Decimal(i)
  }

  lemma {:induction false} DecimalValue(n: nat)
    ensures DigitsValue(Decimal(n)) == n
  {
    if n >= 10 {
      DecimalValue(n / 10);
      var s := Decimal(n);
      assert s[..|s| - 1] == Decimal(n / 10);
    }
  }

  lemma {:induction false} LeadingDigitsOfDigits(ds: string, rest: string)
    requires AllDigits(ds)
    requires rest == [] || !IsDigit(rest[0])
    ensures LeadingDigits(ds + rest) == |ds|
    ensures (ds + rest)[..|ds|] == ds
  {
    if ds != [] {
      assert (ds + rest)[1..] == ds[1..] + rest;
      LeadingDigitsOfDigits(ds[1..], rest);
    }
  }

  /**
   * Parsing stops at the first non-digit after an optional sign: "12.5" and
   * "12abc" parse as 12, "+12abc" as 12 and "-12abc" as -12.
   */
  lemma {:induction false} ParseIntStopsAtNonDigit(sign: string, ds: string, rest: string)
    requires sign == "" || sign == "-" || sign == "+"
    requires |ds| > 0 && AllDigits(ds)
    requires rest == [] || !IsDigit(rest[0])
    ensures ParseInt(sign + (ds + rest)) == Num(if sign == "-" then -(DigitsValue(ds) as int) else DigitsValue(ds))
  {
    LeadingDigitsOfDigits(ds, rest);
    SignedDigitRun(sign, ds + rest, |ds|);
  }

  /** An optional sign, then a run of `n` digits: ParseInt reads exactly that run. */
  lemma {:induction false} SignedDigitRun(sign: string, body: string, n: nat)
    requires sign == "" || sign == "-" || sign == "+"
    requires 0 < n && LeadingDigits(body) == n
    ensures ParseInt(sign + body) == Num(if sign == "-" then -(DigitsValue(body[..n]) as int) else DigitsValue(body[..n]))
  {
    var s := sign + body;
    if sign == "" {
      assert s == body;
    } else {
      assert s[0] == sign[0] && s[1..] == body;
    }
    assert Unsigned(s) == body;
  }

  /** parseInt gives back any integer from its decimal text. */
  lemma ParseIntOfToString(i: int)
    ensures ParseInt(IntToString(i)) == Num(i)
  {
    var d := Decimal(if i < 0 then -i else i);
    DecimalValue(if i < 0 then -i else i);
    LeadingDigitsOfDigits(d, []);
    assert d + [] == d;
    if i < 0 {
      var s := IntToString(i);
      assert Unsigned(s) == d;
    } else {
      assert Unsigned(d) == d;
      assert d[..|d|] == d;
    }
  }
}
