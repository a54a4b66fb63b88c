/** Decimal digits: `parseInt` of a digit string, the integer part of
    `Number(s)`, and `n.toString()` for a whole number. */
module Decimal {
  import opened Types

  /** The `\d` character class of a JavaScript regular expression. */
  predicate IsDigit(c: char)
  {
    '0' <= c <= '9'
  }

  predicate AllDigits(s: string)
  {
    forall i :: 0 <= i < |s| ==> IsDigit(s[i])
  }

  function DigitValue(c: char): (d: nat)
    requires IsDigit(c)
    ensures d < 10
  {
    c as int - '0' as int
  }

  function DigitChar(d: nat): (c: char)
    requires d < 10
    ensures IsDigit(c) && DigitValue(c) == d
  {
    ('0' as int + d) as char
  }

  /** The value of a digit string read left to right, most significant first. */
  function DigitsValue(ds: string): nat
    requires AllDigits(ds)
  {
    if ds == [] then 0 else DigitsValue(ds[..|ds| - 1]) * 10 + DigitValue(ds[|ds| - 1])
  }

  /** `parseInt(ds)` for a string that holds only digits: not a number when
      the string is empty, its decimal value otherwise. */
  function ParseDigits(ds: string): (r: Option<nat>)
    requires AllDigits(ds)
    ensures r.None? <==> ds == []
  {
    if ds == [] then None else Some(DigitsValue(ds))
  }

  /** `n.toString()` for a whole number. */
  function ToDecimal(n: nat): (s: string)
    decreases n
  {
    if n < 10 then [DigitChar(n)] else ToDecimal(n / 10) + [DigitChar(n % 10)]
  }

  /** Rendering a number and reading it back gives the number. */
  lemma {:induction false} ToDecimalRoundTrip(n: nat)
    ensures |ToDecimal(n)| > 0 && AllDigits(ToDecimal(n))
    ensures DigitsValue(ToDecimal(n)) == n
    decreases n
  {
    var s := ToDecimal(n);
    if n < 10 {
      assert s[..0] == [];
    } else {
      ToDecimalRoundTrip(n / 10);
      assert s[..|s| - 1] == ToDecimal(n / 10);
    }
  }

  /** Leading zeros do not change the value of a digit string. */
  lemma {:induction false} LeadingZero(ds: string)
    requires AllDigits(ds)
    ensures DigitsValue("0" + ds) == DigitsValue(ds)
    decreases |ds|
  {
    if ds != [] {
      var last := |ds| - 1;
      LeadingZero(ds[..last]);
      assert ("0" + ds)[..|ds|] == "0" + ds[..last];
    } else {
      assert ("0" + ds)[..0] == [];
    }
  }

  /** `Number(s)` on the integer forms it accepts: the empty string is 0, and
      an optional sign followed by one or more digits is that integer.
      Anything else reads as not a number. */
  function NumberOf(s: string): (r: Option<int>)
    ensures AllDigits(s) ==> r == Some(if s == [] then 0 else DigitsValue(s))
  {
    if s == [] then Some(0)
    else if AllDigits(s) then Some(DigitsValue(s))
    else if (s[0] == '-' || s[0] == '+') && |s| > 1 && AllDigits(s[1..]) then
      Some(if s[0] == '-' then -(DigitsValue(s[1..]) as int) else DigitsValue(s[1..]))
    else None
  }

  /** `Number(n.toString())` gives `n` back. */
  lemma NumberOfToDecimal(n: nat)
    ensures NumberOf(ToDecimal(n)) == Some(n)
  {
    ToDecimalRoundTrip(n);
  }

  /** `Number("-" + n.toString())` is `-n`: negative amounts are numbers. */
  lemma NumberOfNegative(n: nat)
    ensures NumberOf("-" + ToDecimal(n)) == Some(-(n as int))
  {
    ToDecimalRoundTrip(n);
    var s := "-" + ToDecimal(n);
    assert s[1..] == ToDecimal(n);
    assert !IsDigit(s[0]);
  }
}
