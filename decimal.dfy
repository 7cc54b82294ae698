/** The two number/string conversions the client relies on: session ids are
    made with `Date.now().toString()` and read back with `parseInt`. Only
    non-negative integers are produced, so only the decimal digit forms
    are modelled. */
module Decimal {
  import opened Wrappers

  predicate IsDigit(c: char)
  {
    '0' <= c <= '9'
  }

  predicate AllDigits(s: string)
  {
    forall i :: 0 <= i < |s| ==> IsDigit(s[i])
  }

  function DigitChar(d: nat): (c: char)
    requires d < 10
    ensures IsDigit(c) && c as int - '0' as int == d
  {
    ('0' as int + d) as char
  }

  function DigitValue(c: char): (d: nat)
    requires IsDigit(c)
    ensures d < 10
  {
    c as int - '0' as int
  }

  /** `n.toString()` for a non-negative integer: decimal digits, most
      significant first, no leading zeros. */
  function FromNat(n: nat): (s: string)
    ensures |s| >= 1 && AllDigits(s)
    ensures |s| > 1 ==> s[0] != '0'
    decreases n
  {
    if n < 10 then [DigitChar(n)] else FromNat(n / 10) + [DigitChar(n % 10)]
  }

  /** The number a string of decimal digits denotes. */
  function DigitsValue(s: string): nat
    requires AllDigits(s)
    decreases |s|
  {
    if s == [] then 0 else DigitsValue(s[..|s| - 1]) * 10 + DigitValue(s[|s| - 1])
  }

  /** Length of the longest prefix of `s` made of decimal digits. */
  function LeadingDigits(s: string): (k: nat)
    ensures k <= |s| && AllDigits(s[..k])
    ensures k < |s| ==> !IsDigit(s[k])
    decreases |s|
  {
    if s == [] || !IsDigit(s[0]) then 0 else 1 + LeadingDigits(s[1..])
  }

  /** `parseInt(s)` on the decimal forms the application stores: the value of
      the leading digits, or `None` (NaN) when `s` does not start with one. */
  function ParseInt(s: string): (r: Option<nat>)
    ensures r.None? <==> s == [] || !IsDigit(s[0])
  {
    var k := LeadingDigits(s);
    if k == 0 then None else Some(DigitsValue(s[..k]))
  }

  lemma {:induction false} DigitsValueFromNat(n: nat)
    ensures DigitsValue(FromNat(n)) == n
    decreases n
  {
    var s := FromNat(n);
    if n >= 10 {
      DigitsValueFromNat(n / 10);
      assert s[..|s| - 1] == FromNat(n / 10);
    }
  }

  /** Reading an id back with `parseInt` gives the clock value it was made from. */
  lemma ParseFromNat(n: nat)
    ensures ParseInt(FromNat(n)) == Some(n)
  {
    var s := FromNat(n);
    assert LeadingDigits(s) == |s|;
    assert s[..|s|] == s;
    DigitsValueFromNat(n);
  }
}
