/** The two string operations the drain coordinator relies on: Go's strings.LastIndex with a
    one-character separator, and the decimal rendering of fmt's %d verb for non-negative numbers. */
module Strings {

  predicate IsDigit(c: char) {
    '0' <= c <= '9'
  }

  /** The last position of `c` in `s`, or -1 when `s` has no `c`. */
  function LastIndex(s: string, c: char): (r: int)
    ensures -1 <= r < |s|
    ensures r >= 0 ==> s[r] == c
    ensures forall j :: r < j < |s| ==> s[j] != c
  {
    if |s| == 0 then -1
    else if s[|s| - 1] == c then |s| - 1
    else LastIndex(s[..|s| - 1], c)
  }

  function DigitChar(d: nat): (c: char)
    requires d < 10
    ensures IsDigit(c)
  {
    ('0' as int + d) as char
  }

  /** %d of a non-negative number: its decimal digits, most significant first, no leading zeros. */
  function Decimal(n: nat): (r: string)
    ensures |r| > 0
    ensures forall k :: 0 <= k < |r| ==> IsDigit(r[k])
    ensures r[0] == '0' <==> n == 0
    ensures |r| > 1 ==> r[0] != '0'
  {
    if n < 10 then [DigitChar(n)] else Decimal(n / 10) + [DigitChar(n % 10)]
  }

  /** Appending a separator and then text without separators moves the last separator to the
      appended one. */
  lemma {:induction false} LastIndexOfAppendedSeparator(x: string, c: char, d: string)
    requires forall k :: 0 <= k < |d| ==> d[k] != c
    ensures LastIndex(x + [c] + d, c) == |x|
  {
    var s := x + [c] + d;
    if |d| == 0 {
      assert s[|s| - 1] == c;
    } else {
      assert s[|s| - 1] == d[|d| - 1];
      assert s[..|s| - 1] == x + [c] + d[..|d| - 1];
      LastIndexOfAppendedSeparator(x, c, d[..|d| - 1]);
    }
  }

  /** The number a string of decimal digits denotes, most significant digit first. */
  function DigitsValue(s: string): nat
    requires forall k :: 0 <= k < |s| ==> IsDigit(s[k])
  {
    if |s| == 0 then 0
    else
      assert forall k :: 0 <= k < |s| - 1 ==> s[..|s| - 1][k] == s[k];
      assert IsDigit(s[|s| - 1]);
      DigitsValue(s[..|s| - 1]) * 10 + (s[|s| - 1] as int - '0' as int)
  }

  /** Reading the digits %d wrote gives back the number. */
  lemma {:induction false} DecimalRoundTrip(n: nat)
    ensures DigitsValue(Decimal(n)) == n
  {
    if n >= 10 {
      var r := Decimal(n);
      assert r[..|r| - 1] == Decimal(n / 10);
      DecimalRoundTrip(n / 10);
    }
  }

  /** Different numbers are written differently. */
  lemma DecimalInjective(m: nat, n: nat)
    requires Decimal(m) == Decimal(n)
    ensures m == n
  {
    DecimalRoundTrip(m);
    DecimalRoundTrip(n);
  }
}
