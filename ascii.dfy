// Character classes and decimal conversion as the C library provides
// them: `isdigit`, `atoi` (leading white space, an optional sign, then
// the longest run of digits) and the `%d` rendering used for the pid in
// the lock file.

module Ascii {

  predicate IsDigit(c: char)
  {
    '0' <= c <= '9'
  }

  /** The white space `atoi` skips. */
  predicate IsSpace(c: char)
  {
    c == ' ' || c == '\t' || c == '\n' || c == '\r' || c == 11 as char || c == 12 as char
  }

  function DigitValue(c: char): (d: nat)
    requires IsDigit(c)
    ensures d < 10
  {
    (c as int - '0' as int) as nat
  }

  function DigitChar(d: nat): (c: char)
    requires d < 10
    ensures IsDigit(c) && DigitValue(c) == d
  {
    ('0' as int + d) as char
  }

  predicate AllDigits(s: string)
  {
    forall i :: 0 <= i < |s| ==> IsDigit(s[i])
  }

  /** The number a string of digits spells, most significant first. */
  function DigitsValue(s: string): (v: nat)
    requires AllDigits(s)
  {
    if |s| == 0 then 0 else 10 * DigitsValue(s[..|s| - 1]) + DigitValue(s[|s| - 1])
  }

  /** The longest prefix of digits. */
  function LeadingDigits(s: string): (p: string)
    ensures AllDigits(p) && p <= s
    ensures |p| < |s| ==> !IsDigit(s[|p|])
  {
    if |s| == 0 || !IsDigit(s[0]) then [] else [s[0]] + LeadingDigits(s[1..])
  }

  /** `atoi` on a string (overflow is not modelled: the value is an
    * unbounded integer). */
  function Atoi(s: string): (v: int)
    ensures |s| == 0 ==> v == 0
  {
    if |s| > 0 && IsSpace(s[0]) then Atoi(s[1..])
    else if |s| > 0 && s[0] == '-' then -(DigitsValue(LeadingDigits(s[1..])) as int)
    else if |s| > 0 && s[0] == '+' then DigitsValue(LeadingDigits(s[1..]))
    else DigitsValue(LeadingDigits(s))
  }

  /** `%d` of a natural number. */
  function Decimal(n: nat): (s: string)
    ensures |s| > 0 && AllDigits(s)
  {
    if n < 10 then [DigitChar(n)] else Decimal(n / 10) + [DigitChar(n % 10)]
  }

  /** Reading back what `%d` wrote gives the number. */
  lemma {:induction false} DecimalValue(n: nat)
    ensures DigitsValue(Decimal(n)) == n
    decreases n
  {
    if n >= 10 {
      DecimalValue(n / 10);
      var s := Decimal(n);
      assert s[..|s| - 1] == Decimal(n / 10);
    }
  }

  /** A digit string followed by a non-digit is its own leading run. */
  lemma {:induction false} LeadingDigitsOf(d: string, r: string)
    requires AllDigits(d) && (|r| == 0 || !IsDigit(r[0]))
    ensures LeadingDigits(d + r) == d
    decreases |d|
  {
    if |d| > 0 {
      assert (d + r)[1..] == d[1..] + r;
      LeadingDigitsOf(d[1..], r);
    } else {
      assert d + r == r;
    }
  }

  /** A leading minus sign negates the digits after it. */
  lemma AtoiMinus(t: string)
    requires |t| > 0 && t[0] == '-'
    ensures Atoi(t) == -(DigitsValue(LeadingDigits(t[1..])) as int)
  {
    assert !IsSpace(t[0]);
  }

  /** `atoi` inverts `%d`, also when the number is followed by text that
    * does not start with a digit. */
  lemma AtoiDecimal(n: nat, r: string)
    requires |r| == 0 || !IsDigit(r[0])
    ensures Atoi(Decimal(n) + r) == n
  {
    var d := Decimal(n);
    assert (d + r)[0] == d[0];
    LeadingDigitsOf(d, r);
    DecimalValue(n);
  }

  /** Widths of decimal numbers: below 10^k a number has at most k
    * digits. */
  lemma {:induction false} DecimalLength(n: nat, k: nat, p: nat)
    requires k >= 1 && p == Pow10(k) && n < p
    ensures |Decimal(n)| <= k
    decreases k
  {
    if n >= 10 {
      DecimalLength(n / 10, k - 1, Pow10(k - 1));
    }
  }

  function Pow10(k: nat): (p: nat)
    ensures p >= 1
  {
    if k == 0 then 1 else 10 * Pow10(k - 1)
  }
}
