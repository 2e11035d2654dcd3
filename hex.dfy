/**
 * Lower-case hexadecimal formatting without a prefix, as a C++ stream
 * prints an unsigned integer after `std::hex`; used for block names.
 */
module Hex {
  const Digits: string := "0123456789abcdef"

  function DigitValue(c: char): (v: nat)
    ensures v < 16
  {
    if '0' <= c <= '9' then (c as int) - ('0' as int)
    else if 'a' <= c <= 'f' then (c as int) - ('a' as int) + 10
    else 0
  }

  predicate IsHexDigit(c: char) {
    ('0' <= c <= '9') || ('a' <= c <= 'f')
  }

  /** The digits of `n`, most significant first, with no leading zero. */
  function Format(n: nat): (s: string)
    decreases n
  {
    if n < 16 then [Digits[n]] else Format(n / 16) + [Digits[n % 16]]
  }

  /** Reads a string of hexadecimal digits, most significant first. */
  function Parse(s: string): (n: nat)
    decreases |s|
  {
    if s == [] then 0 else Parse(s[..|s| - 1]) * 16 + DigitValue(s[|s| - 1])
  }

  lemma DigitRoundTrip(d: nat)
    requires d < 16
    ensures IsHexDigit(Digits[d]) && DigitValue(Digits[d]) == d
  {
  }

  /** Formatting yields a non-empty string of hexadecimal digits that reads back as `n`. */
  lemma {:induction false} FormatRoundTrip(n: nat)
    ensures |Format(n)| > 0
    ensures forall k :: 0 <= k < |Format(n)| ==> IsHexDigit(Format(n)[k])
    ensures Parse(Format(n)) == n
  {
    if n < 16 {
      DigitRoundTrip(n);
    } else {
      FormatRoundTrip(n / 16);
      DigitRoundTrip(n % 16);
      var s := Format(n);
      assert s[..|s| - 1] == Format(n / 16);
    }
  }

  /** Distinct numbers are formatted differently. */
  lemma FormatInjective(m: nat, n: nat)
    requires m != n
    ensures Format(m) != Format(n)
  {
    FormatRoundTrip(m);
    FormatRoundTrip(n);
  }
}
