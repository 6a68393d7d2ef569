/**
 Decimal rendering of unsigned integers, as Rust's `Display` writes a `u16`
 inside `format!`: digits only, most significant first, no sign and no
 leading zero. `Value` and `ParseU16` read such a rendering back.
 */
module Decimal {

  import opened Options

  /** Rust's `u16`. */
  type U16 = n: nat | n < 0x1_0000

  predicate IsDigit(c: char) {
    '0' <= c <= '9'
  }

  predicate AllDigits(s: string) {
    forall i :: 0 <= i < |s| ==> IsDigit(s[i])
  }

  function DigitChar(d: nat): (c: char)
    requires d < 10
    ensures IsDigit(c)
  {
    ('0' as int + d) as char
  }

  function DigitValue(c: char): (d: nat)
    requires IsDigit(c)
    ensures d < 10 && DigitChar(d) == c
  {
    c as int - '0' as int
  }

  /** The number a string of decimal digits denotes. */
  function Value(s: string): nat
    requires AllDigits(s)
  {
    if |s| == 0 then 0 else 10 * Value(s[..|s| - 1]) + DigitValue(s[|s| - 1])
  }

  /** The decimal rendering of `n`. */
  function Format(n: nat): (r: string)
    ensures |r| > 0 && AllDigits(r) && Value(r) == n
    ensures r[0] == '0' ==> r == "0"
  {
    if n < 10 then [DigitChar(n)]
    else
      var prefix := Format(n / 10);
      var r := prefix + [DigitChar(n % 10)];
      assert r[..|r| - 1] == prefix;
      r
  }

  /** Reads a `u16` back from its decimal digits; `None` for anything that is
      not a non-empty digit string denoting a value below 2^16. */
  function ParseU16(s: string): (r: Option<U16>)
    ensures r.Some? ==> |s| > 0 && AllDigits(s) && Value(s) == r.value
  {
    if |s| > 0 && AllDigits(s) && Value(s) < 0x1_0000 then Some(Value(s)) else None
  }

  /** Every `u16` survives formatting and reading back. */
  lemma ParseFormat(n: U16)
    ensures ParseU16(Format(n)) == Some(n)
  {
  }

  /** Formatting never yields the characters that separate parts of a topic
      or a combined stream path. */
  lemma FormatHasNoSeparators(n: nat)
    ensures '@' !in Format(n) && '/' !in Format(n)
  {
  }

  /** Distinct numbers have distinct renderings. */
  lemma FormatInjective(m: nat, n: nat)
    requires Format(m) == Format(n)
    ensures m == n
  {
  }
}
