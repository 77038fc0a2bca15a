/**
 * The two JavaScript number conversions the block code uses: turning a slot
 * index into text (`'element' + i`) and `parseInt` on the text typed into the
 * arity prompt.
 */
module JsNumber {
  import opened Wrappers

  predicate IsDigit(c: char) { '0' <= c <= '9' }

  predicate AllDigits(s: string) { forall i :: 0 <= i < |s| ==> IsDigit(s[i]) }

  function DigitValue(c: char): nat
    requires IsDigit(c)
  {
    c as int - '0' as int
  }

  function DigitChar(d: nat): (c: char)
    requires d < 10
    ensures IsDigit(c) && DigitValue(c) == d
  {
    ('0' as int + d) as char
  }

  /** `String(n)` for a non-negative integer: its decimal digits, without leading zeros. */
  function ToString(n: nat): (s: string)
    ensures |s| > 0 && AllDigits(s)
    ensures s[0] == '0' ==> n == 0
  {
    if n < 10 then [DigitChar(n)] else ToString(n / 10) + [DigitChar(n % 10)]
  }

  /** The number a string of decimal digits denotes. */
  function DecimalValue(s: string): nat
    requires AllDigits(s)
  {
    if s == [] then 0 else DecimalValue(s[..|s| - 1]) * 10 + DigitValue(s[|s| - 1])
  }

  lemma {:induction false} DecimalValueOfToString(n: nat)
    ensures DecimalValue(ToString(n)) == n
  {
    if n >= 10 {
      var s := ToString(n);
      assert s[..|s| - 1] == ToString(n / 10);
      DecimalValueOfToString(n / 10);
    }
  }

  /** Distinct indices have distinct decimal texts. */
  lemma ToStringInjective(m: nat, n: nat)
    requires ToString(m) == ToString(n)
    ensures m == n
  {
    DecimalValueOfToString(m);
    DecimalValueOfToString(n);
  }

  predicate IsHexDigit(c: char)
  {
    IsDigit(c) || 'a' <= c <= 'f' || 'A' <= c <= 'F'
  }

  function HexDigitValue(c: char): (v: nat)
    requires IsHexDigit(c)
    ensures v < 16
  {
    if IsDigit(c) then DigitValue(c)
    else if 'a' <= c <= 'f' then c as int - 'a' as int + 10
    else c as int - 'A' as int + 10
  }

  function HexValue(s: string): nat
    requires forall i :: 0 <= i < |s| ==> IsHexDigit(s[i])
  {
    if s == [] then 0 else HexValue(s[..|s| - 1]) * 16 + HexDigitValue(s[|s| - 1])
  }

  /** The longest prefix of `s` made of decimal digits. */
  function LeadingDigits(s: string): (d: string)
    ensures AllDigits(d) && d <= s
    ensures |d| < |s| ==> !IsDigit(s[|d|])
  {
    if s == [] || !IsDigit(s[0]) then [] else [s[0]] + LeadingDigits(s[1..])
  }

  /** The longest prefix of `s` made of hexadecimal digits. */
  function LeadingHexDigits(s: string): (d: string)
    ensures (forall i :: 0 <= i < |d| ==> IsHexDigit(d[i])) && d <= s
    ensures |d| < |s| ==> !IsHexDigit(s[|d|])
  {
    if s == [] || !IsHexDigit(s[0]) then [] else [s[0]] + LeadingHexDigits(s[1..])
  }

  /**
   * Without a radix, `parseInt` reads a `0x` or `0X` prefix as a switch to base 16.
   */
  predicate HasHexPrefix(s: string)
  {
    |s| >= 2 && s[0] == '0' && (s[1] == 'x' || s[1] == 'X')
  }

  /**
   * `parseInt(s)` with no radix, for a text whose first character is a decimal
   * digit (so no leading white space or sign is skipped). `None` is NaN: it is
   * the result exactly when a hexadecimal prefix is followed by no hexadecimal digit.
   */
  function ParseInt(s: string): (r: Option<nat>)
    requires |s| > 0 && IsDigit(s[0])
    ensures r.None? <==> HasHexPrefix(s) && LeadingHexDigits(s[2..]) == []
    ensures !HasHexPrefix(s) ==> r == Some(DecimalValue(LeadingDigits(s)))
  {
    if HasHexPrefix(s) then
      var h := LeadingHexDigits(s[2..]);
      if h == [] then None else Some(HexValue(h))
    else
      Some(DecimalValue(LeadingDigits(s)))
  }

  lemma {:induction false} LeadingDigitsOf(d: string, rest: string)
    requires AllDigits(d)
    requires rest == [] || !IsDigit(rest[0])
    ensures LeadingDigits(d + rest) == d
  {
    if d != [] {
      assert (d + rest)[1..] == d[1..] + rest;
      LeadingDigitsOf(d[1..], rest);
    } else {
      assert d + rest == rest;
    }
  }

  /**
   * `parseInt` reads back the decimal text of `n`, whatever non-digit text
   * follows it, unless that turns a lone `0` into a hexadecimal prefix.
   */
  lemma ParseIntLeadingNumber(n: nat, rest: string)
    requires rest == [] || !IsDigit(rest[0])
    requires n == 0 && rest != [] ==> rest[0] != 'x' && rest[0] != 'X'
    ensures ParseInt(ToString(n) + rest) == Some(n)
  {
    var s := ToString(n) + rest;
    assert s[0] == ToString(n)[0];
    if n == 0 && rest != [] {
      assert |ToString(0)| == 1;
      assert s[1] == rest[0];
    }
    LeadingDigitsOf(ToString(n), rest);
    DecimalValueOfToString(n);
  }

  /** `parseInt(String(n)) == n`. */
  lemma ParseIntToString(n: nat)
    ensures ParseInt(ToString(n)) == Some(n)
  {
    ParseIntLeadingNumber(n, []);
    assert ToString(n) + [] == ToString(n);
  }
}
