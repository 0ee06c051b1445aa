/** The few pieces of `java.lang` text handling the customer service relies on:
    `String.isBlank`, `Integer.toString` (what `%s` prints for an `Integer`) and the
    text form of `UUID.randomUUID()`. */
module JavaText {

  /** `Character.isWhitespace`: the ASCII controls it accepts, and the Unicode space,
      line and paragraph separators except the non-breaking ones. */
  predicate IsJavaWhitespace(c: char) {
    || c == ' ' || c == '\t' || c == '\n' || c == '\U{B}' || c == '\U{C}' || c == '\r'
    || ('\U{1C}' <= c <= '\U{1F}')
    || c == '\U{1680}'
    || ('\U{2000}' <= c <= '\U{2006}')
    || ('\U{2008}' <= c <= '\U{200A}')
    || c == '\U{2028}' || c == '\U{2029}' || c == '\U{205F}' || c == '\U{3000}'
  }

  /** `String.isBlank`: empty, or whitespace only. */
  predicate IsBlank(s: string)
    ensures s == [] ==> IsBlank(s)
    ensures IsBlank(s) <==> forall c :: c in s ==> IsJavaWhitespace(c)
  {
    forall i :: 0 <= i < |s| ==> IsJavaWhitespace(s[i])
  }

  predicate IsLowerHexDigit(c: char) {
    '0' <= c <= '9' || 'a' <= c <= 'f'
  }

  /** The shape of `UUID.toString()`: 8-4-4-4-12 lower-case hex digits. */
  predicate IsUuidText(s: string) {
    && |s| == 36
    && forall i :: 0 <= i < |s| ==>
         if i == 8 || i == 13 || i == 18 || i == 23 then s[i] == '-' else IsLowerHexDigit(s[i])
  }

  /** What `UUID.randomUUID().toString()` can return. */
  type UuidText = s: string | IsUuidText(s) witness "00000000-0000-0000-0000-000000000000"

  /** A generated image id always passes the download's `isBlank` test. */
  lemma UuidTextIsNotBlank(u: UuidText)
    ensures !IsBlank(u)
  {
    assert !IsJavaWhitespace(u[0]);
  }

  predicate IsDecimalDigit(c: char) {
    '0' <= c <= '9'
  }

  predicate AllDecimalDigits(s: string) {
    forall i :: 0 <= i < |s| ==> IsDecimalDigit(s[i])
  }

  function DigitValue(c: char): (d: nat)
    requires IsDecimalDigit(c)
    ensures d < 10
  {
    c as int - '0' as int
  }

  function DigitChar(d: nat): (c: char)
    requires d < 10
    ensures IsDecimalDigit(c) && DigitValue(c) == d
  {
    "0123456789"[d]
  }

  /** The decimal digits of `n`, most significant first, without leading zeros. */
  function NatToDecimal(n: nat): (s: string)
    ensures |s| > 0 && AllDecimalDigits(s)
    ensures n >= 10 ==> s[0] != '0'
  {
    if n < 10 then [DigitChar(n)] else NatToDecimal(n / 10) + [DigitChar(n % 10)]
  }

  /** `Integer.toString(i)`: a minus sign for negative values, then the digits. */
  function IntToDecimal(i: int): (s: string)
    ensures |s| > 0 && '/' !in s
    ensures s[0] == '-' <==> i < 0
  {
    if i < 0 then "-" + NatToDecimal(-i) else NatToDecimal(i)
  }

  /** Reads back a string of decimal digits; used only to show that printing loses nothing. */
  ghost function ParseNat(s: string): nat
    requires AllDecimalDigits(s)
  {
    if s == [] then 0 else 10 * ParseNat(s[..|s| - 1]) + DigitValue(s[|s| - 1])
  }

  ghost function ParseInt(s: string): int
    requires |s| > 0
    requires s[0] == '-' ==> AllDecimalDigits(s[1..])
    requires s[0] != '-' ==> AllDecimalDigits(s)
  {
    if s[0] == '-' then -(ParseNat(s[1..]) as int) else ParseNat(s)
  }

  lemma {:induction false} NatToDecimalRoundTrip(n: nat)
    ensures ParseNat(NatToDecimal(n)) == n
  {
    if n >= 10 {
      var s := NatToDecimal(n);
      assert s[..|s| - 1] == NatToDecimal(n / 10);
      NatToDecimalRoundTrip(n / 10);
    }
  }

  lemma IntToDecimalRoundTrip(i: int)
    ensures var s := IntToDecimal(i); AllDecimalDigits(s[1..]) && ParseInt(s) == i
  {
    var s := IntToDecimal(i);
    if i < 0 {
      assert s[1..] == NatToDecimal(-i);
      NatToDecimalRoundTrip(-i);
    } else {
      NatToDecimalRoundTrip(i);
    }
  }

  /** Distinct integers print differently. */
  lemma IntToDecimalInjective(a: int, b: int)
    requires IntToDecimal(a) == IntToDecimal(b)
    ensures a == b
  {
    IntToDecimalRoundTrip(a);
    IntToDecimalRoundTrip(b);
  }
}
