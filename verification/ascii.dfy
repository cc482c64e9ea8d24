/** The string operations the delivered test relies on: ordinal ignore-case
    equality restricted to ASCII case mapping, and the decimal text of an integer
    (what JToken.ToString() prints for an integer token). */
module Ascii {

  /** Upper-case mapping of one character; only 'a'..'z' change. */
  function UpperAscii(c: char): char
  {
    if 'a' <= c <= 'z' then (c as int - 32) as char else c
  }

  /** String.Equals(a, b, StringComparison.OrdinalIgnoreCase) on ASCII text:
      equal lengths and equal characters after upper-casing each one. */
  predicate EqualsIgnoreCase(a: string, b: string)
  {
    |a| == |b| && forall i :: 0 <= i < |a| ==> UpperAscii(a[i]) == UpperAscii(b[i])
  }

  /** Characters an upper-case ASCII letter is equal to, ignoring case: exactly
      itself and its lower-case partner. */
  lemma UpperAsciiMatchesLetter(c: char, letter: char)
    requires 'A' <= letter <= 'Z'
    ensures UpperAscii(c) == letter <==> c == letter || c as int == letter as int + 32
  {
  }

  function DigitChar(d: nat): char
    requires d < 10
  {
    "0123456789"[d]
  }

  /** Decimal digits of a natural number, most significant first, no leading zeros. */
  function Digits(n: nat): (r: string)
    ensures 1 <= |r|
    ensures forall i :: 0 <= i < |r| ==> '0' <= r[i] <= '9'
    ensures n < 10 <==> |r| == 1
    decreases n
  {
    if n < 10 then [DigitChar(n)] else Digits(n / 10) + [DigitChar(n % 10)]
  }

  /** The text `JValue.ToString()` gives an integer token, which formats the
      Int64 in the current culture; the model assumes that culture's negative
      sign is '-' and its digits are '0' to '9'. */
  function DecimalText(n: int): (r: string)
    ensures 1 <= |r|
    ensures r[0] == '-' || '0' <= r[0] <= '9'
    ensures r[0] == '-' <==> n < 0
  {
    if n < 0 then "-" + Digits(-n) else Digits(n)
  }
}
