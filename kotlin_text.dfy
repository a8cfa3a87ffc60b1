/** The Kotlin string predicates and conversions the reducers' validation
    rules rest on, for the JVM. */
module KotlinText {
  import opened Common

  const IntMin: int := -0x8000_0000
  const IntMax: int := 0x7fff_ffff

  /** `Char.isWhitespace()`: Java's `Character.isWhitespace` or
      `Character.isSpaceChar`, i.e. the control characters tab to carriage
      return and the four separators 0x1C-0x1F, or a character of the Unicode
      space, line or paragraph separator categories. */
  predicate IsWhitespace(c: char) {
    var n := c as int;
    (9 <= n <= 13) || (28 <= n <= 32) || n == 0xA0 || n == 0x1680
    || (0x2000 <= n <= 0x200A) || n == 0x2028 || n == 0x2029 || n == 0x202F
    || n == 0x205F || n == 0x3000
  }

  /** `CharSequence.isBlank()`: every character is whitespace. The empty
      string is blank; a string that starts with a non-whitespace character,
      or holds a digit, is not. */
  function IsBlank(s: string): (blank: bool)
    ensures |s| == 0 ==> blank
    ensures |s| > 0 && !IsWhitespace(s[0]) ==> !blank
    ensures blank ==> forall i :: 0 <= i < |s| ==> !IsDigit(s[i])
  {
    forall i :: 0 <= i < |s| ==> IsWhitespace(s[i])
  }

  predicate IsDigit(c: char) {
    '0' <= c <= '9'
  }

  predicate AllDigits(s: string) {
    forall i :: 0 <= i < |s| ==> IsDigit(s[i])
  }

  function DigitValue(c: char): nat
    requires IsDigit(c)
  {
    c as int - '0' as int
  }

  /** The value of a string of decimal digits, most significant first. */
  function DigitsValue(s: string): nat
    requires AllDigits(s)
  {
    if |s| == 0 then 0 else DigitsValue(s[..|s| - 1]) * 10 + DigitValue(s[|s| - 1])
  }

  /** `String.toIntOrNull()`: an optional `-` or `+`, then one or more decimal
      digits (leading zeros allowed) whose value lies in the 32-bit signed
      range; anything else gives `null`. */
  function ToIntOrNull(s: string): (r: Option<int>)
    ensures r.Some? ==> IntMin <= r.value <= IntMax
  {
    if |s| == 0 then None
    else
      var signed := s[0] == '-' || s[0] == '+';
      var digits := if signed then s[1..] else s;
      if |digits| == 0 || !AllDigits(digits) then None
      else
        var magnitude: int := DigitsValue(digits);
        var v := if s[0] == '-' then -magnitude else magnitude;
        if IntMin <= v <= IntMax then Some(v) else None
  }

  /** A string that `toIntOrNull` accepts is never blank: it holds a digit. */
  lemma ParsedIsNotBlank(s: string)
    requires ToIntOrNull(s).Some?
    ensures !IsBlank(s)
  {
    var k := if s[0] == '-' || s[0] == '+' then 1 else 0;
    assert IsDigit(s[k]);
  }

  function DigitChar(d: nat): char
    requires d < 10
  {
    ('0' as int + d) as char
  }

  /** The decimal digits of `n`, without leading zeros. */
  function DecimalDigits(n: nat): string
  {
    if n < 10 then [DigitChar(n)] else DecimalDigits(n / 10) + [DigitChar(n % 10)]
  }

  /** `Int.toString()`: a `-` for negative values, then the digits of the
      magnitude. */
  function IntToString(n: int): string
  {
    if n < 0 then "-" + DecimalDigits(-n) else DecimalDigits(n)
  }

  lemma {:induction false} DecimalDigitsValue(n: nat)
    ensures |DecimalDigits(n)| > 0 && AllDigits(DecimalDigits(n))
    ensures DigitsValue(DecimalDigits(n)) == n
  {
    var s := DecimalDigits(n);
    if n >= 10 {
      DecimalDigitsValue(n / 10);
      assert s[..|s| - 1] == DecimalDigits(n / 10);
    }
  }

  /** `toIntOrNull` reads back every 32-bit value `toString` writes. */
  lemma IntToStringRoundTrip(n: int)
    requires IntMin <= n <= IntMax
    ensures ToIntOrNull(IntToString(n)) == Some(n)
  {
    if n < 0 {
      DecimalDigitsValue(-n);
      assert IntToString(n)[1..] == DecimalDigits(-n);
    } else {
      DecimalDigitsValue(n);
    }
  }
}
