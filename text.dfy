/** String helpers shared by the model: prefixes, decimal rendering of `Int`, and `isBlank`. */
module Text {
  import opened Wrappers

  predicate StartsWith(s: string, prefix: string)
  {
    |prefix| <= |s| && s[..|prefix|] == prefix
  }

  predicate EndsWith(s: string, suffix: string)
  {
    |suffix| <= |s| && s[|s| - |suffix|..] == suffix
  }

  predicate IsDigit(c: char)
  {
    '0' <= c <= '9'
  }

  predicate IsDigits(s: string)
  {
    forall i :: 0 <= i < |s| ==> IsDigit(s[i])
  }

  function DigitChar(d: nat): (c: char)
    requires d < 10
    ensures IsDigit(c) && c as int - '0' as int == d
  {
    ('0' as int + d) as char
  }

  /** Decimal rendering of a natural number, most significant digit first, no leading zeros. */
  function NatToDecimal(n: nat): (s: string)
    ensures |s| > 0 && IsDigits(s)
    decreases n
  {
    if n < 10 then [DigitChar(n)] else NatToDecimal(n / 10) + [DigitChar(n % 10)]
  }

  /** Kotlin's rendering of an `Int` in a string template: an optional '-' and the decimal digits. */
  function IntToDecimal(n: int): (s: string)
    ensures |s| > 0
    ensures forall i :: 0 <= i < |s| ==> IsDigit(s[i]) || (i == 0 && s[i] == '-')
    ensures s[0] == '-' <==> n < 0
  {
    if n < 0 then "-" + NatToDecimal(-n) else NatToDecimal(n)
  }

  /** The value of a string of decimal digits. */
  function DigitsValue(s: string): nat
    requires IsDigits(s)
  {
    if s == [] then 0 else DigitsValue(s[..|s| - 1]) * 10 + (s[|s| - 1] as int - '0' as int)
  }

  /** Reads back what `IntToDecimal` writes; None for anything that is not an optional '-' and digits. */
  function ParseInt(s: string): Option<int>
  {
    if |s| > 0 && IsDigits(s) then Some(DigitsValue(s))
    else if |s| > 1 && s[0] == '-' && IsDigits(s[1..]) then Some(-(DigitsValue(s[1..]) as int))
    else None
  }

  lemma {:induction false} DigitsValueOfDecimal(n: nat)
    ensures DigitsValue(NatToDecimal(n)) == n
    decreases n
  {
    if n >= 10 {
      var s := NatToDecimal(n);
      assert s[..|s| - 1] == NatToDecimal(n / 10);
      DigitsValueOfDecimal(n / 10);
    }
  }

  /** Decimal rendering is invertible: parsing it gives the number back. */
  lemma ParseIntOfDecimal(n: int)
    ensures ParseInt(IntToDecimal(n)) == Some(n)
  {
    if n < 0 {
      var s := IntToDecimal(n);
      assert s[1..] == NatToDecimal(-n);
      assert !IsDigit(s[0]);
      DigitsValueOfDecimal(-n);
    } else {
      DigitsValueOfDecimal(n);
    }
  }

  /** The position of the first `c` in `s`, or `|s|` when there is none. */
  function IndexOf(s: string, c: char): (j: nat)
    ensures j <= |s| && (j < |s| ==> s[j] == c)
    ensures forall i :: 0 <= i < j ==> s[i] != c
  {
    if s == [] then 0 else if s[0] == c then 0 else 1 + IndexOf(s[1..], c)
  }

  /** A separator that is neither a digit nor '-' is first found right after a rendered number. */
  lemma DecimalThenSeparator(n: int, sep: char, rest: string)
    requires !IsDigit(sep) && sep != '-'
    ensures IndexOf(IntToDecimal(n) + [sep] + rest, sep) == |IntToDecimal(n)|
  {
    var digits := IntToDecimal(n);
    var s := digits + [sep] + rest;
    assert s[|digits|] == sep;
    assert forall i :: 0 <= i < |digits| ==> s[i] == digits[i] && digits[i] != sep;
  }

  /** A rendered number followed by such a separator determines both the number and what follows. */
  lemma DecimalThenSeparatorInjective(a: int, b: int, sep: char, x: string, y: string)
    requires !IsDigit(sep) && sep != '-'
    requires IntToDecimal(a) + [sep] + x == IntToDecimal(b) + [sep] + y
    ensures a == b && x == y
  {
    var s := IntToDecimal(a) + [sep] + x;
    DecimalThenSeparator(a, sep, x);
    DecimalThenSeparator(b, sep, y);
    assert s[..|IntToDecimal(a)|] == IntToDecimal(a);
    assert s[..|IntToDecimal(b)|] == IntToDecimal(b);
    ParseIntOfDecimal(a);
    ParseIntOfDecimal(b);
    assert x == s[|IntToDecimal(a)| + 1..];
    assert y == (IntToDecimal(b) + [sep] + y)[|IntToDecimal(b)| + 1..];
  }

  /**
   * Kotlin's `Char.isWhitespace()`: Java's `Character.isWhitespace` or `Character.isSpaceChar`,
   * i.e. the ASCII controls TAB, LF, VT, FF, CR, FS, GS, RS, US and every Unicode space, line and
   * paragraph separator.
   */
  predicate IsWhitespace(c: char)
  {
    || c == '\t' || c == '\n' || c == '\U{B}' || c == '\U{C}' || c == '\r'
    || ('\U{1C}' <= c <= '\U{1F}')
    || c == ' ' || c == '\U{A0}' || c == '\U{1680}'
    || ('\U{2000}' <= c <= '\U{200A}')
    || c == '\U{2028}' || c == '\U{2029}' || c == '\U{202F}' || c == '\U{205F}' || c == '\U{3000}'
  }

  /** Kotlin's `CharSequence.isBlank()`: empty or whitespace only. */
  predicate IsBlank(s: string)
  {
    forall i :: 0 <= i < |s| ==> IsWhitespace(s[i])
  }
}
