/**
 * Character classes and decimal digit strings shared by the input rules of
 * the manual-entry and sign-in forms and by the elapsed-time formatter.
 */
module Text {
  import opened Options

  /**
   * Kotlin's `Char.isWhitespace()` on the JVM: Java's `Character.isWhitespace`
   * (the ASCII controls TAB, LF, VT, FF, CR, FS, GS, RS, US and the space
   * separators other than the no-break spaces) or `Character.isSpaceChar`
   * (every space, line and paragraph separator, no-break spaces included).
   */
  predicate IsWhitespace(c: char) {
    || c == ' '
    || ('\t' <= c <= '\r')
    || ('\U{1C}' <= c <= '\U{1F}')
    || c == '\U{A0}'
    || c == '\U{1680}'
    || ('\U{2000}' <= c <= '\U{200A}')
    || c == '\U{2028}' || c == '\U{2029}'
    || c == '\U{202F}' || c == '\U{205F}' || c == '\U{3000}'
  }

  /**
   * `CharSequence.isBlank()`: empty, or whitespace only. Equivalently, read
   * from the front: empty, or a whitespace character followed by a blank rest.
   */
  predicate IsBlank(s: string): (b: bool)
    ensures b <==> s == [] || (IsWhitespace(s[0]) && IsBlank(s[1..]))
  {
    assert s != [] ==> forall i :: 1 <= i < |s| ==> s[1..][i - 1] == s[i];
    forall i :: 0 <= i < |s| ==> IsWhitespace(s[i])
  }

  /**
   * Kotlin's `String.length`: the number of UTF-16 code units, where a
   * character above U+FFFF takes two (a surrogate pair).
   */
  function Utf16Length(s: string): (n: nat)
    ensures |s| <= n <= 2 * |s|
    ensures (forall i :: 0 <= i < |s| ==> s[i] < '\U{10000}') ==> n == |s|
  {
    if s == [] then 0 else (if s[0] >= '\U{10000}' then 2 else 1) + Utf16Length(s[1..])
  }

  /** One character is one UTF-16 unit, or two when it lies above U+FFFF. */
  lemma Utf16OneChar(c: char)
    ensures Utf16Length([c]) == if c >= '\U{10000}' then 2 else 1
  {
    assert [c][1..] == [];
  }

  /** The UTF-16 length of a concatenation is the sum of the lengths. */
  lemma {:induction false} Utf16Additive(a: string, b: string)
    ensures Utf16Length(a + b) == Utf16Length(a) + Utf16Length(b)
  {
    if a != [] {
      assert (a + b)[1..] == a[1..] + b;
      Utf16Additive(a[1..], b);
    } else {
      assert a + b == b;
    }
  }

  /** `Char.isDigit()`, restricted to the ASCII digits. */
  predicate IsDigit(c: char) {
    '0' <= c <= '9'
  }

  predicate AllDigits(s: string) {
    forall i :: 0 <= i < |s| ==> IsDigit(s[i])
  }

  function DigitValue(c: char): (d: nat)
    requires IsDigit(c)
    ensures d < 10
  {
    (c as int - '0' as int) as nat
  }

  function DigitChar(d: nat): (c: char)
    requires d < 10
    ensures IsDigit(c) && DigitValue(c) == d
  {
    ('0' as int + d) as char
  }

  /** The value of a string of decimal digits, most significant first ("" is 0). */
  function DigitsValue(s: string): nat
    requires AllDigits(s)
  {
    if s == [] then 0 else DigitsValue(s[..|s| - 1]) * 10 + DigitValue(s[|s| - 1])
  }

  /** The decimal rendering of a natural number, without leading zeros. */
  function NatDigits(n: nat): (s: string)
    ensures 1 <= |s| && AllDigits(s)
    ensures n >= 10 <==> s[0] != '0' && |s| > 1
  {
    if n < 10 then [DigitChar(n)] else NatDigits(n / 10) + [DigitChar(n % 10)]
  }

  /** Reading a rendered number back gives the number. */
  lemma {:induction false} NatDigitsRoundTrip(n: nat)
    ensures DigitsValue(NatDigits(n)) == n
  {
    if n >= 10 {
      var s := NatDigits(n);
      assert s[..|s| - 1] == NatDigits(n / 10);
      NatDigitsRoundTrip(n / 10);
    }
  }

  /** A string of at most two digits reads as a value below 100. */
  lemma TwoDigitsBound(s: string)
    ensures AllDigits(s) && |s| <= 2 ==> DigitsValue(s) <= 99
  {
    if AllDigits(s) && |s| == 2 {
      assert s[..1][..0] == [];
    }
  }

  const IntMin: int := -0x8000_0000
  const IntMax: int := 0x7FFF_FFFF

  /**
   * Kotlin's `String.toIntOrNull()`: an optional leading '-' or '+' followed
   * by at least one digit, whose value fits a 32-bit `Int`; anything else,
   * the empty string included, is null.
   */
  function ToIntOrNull(s: string): (r: Option<int>)
    ensures r.Some? ==> IntMin <= r.value <= IntMax
    ensures AllDigits(s) && s != [] ==>
              r == if DigitsValue(s) <= IntMax then Some(DigitsValue(s)) else None
    ensures s == [] || (!IsDigit(s[0]) && s[0] != '-' && s[0] != '+') ==> r == None
  {
    if s == [] then None
    else if s[0] == '-' || s[0] == '+' then
      var digits := s[1..];
      if digits == [] || !AllDigits(digits) then None
      else
        var v: int := if s[0] == '-' then 0 - DigitsValue(digits) as int else DigitsValue(digits);
        if IntMin <= v <= IntMax then Some(v) else None
    else if AllDigits(s) && DigitsValue(s) <= IntMax then Some(DigitsValue(s))
    else None
  }
}
