/**
 * String helpers the screens and routes rely on: Kotlin's `isBlank`, the decimal
 * form that a string template gives an `Int`, and placeholder substitution in a
 * route template.
 */
module Text {

  /** Kotlin/JVM `Char.isWhitespace()`: `Character.isWhitespace(c) || Character.isSpaceChar(c)`. */
  function IsWhitespace(c: char): (b: bool)
    ensures c == ' ' || c == '\t' || c == '\n' || c == '\r' || c == '\U{00A0}' ==> b
    ensures '!' <= c <= '~' ==> !b
    ensures b ==> c <= '\U{3000}'
  {
    || ('\U{0009}' <= c <= '\U{000D}')
    || ('\U{001C}' <= c <= '\U{0020}')
    || c == '\U{00A0}' || c == '\U{1680}'
    || ('\U{2000}' <= c <= '\U{200A}')
    || c == '\U{2028}' || c == '\U{2029}' || c == '\U{202F}' || c == '\U{205F}'
    || c == '\U{3000}'
  }

  /** Kotlin `CharSequence.isBlank()`: empty, or whitespace only. */
  function IsBlank(s: string): (b: bool)
    ensures s == [] ==> b
    ensures (exists i :: 0 <= i < |s| && '!' <= s[i] <= '~') ==> !b
  {
    forall i :: 0 <= i < |s| ==> IsWhitespace(s[i])
  }

  predicate IsDigit(c: char)
  {
    '0' <= c <= '9'
  }

  function DigitChar(d: nat): (c: char)
    requires d < 10
    ensures IsDigit(c) && c as int - '0' as int == d
  {
    (('0' as int) + d) as char
  }

  /** The decimal form of a natural number: digits only, no leading zero. */
  function NatToString(n: nat): (r: string)
    ensures 1 <= |r|
    ensures forall i :: 0 <= i < |r| ==> IsDigit(r[i])
    ensures r[0] == '0' ==> n == 0 && r == "0"
    decreases n
  {
    if n < 10 then [DigitChar(n)] else NatToString(n / 10) + [DigitChar(n % 10)]
  }

  /** The decimal form of an `Int` in a Kotlin string template (`"$id"`): a `-` sign for negatives. */
  function IntToString(i: int): (r: string)
    ensures 1 <= |r|
    ensures r[0] == '-' <==> i < 0
    ensures r[0] == '0' ==> r == "0"
    ensures i < 0 ==> 2 <= |r| && r[1] != '0'
    ensures 0 <= i ==> IsDigit(r[0])
    ensures forall k :: 0 < k < |r| ==> IsDigit(r[k])
    ensures IsDigit(r[|r| - 1])
  {
    if i < 0 then "-" + NatToString(-i) else NatToString(i)
  }

  /** Reads a string of digits as a number; the inverse of NatToString. */
  function DigitsValue(s: string): int
  {
    if s == [] then 0 else DigitsValue(s[..|s| - 1]) * 10 + (s[|s| - 1] as int - '0' as int)
  }

  /** Reads an optionally signed decimal; the inverse of IntToString. */
  function ParseInt(s: string): int
  {
    if 0 < |s| && s[0] == '-' then -DigitsValue(s[1..]) else DigitsValue(s)
  }

  lemma {:induction false} NatToStringRoundTrip(n: nat)
    ensures DigitsValue(NatToString(n)) == n
    decreases n
  {
    var r := NatToString(n);
    if n < 10 {
      assert r[..|r| - 1] == [];
    } else {
      var prefix := NatToString(n / 10);
      assert r[..|r| - 1] == prefix;
      NatToStringRoundTrip(n / 10);
    }
  }

  lemma {:induction false} IntToStringRoundTrip(i: int)
    ensures ParseInt(IntToString(i)) == i
  {
    if i < 0 {
      assert IntToString(i)[1..] == NatToString(-i);
      NatToStringRoundTrip(-i);
    } else {
      NatToStringRoundTrip(i);
    }
  }

  /** Distinct numbers have distinct decimal forms. */
  lemma {:induction false} IntToStringInjective(a: int, b: int)
    ensures IntToString(a) == IntToString(b) ==> a == b
  {
    IntToStringRoundTrip(a);
    IntToStringRoundTrip(b);
  }

  /**
   * Every occurrence of `pattern` in `s`, scanned left to right without overlap,
   * replaced by `replacement` (Kotlin `String.replace` for a non-empty pattern).
   */
  function Replace(s: string, pattern: string, replacement: string): string
    requires 0 < |pattern|
    decreases |s|
  {
    if |s| < |pattern| then s
    else if s[..|pattern|] == pattern then replacement + Replace(s[|pattern|..], pattern, replacement)
    else [s[0]] + Replace(s[1..], pattern, replacement)
  }

  /** Filling a template whose only placeholder sits at its end, after text without the placeholder's first character. */
  lemma {:induction false} ReplaceAfterPlainPrefix(prefix: string, pattern: string, replacement: string)
    requires 0 < |pattern|
    requires forall i :: 0 <= i < |prefix| ==> prefix[i] != pattern[0]
    ensures Replace(prefix + pattern, pattern, replacement) == prefix + replacement
    decreases |prefix|
  {
    var s := prefix + pattern;
    if prefix == [] {
      assert s == pattern;
      assert s[|pattern|..] == [];
    } else {
      assert s[0] == prefix[0] != pattern[0];
      assert s[..|pattern|] != pattern by {
        assert s[..|pattern|][0] == s[0];
      }
      var rest := prefix[1..];
      assert s[1..] == rest + pattern;
      ReplaceAfterPlainPrefix(rest, pattern, replacement);
      calc {
        Replace(s, pattern, replacement);
        [s[0]] + Replace(s[1..], pattern, replacement);
        [prefix[0]] + (rest + replacement);
        { assert [prefix[0]] + rest == prefix; }
        prefix + replacement;
      }
    }
  }
}
