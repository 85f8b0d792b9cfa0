/**
 * Character classes used by the scanner in LexicalAnalyzer.analyze.
 *
 * `IsWhitespace` follows java.lang.Character.isWhitespace code point by code point.
 * `IsLetterOrDigit` is java.lang.Character.isLetterOrDigit restricted to ASCII.
 * `ToUpper` is String.toUpperCase on ASCII letters. It is only applied to words
 * that already passed the identifier pattern, so those are the only letters it meets.
 */
module Chars {

  predicate IsAsciiLetter(c: char) {
    'a' <= c <= 'z' || 'A' <= c <= 'Z'
  }

  predicate IsAsciiDigit(c: char) {
    '0' <= c <= '9'
  }

  /** Character.isLetterOrDigit, over ASCII. */
  predicate IsLetterOrDigit(c: char) {
    IsAsciiLetter(c) || IsAsciiDigit(c)
  }

  /** A character the word loop keeps consuming: a letter, a digit or '_'. */
  predicate IsWordChar(c: char) {
    IsLetterOrDigit(c) || c == '_'
  }

  /**
   * Character.isWhitespace. It covers the control characters U+0009..U+000D and
   * U+001C..U+001F, and the Unicode space, line and paragraph separators except
   * the no-break spaces U+00A0, U+2007 and U+202F.
   */
  predicate IsWhitespace(c: char) {
    var n := c as int;
    (0x09 <= n <= 0x0D) || (0x1C <= n <= 0x20) || n == 0x1680
    || (0x2000 <= n <= 0x2006) || (0x2008 <= n <= 0x200A)
    || n == 0x2028 || n == 0x2029 || n == 0x205F || n == 0x3000
  }

  function ToUpper(c: char): (u: char)
    ensures IsAsciiLetter(c) ==> 'A' <= u <= 'Z'
    ensures 'a' <= c <= 'z' ==> u as int - 'A' as int == c as int - 'a' as int
    ensures 'A' <= c <= 'Z' ==> u == c
    ensures !IsAsciiLetter(c) ==> u == c
  {
    if 'a' <= c <= 'z' then (c as int - 'a' as int + 'A' as int) as char else c
  }

  /** String.toUpperCase over ASCII, one character at a time. */
  function Upper(s: string): (u: string)
    ensures |u| == |s|
    ensures forall i :: 0 <= i < |s| ==> u[i] == ToUpper(s[i])
  {
    if s == [] then [] else [ToUpper(s[0])] + Upper(s[1..])
  }
}
