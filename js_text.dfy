/**
 * The pieces of JavaScript string semantics the input rules depend on:
 * the `\s` character class of regular expressions and the UTF-16 `length`
 * of a string. A Dafny `char` is one Unicode scalar value; JavaScript
 * counts UTF-16 code units, so characters beyond the Basic Multilingual
 * Plane count twice.
 */
module JsText {

  /**
   * `\s` in a JavaScript regular expression: the ECMAScript WhiteSpace
   * characters (tab, vertical tab, form feed, the byte order mark and
   * every Unicode space separator) and the LineTerminator characters.
   */
  predicate IsWs(c: char): (b: bool)
    ensures b ==> c != '@' && c != '.'
    ensures c == ' ' || c == '\t' || c == '\n' || c == '\r' ==> b
    ensures 'a' <= c <= 'z' || 'A' <= c <= 'Z' || '0' <= c <= '9' ==> !b
  {
    var n := c as int;
    n == 0x09 || n == 0x0A || n == 0x0B || n == 0x0C || n == 0x0D
    || n == 0x20 || n == 0xA0 || n == 0x1680
    || (0x2000 <= n <= 0x200A)
    || n == 0x2028 || n == 0x2029 || n == 0x202F || n == 0x205F
    || n == 0x3000 || n == 0xFEFF
  }

  /** Code units one character takes in UTF-16. */
  function CodeUnits(c: char): (n: nat)
    ensures 1 <= n <= 2
  {
    if c as int >= 0x1_0000 then 2 else 1
  }

  /**
   * JavaScript `s.length`: the number of UTF-16 code units, at least one
   * and at most two per character.
   */
  function Utf16Length(s: string): (n: nat)
    ensures |s| <= n <= 2 * |s|
  {
    if s == [] then 0 else CodeUnits(s[0]) + Utf16Length(s[1..])
  }

  /** A string is falsy (`!s`) exactly when its length is zero. */
  lemma EmptyIffNoCodeUnits(s: string)
    ensures Utf16Length(s) == 0 <==> s == []
  {
  }
}
