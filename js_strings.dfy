/**
 * The JavaScript string built-ins the page relies on: `String.prototype.repeat`
 * for a one-character string, and `String.prototype.trim`.
 */
module JsStrings {

  /** `c.repeat(n)`: the string made of `n` copies of `c`. */
  function Repeat(c: char, n: nat): (r: string)
    ensures |r| == n
    ensures forall i :: 0 <= i < n ==> r[i] == c
  {
    if n == 0 then [] else [c] + Repeat(c, n - 1)
  }

  /**
   * The code points ECMAScript's `trim` strips: the WhiteSpace production
   * (TAB, VT, FF, ZWNBSP and every space separator of category Zs) and the
   * LineTerminator production (LF, CR, LINE SEPARATOR, PARAGRAPH SEPARATOR).
   */
  predicate IsWhiteSpace(c: char) {
    c == '\t' || c == '\U{000B}' || c == '\U{000C}' || c == '\U{FEFF}'
    || c == ' ' || c == '\U{00A0}' || c == '\U{1680}' || ('\U{2000}' <= c <= '\U{200A}')
    || c == '\U{202F}' || c == '\U{205F}' || c == '\U{3000}'
    || c == '\n' || c == '\r' || c == '\U{2028}' || c == '\U{2029}'
  }

  /** Every character of `s` is white space (vacuously so for `""`). */
  predicate IsBlank(s: string) {
    forall i :: 0 <= i < |s| ==> IsWhiteSpace(s[i])
  }

  /** Drops the longest white-space prefix: the result is a suffix of `s`. */
  function TrimStart(s: string): (r: string)
    ensures |r| <= |s| && r == s[|s| - |r|..]
    ensures forall i :: 0 <= i < |s| - |r| ==> IsWhiteSpace(s[i])
    ensures r == [] || !IsWhiteSpace(r[0])
  {
    if s != [] && IsWhiteSpace(s[0]) then TrimStart(s[1..]) else s
  }

  /** Drops the longest white-space suffix: the result is a prefix of `s`. */
  function TrimEnd(s: string): (r: string)
    ensures |r| <= |s| && r == s[..|r|]
    ensures forall i :: |r| <= i < |s| ==> IsWhiteSpace(s[i])
    ensures r == [] || !IsWhiteSpace(r[|r| - 1])
  {
    if s != [] && IsWhiteSpace(s[|s| - 1]) then TrimEnd(s[..|s| - 1]) else s
  }

  /**
   * `s.trim()`: `s` with its white-space prefix and suffix removed, so the
   * result is a slice of `s`, everything outside it is white space, and
   * neither end of the result is white space.
   */
  function Trim(s: string): (r: string)
    ensures exists k :: 0 <= k <= |s| - |r| && r == s[k..k + |r|] && IsBlank(s[..k]) && IsBlank(s[k + |r|..])
    ensures r == [] || (!IsWhiteSpace(r[0]) && !IsWhiteSpace(r[|r| - 1]))
  {
    var t := TrimStart(s);
    var k := |s| - |t|;
    var r := TrimEnd(t);
    assert r == s[k..k + |r|] && IsBlank(s[..k]) && IsBlank(s[k + |r|..]);
    r
  }

  /** `!s.trim()` holds exactly for the strings made only of white space. */
  predicate TrimsToEmpty(s: string)
    ensures TrimsToEmpty(s) <==> IsBlank(s)
  {
    Trim(s) == []
  }
}
