/**
 * The part of ECMAScript string semantics the forms rely on:
 * `String.prototype.trim` (required-field checks) and `trimStart` (which
 * `parseInt` and `parseFloat` apply before scanning).  Characters are
 * Unicode scalar values.
 */
module JsStrings {

  /** The WhiteSpace and LineTerminator code points of ECMAScript: exactly what `trim` removes. */
  predicate IsJsWhitespace(c: char) {
    || c == '\t' || c == '\n' || c == '\U{000B}' || c == '\U{000C}' || c == '\r' || c == ' '
    || c == '\U{00A0}' || c == '\U{1680}' || ('\U{2000}' <= c <= '\U{200A}')
    || c == '\U{2028}' || c == '\U{2029}' || c == '\U{202F}' || c == '\U{205F}'
    || c == '\U{3000}' || c == '\U{FEFF}'
  }

  predicate AllWhitespace(s: string) {
    forall i :: 0 <= i < |s| ==> IsJsWhitespace(s[i])
  }

  /** How many whitespace characters `s` starts with. */
  function LeadingWhitespace(s: string): (n: nat)
    ensures n <= |s|
    ensures forall i :: 0 <= i < n ==> IsJsWhitespace(s[i])
    ensures n < |s| ==> !IsJsWhitespace(s[n])
  {
    if s != [] && IsJsWhitespace(s[0]) then 1 + LeadingWhitespace(s[1..]) else 0
  }

  /** How many whitespace characters `s` ends with. */
  function TrailingWhitespace(s: string): (n: nat)
    ensures n <= |s|
    ensures forall i :: |s| - n <= i < |s| ==> IsJsWhitespace(s[i])
    ensures n < |s| ==> !IsJsWhitespace(s[|s| - 1 - n])
  {
    if s != [] && IsJsWhitespace(s[|s| - 1]) then 1 + TrailingWhitespace(s[..|s| - 1]) else 0
  }

  /**
   * `s.trimStart()`: `s` without its leading whitespace.  Only whitespace is
   * removed, the result does not start with whitespace, and it is empty
   * exactly when `s` is blank.
   */
  function TrimStart(s: string): (r: string)
    ensures |r| <= |s| && r == s[|s| - |r|..]
    ensures AllWhitespace(s[..|s| - |r|])
    ensures r == [] || !IsJsWhitespace(r[0])
    ensures r == [] <==> AllWhitespace(s)
  {
    s[LeadingWhitespace(s)..]
  }

  /** `s.trimEnd()` */
  function TrimEnd(s: string): string {
    s[..|s| - TrailingWhitespace(s)]
  }

  /**
   * `s.trim()`: the part of `s` after its leading whitespace and before its
   * trailing whitespace.  Neither end of the result is whitespace, all that
   * follows it is whitespace, and it is empty exactly when every character
   * of `s` is whitespace.
   */
  function Trim(s: string): (r: string)
    ensures var k := LeadingWhitespace(s); k + |r| <= |s| && r == s[k..k + |r|]
    ensures AllWhitespace(s[LeadingWhitespace(s) + |r|..])
    ensures r == [] || (!IsJsWhitespace(r[0]) && !IsJsWhitespace(r[|r| - 1]))
    ensures r == [] <==> AllWhitespace(s)
  {
    var k := LeadingWhitespace(s);
    var r := TrimEnd(s[k..]);
    assert r == s[k..k + |r|];
    assert r != [] ==> r[0] == s[k];
    assert s[k + |r|..] == s[k..][|s[k..]| - TrailingWhitespace(s[k..])..];
    r
  }

  /** Text that neither starts nor ends with whitespace is left alone by the trims. */
  lemma {:induction false} TrimOfUnpadded(s: string)
    requires s == [] || (!IsJsWhitespace(s[0]) && !IsJsWhitespace(s[|s| - 1]))
    ensures TrimStart(s) == s && Trim(s) == s
  {
    assert LeadingWhitespace(s) == 0;
    assert s[0..] == s;
    assert TrailingWhitespace(s) == 0;
    assert s[..|s|] == s;
    assert TrimEnd(s) == s;
  }
}
