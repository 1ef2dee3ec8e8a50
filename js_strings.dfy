/**
 * The parts of JavaScript string semantics that the handlers rely on:
 * `String.prototype.trim` (used by the dashboard's blank-title guards) and
 * the truthiness of a string (used by the server's partial update).
 */
module JsStrings {

  /** ECMAScript WhiteSpace and LineTerminator code points, the set `trim` removes. */
  predicate IsWhiteSpace(c: char) {
    || c == '\t' || c == '\n' || c == '\U{B}' || c == '\U{C}' || c == '\r'
    || c == ' ' || c == '\U{A0}' || c == '\U{1680}'
    || ('\U{2000}' <= c <= '\U{200A}')
    || c == '\U{2028}' || c == '\U{2029}' || c == '\U{202F}' || c == '\U{205F}'
    || c == '\U{3000}' || c == '\U{FEFF}'
  }

  /** A JavaScript string is truthy exactly when it is not empty. */
  predicate Truthy(s: string) {
    |s| != 0
  }

  /** Where the text starts: the first index from `i` on that is not white space, or `|s|`. */
  function StartIndex(s: string, i: nat): (a: nat)
    requires i <= |s|
    requires forall k :: 0 <= k < i ==> IsWhiteSpace(s[k])
    ensures i <= a <= |s|
    ensures forall k :: 0 <= k < a ==> IsWhiteSpace(s[k])
    ensures a == |s| || !IsWhiteSpace(s[a])
    decreases |s| - i
  {
    if i < |s| && IsWhiteSpace(s[i]) then StartIndex(s, i + 1) else i
  }

  /** Where the text ends: one past the last index below `j` and from `a` on that is not white space, or `a`. */
  function EndIndex(s: string, a: nat, j: nat): (b: nat)
    requires a <= j <= |s|
    requires forall k :: j <= k < |s| ==> IsWhiteSpace(s[k])
    ensures a <= b <= j
    ensures forall k :: b <= k < |s| ==> IsWhiteSpace(s[k])
    ensures b == a || !IsWhiteSpace(s[b - 1])
    decreases j - a
  {
    if j > a && IsWhiteSpace(s[j - 1]) then EndIndex(s, a, j - 1) else j
  }

  /** `s.trim()`: the slice between the leading and the trailing white space. */
  function Trim(s: string): (t: string)
    ensures |t| <= |s|
    ensures t == [] || (!IsWhiteSpace(t[0]) && !IsWhiteSpace(t[|t| - 1]))
    ensures exists a, b :: 0 <= a <= b <= |s| && t == s[a..b]
              && (forall i :: 0 <= i < a ==> IsWhiteSpace(s[i]))
              && (forall i :: b <= i < |s| ==> IsWhiteSpace(s[i]))
  {
    var a := StartIndex(s, 0);
    var b := EndIndex(s, a, |s|);
    s[a..b]
  }

  /** `!s.trim()`: the guard the dashboard uses to refuse a title. */
  predicate IsBlank(s: string) {
    !Truthy(Trim(s))
  }

  /** A string trims to "" exactly when every character of it is white space. */
  lemma BlankIffAllWhiteSpace(s: string)
    ensures IsBlank(s) <==> forall i :: 0 <= i < |s| ==> IsWhiteSpace(s[i])
  {
  }

  /** A title that passes the blank guard is truthy, so the server's update applies it. */
  lemma NotBlankIsTruthy(s: string)
    requires !IsBlank(s)
    ensures Truthy(s)
  {
  }
}
