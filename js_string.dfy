/** The part of ECMAScript's String.prototype.trim that the page relies on:
    which characters count as white space, and stripping them from both ends.
    A character here is a Unicode scalar value. */
module JsString {

  /** WhiteSpace (ECMA-262, section 12.2) and LineTerminator (section 12.3):
      TAB, VT, FF, ZWNBSP, every code point of category Zs, and LF, CR,
      LINE SEPARATOR, PARAGRAPH SEPARATOR. */
  predicate IsWhitespace(c: char) {
    // WhiteSpace, outside Zs
    || c == '\t' || c == '\U{000B}' || c == '\U{000C}' || c == '\U{FEFF}'
    // WhiteSpace, category Zs
    || c == ' ' || c == '\U{00A0}' || c == '\U{1680}'
    || ('\U{2000}' <= c <= '\U{200A}')
    || c == '\U{202F}' || c == '\U{205F}' || c == '\U{3000}'
    // LineTerminator
    || c == '\n' || c == '\r' || c == '\U{2028}' || c == '\U{2029}'
  }

  /** Every character of s is white space (so also the empty string). */
  predicate IsBlank(s: string) {
    forall i :: 0 <= i < |s| ==> IsWhitespace(s[i])
  }

  /** Drops the white space at the front of s: what is left is the end of
      s from its first character that is not white space on. */
  function TrimStart(s: string): (r: string)
    ensures |r| <= |s| && r == s[|s| - |r|..]
    ensures forall i :: 0 <= i < |s| - |r| ==> IsWhitespace(s[i])
    ensures r == [] || !IsWhitespace(r[0])
  {
    if |s| > 0 && IsWhitespace(s[0]) then
      var r := TrimStart(s[1..]);
      assert forall i :: 1 <= i < |s| - |r| ==> s[i] == s[1..][i - 1];
      r
    else
      s
  }

  /** Drops the white space at the end of s: what is left is the start of s
      up to its last character that is not white space. */
  function TrimEnd(s: string): (r: string)
    ensures |r| <= |s| && r == s[..|r|]
    ensures forall i :: |r| <= i < |s| ==> IsWhitespace(s[i])
    ensures r == [] || !IsWhitespace(r[|r| - 1])
  {
    if |s| > 0 && IsWhitespace(s[|s| - 1]) then
      var r := TrimEnd(s[..|s| - 1]);
      assert forall i :: |r| <= i < |s| - 1 ==> s[i] == s[..|s| - 1][i];
      r
    else
      s
  }

  /** String.prototype.trim: white space dropped at both ends.  What is left
      is a slice of s that neither starts nor ends with white space. */
  function Trim(s: string): (r: string)
    ensures |r| <= |s|
    ensures r != [] ==> !IsWhitespace(r[0]) && !IsWhitespace(r[|r| - 1])
    ensures exists a {:trigger s[a..]} :: 0 <= a <= |s| - |r| && r == s[a..][..|r|] && IsBlank(s[..a]) && IsBlank(s[a..][|r|..])
  {
    var t := TrimStart(s);
    var r := TrimEnd(t);
    var a := |s| - |t|;
    assert t == s[a..];
    assert IsBlank(s[..a]);
    assert IsBlank(t[|r|..]);
    r
  }

  /** Trimming leaves nothing exactly when the string is blank; this is the
      test `s.trim() === ""` in terms of the characters of s. */
  lemma TrimEmptyIffBlank(s: string)
    ensures Trim(s) == [] <==> IsBlank(s)
  {
  }

  /** The run-time test `s.trim() === ""`. */
  method TrimsToEmpty(s: string) returns (empty: bool)
    ensures empty <==> IsBlank(s)
  {
    empty := Trim(s) == "";
    TrimEmptyIffBlank(s);
  }
}
