/**
 * `String.prototype.trim` and the blank test `!s.trim()` used by the
 * comment box.
 */
module JsText {

  /**
   * The characters `trim` strips: ECMAScript WhiteSpace (tab, vertical
   * tab, form feed, space, no-break space, zero-width no-break space and
   * the Unicode space separators) and LineTerminator (LF, CR, U+2028,
   * U+2029).
   */
  predicate IsWhitespace(c: char)
  {
    c == '\t' || c == '\n' || c == '\U{B}' || c == '\U{C}' || c == '\r' ||
    c == ' ' || c == '\U{A0}' || c == '\U{1680}' ||
    ('\U{2000}' <= c <= '\U{200A}') ||
    c == '\U{2028}' || c == '\U{2029}' || c == '\U{202F}' || c == '\U{205F}' ||
    c == '\U{3000}' || c == '\U{FEFF}'
  }

  /**
   * Every character of `s` is whitespace. By `BlankIffTrimEmpty` this is
   * exactly the test `!s.trim()`: the trimmed string is "", hence falsy.
   */
  predicate IsBlank(s: string)
  {
    forall i :: 0 <= i < |s| ==> IsWhitespace(s[i])
  }

  /** `s` without its leading whitespace: the longest suffix not starting with whitespace. */
  function TrimStart(s: string): (r: string)
    ensures |r| <= |s| && r == s[|s| - |r|..]
    ensures forall i :: 0 <= i < |s| - |r| ==> IsWhitespace(s[i])
    ensures r != [] ==> !IsWhitespace(r[0])
  {
    if s != [] && IsWhitespace(s[0]) then TrimStart(s[1..]) else s
  }

  /** `s` without its trailing whitespace: the longest prefix not ending with whitespace. */
  function TrimEnd(s: string): (r: string)
    ensures |r| <= |s| && r == s[..|r|]
    ensures forall i :: |r| <= i < |s| ==> IsWhitespace(s[i])
    ensures r != [] ==> !IsWhitespace(r[|r| - 1])
  {
    if s != [] && IsWhitespace(s[|s| - 1]) then TrimEnd(s[..|s| - 1]) else s
  }

  /**
   * `s.trim()`: the input with its leading and trailing whitespace removed
   * and nothing else; neither end of the result is whitespace.
   */
  function Trim(s: string): (r: string)
    ensures |r| <= |s|
    ensures var a := |s| - |TrimStart(s)|;
      a + |r| <= |s| && r == s[a..a + |r|] &&
      (forall i :: 0 <= i < a ==> IsWhitespace(s[i])) &&
      (forall i :: a + |r| <= i < |s| ==> IsWhitespace(s[i]))
    ensures r != [] ==> !IsWhitespace(r[0]) && !IsWhitespace(r[|r| - 1])
  {
    var t := TrimStart(s);
    PrefixOfSuffix(s, t, TrimEnd(t));
    TrimEnd(t)
  }

  /**
   * A prefix `r` of the suffix `t` of `s` is a slice of `s`, and whitespace
   * after `r` in `t` is whitespace after that slice in `s`.
   */
  lemma PrefixOfSuffix(s: string, t: string, r: string)
    requires |t| <= |s| && t == s[|s| - |t|..]
    requires |r| <= |t| && r == t[..|r|]
    requires forall i :: |r| <= i < |t| ==> IsWhitespace(t[i])
    ensures var a := |s| - |t|;
      a + |r| <= |s| && r == s[a..a + |r|] &&
      forall i :: a + |r| <= i < |s| ==> IsWhitespace(s[i])
  {
    var a := |s| - |t|;
    forall i | a + |r| <= i < |s| ensures IsWhitespace(s[i]) {
      assert s[i] == t[i - a];
    }
  }

  /** `s.trim()` is "" exactly when every character of `s` is whitespace. */
  lemma BlankIffTrimEmpty(s: string)
    ensures Trim(s) == [] <==> IsBlank(s)
  {
  }
}
