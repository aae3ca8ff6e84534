/**
 * The string operations of java.lang.String and org.apache.commons.lang3.StringUtils
 * that the logging and declaration code relies on.
 */
module JavaText {
  import opened Wrappers

  /** Character.isWhitespace: the ASCII controls 9-13 and 28-31 and the Unicode space,
      line and paragraph separators, except the non-breaking spaces U+00A0, U+2007, U+202F. */
  predicate IsWhitespace(c: char) {
    || c == ' ' || '\t' <= c <= '\r' || '\U{001C}' <= c <= '\U{001F}'
    || c == '\U{1680}' || '\U{2000}' <= c <= '\U{2006}' || '\U{2008}' <= c <= '\U{200A}'
    || c == '\U{2028}' || c == '\U{2029}' || c == '\U{205F}' || c == '\U{3000}'
  }

  /** StringUtils.isBlank: null, empty, or whitespace only. */
  predicate IsBlank(cs: Option<string>) {
    cs.None? || forall i :: 0 <= i < |cs.value| ==> IsWhitespace(cs.value[i])
  }

  /** StringUtils.isEmpty: null or of length zero. */
  predicate IsEmpty(cs: Option<string>) {
    cs.None? || |cs.value| == 0
  }

  /** String.contains: `t` occurs in `s` as a contiguous run. */
  predicate Contains(s: string, t: string)
    decreases |s|
  {
    |t| <= |s| && (s[..|t|] == t || Contains(s[1..], t))
  }

  /** Character.toUpperCase restricted to the characters whose upper case is ASCII. */
  function UpperCase(c: char): char {
    if 'a' <= c <= 'z' then (c as int - 32) as char
    else if c == '\U{0131}' then 'I'  // dotless i
    else if c == '\U{017F}' then 'S'  // long s
    else c
  }

  /** Character.toLowerCase restricted to the characters whose lower case is ASCII. */
  function LowerCase(c: char): char {
    if 'A' <= c <= 'Z' then (c as int + 32) as char
    else if c == '\U{0130}' then 'i'  // capital I with dot above
    else if c == '\U{212A}' then 'k'  // Kelvin sign
    else c
  }

  /** The per-character test of String.equalsIgnoreCase. */
  predicate CharEqualsIgnoreCase(a: char, b: char) {
    a == b || UpperCase(a) == UpperCase(b) || LowerCase(UpperCase(a)) == LowerCase(UpperCase(b))
  }

  /**
   * String.equalsIgnoreCase against a non-null argument. Case mapping is modelled only where it
   * meets ASCII, which makes the test exact whenever one side is an ASCII literal, as at every use here.
   */
  predicate EqualsIgnoreCase(s: string, t: string) {
    |s| == |t| && forall i :: 0 <= i < |s| ==> CharEqualsIgnoreCase(s[i], t[i])
  }
}
