/** String helpers shared by the models: optional values, prefixes and
    trimming with a caller-chosen notion of "blank" character. */
module Text {

  datatype Option<+T> = None | Some(value: T)

  /** `s.startsWith(p)` of Java and Kotlin. */
  predicate StartsWith(s: string, p: string) {
    |p| <= |s| && s[..|p|] == p
  }

  /** Drops the leading characters for which `blank` holds. */
  function TrimStart(s: string, blank: char -> bool): (r: string)
    ensures |r| <= |s| && r == s[|s| - |r|..]
    ensures forall i :: 0 <= i < |s| - |r| ==> blank(s[i])
    ensures r == [] || !blank(r[0])
    decreases |s|
  {
    if |s| > 0 && blank(s[0]) then TrimStart(s[1..], blank) else s
  }

  /** Drops the trailing characters for which `blank` holds. */
  function TrimEnd(s: string, blank: char -> bool): (r: string)
    ensures |r| <= |s| && r == s[..|r|]
    ensures forall i :: |r| <= i < |s| ==> blank(s[i])
    ensures r == [] || !blank(r[|r| - 1])
    decreases |s|
  {
    if |s| > 0 && blank(s[|s| - 1]) then TrimEnd(s[..|s| - 1], blank) else s
  }

  /** Drops blank characters at both ends: the result is the middle slice
      `s[a..b]` with everything outside it blank and its two ends not. */
  function Trim(s: string, blank: char -> bool): (r: string)
    ensures exists a, b ::
              && 0 <= a <= b <= |s| && r == s[a..b]
              && (forall i :: 0 <= i < a ==> blank(s[i]))
              && (forall i :: b <= i < |s| ==> blank(s[i]))
    ensures r == [] || (!blank(r[0]) && !blank(r[|r| - 1]))
  {
    var t := TrimStart(s, blank);
    var r := TrimEnd(t, blank);
    var a := |s| - |t|;
    assert r == s[a..a + |r|];
    r
  }

  /** `String.trim()` of Java removes every character up to U+0020. */
  predicate IsJavaTrimmable(c: char) {
    c <= ' '
  }

  /** `Char.isWhitespace()` of Kotlin on the JVM: `Character.isWhitespace`
      or `Character.isSpaceChar`, i.e. the ASCII controls TAB to CR and
      U+001C to U+001F, and every space, line and paragraph separator. */
  predicate IsKotlinWhitespace(c: char) {
    ('\t' <= c <= '\r') || ('\U{1C}' <= c <= ' ') || c == '\U{A0}' || c == '\U{1680}'
    || ('\U{2000}' <= c <= '\U{200A}') || c == '\U{2028}' || c == '\U{2029}'
    || c == '\U{202F}' || c == '\U{205F}' || c == '\U{3000}'
  }
}
