/**
 * The operations of java.lang.String, java.lang.Boolean, java.util.Map and
 * the commons-lang `StringUtils` that the plugin's decisions are built from.
 * Java's null is `None`.
 */
module JavaLibrary {
  import opened Wrappers

  /** `map.get(key)` on a `Map<String, String>`: null when the key is absent. */
  function Lookup(m: map<string, string>, key: string): (r: Option<string>)
    ensures r.Some? <==> key in m
    ensures r.Some? ==> r.value == m[key]
  {
    if key in m then Some(m[key]) else None
  }

  /** `s.startsWith(prefix)` */
  predicate StartsWith(s: string, prefix: string) {
    |prefix| <= |s| && s[..|prefix|] == prefix
  }

  /** `s.endsWith(suffix)` */
  predicate EndsWith(s: string, suffix: string) {
    |suffix| <= |s| && s[|s| - |suffix|..] == suffix
  }

  /** `t` occurs in `s` starting at index `i`. */
  predicate OccursAt(s: string, t: string, i: int) {
    0 <= i && i + |t| <= |s| && s[i..i + |t|] == t
  }

  /** `s.contains(t)` */
  predicate Contains(s: string, t: string) {
    exists i | 0 <= i <= |s| - |t| :: OccursAt(s, t, i)
  }

  /** `Character.toLowerCase` on the ASCII letters; every other character is kept. */
  function LowerChar(c: char): char {
    if 'A' <= c <= 'Z' then (c as int - 'A' as int + 'a' as int) as char else c
  }

  /** `s.toLowerCase()`: the string of the same length, folded character by character. */
  function ToLowerCase(s: string): (r: string)
    ensures |r| == |s|
    ensures forall i :: 0 <= i < |s| ==> r[i] == LowerChar(s[i])
  {
    if s == [] then [] else [LowerChar(s[0])] + ToLowerCase(s[1..])
  }

  /** Lower-casing a lower-cased string changes nothing. */
  lemma ToLowerCaseIdempotent(s: string)
    ensures ToLowerCase(ToLowerCase(s)) == ToLowerCase(s)
  {
  }

  /** The slice of `s` at index `i` of the length of `word` lower-cases to `word`. */
  ghost predicate OccursAtIgnoringCase(s: string, word: string, i: int) {
    0 <= i && i + |word| <= |s| && ToLowerCase(s[i..i + |word|]) == word
  }

  /** `word` occurs in `s` when case is ignored. */
  ghost predicate ContainsIgnoringCase(s: string, word: string) {
    exists i | 0 <= i <= |s| - |word| :: OccursAtIgnoringCase(s, word, i)
  }

  /** Lower-casing commutes with taking a slice. */
  lemma ToLowerCaseSlice(s: string, i: int, j: int)
    requires 0 <= i <= j <= |s|
    ensures ToLowerCase(s)[i..j] == ToLowerCase(s[i..j])
  {
  }

  /** `s.toLowerCase().contains(word)` holds exactly when `word` occurs in `s` ignoring case. */
  lemma ContainsLowerCaseIff(s: string, word: string)
    ensures Contains(ToLowerCase(s), word) <==> ContainsIgnoringCase(s, word)
  {
    var lower := ToLowerCase(s);
    if Contains(lower, word) {
      var i :| 0 <= i <= |lower| - |word| && OccursAt(lower, word, i);
      ToLowerCaseSlice(s, i, i + |word|);
      assert OccursAtIgnoringCase(s, word, i);
    }
    if ContainsIgnoringCase(s, word) {
      var i :| 0 <= i <= |s| - |word| && OccursAtIgnoringCase(s, word, i);
      ToLowerCaseSlice(s, i, i + |word|);
      assert OccursAt(lower, word, i);
    }
  }

  /**
   * `Character.isWhitespace`: the Unicode space, line and paragraph separators
   * other than the non-breaking ones, and the control characters
   * U+0009..U+000D and U+001C..U+001F.
   */
  predicate IsWhitespace(c: char) {
    || c == ' '
    || '\t' <= c <= '\r'
    || '\U{1C}' <= c <= '\U{1F}'
    || c == '\U{1680}'
    || '\U{2000}' <= c <= '\U{2006}'
    || '\U{2008}' <= c <= '\U{200A}'
    || c == '\U{2028}' || c == '\U{2029}'
    || c == '\U{205F}' || c == '\U{3000}'
  }

  /** `StringUtils.isBlank(s)`: null, empty, or whitespace only. */
  predicate IsBlank(s: Option<string>) {
    s.None? || forall i :: 0 <= i < |s.value| ==> IsWhitespace(s.value[i])
  }

  /** `StringUtils.isEmpty(s)`: null or of length zero. */
  predicate IsEmpty(s: Option<string>) {
    s.None? || s.value == ""
  }

  /** `Boolean.parseBoolean(s)` (also `Boolean.valueOf(s)`): "true" in any case, never null. */
  predicate ParseBoolean(s: Option<string>) {
    s.Some? && ToLowerCase(s.value) == "true"
  }

  /** What string concatenation appends for a possibly null string. */
  function ToJavaString(s: Option<string>): (r: string)
    ensures s.None? ==> r == "null"
    ensures s.Some? ==> r == s.value
  {
    match s
    case None => "null"
    case Some(v) => v
  }

  /** The leading part of `String.trim()`: drops the characters up to U+0020 at the front. */
  function TrimStart(s: string): (r: string)
    ensures |r| <= |s| && r == s[|s| - |r|..]
    ensures forall i :: 0 <= i < |s| - |r| ==> s[i] <= ' '
    ensures r == [] || r[0] > ' '
  {
    if |s| > 0 && s[0] <= ' ' then TrimStart(s[1..]) else s
  }

  /** The trailing part of `String.trim()`: drops the characters up to U+0020 at the end. */
  function TrimEnd(s: string): (r: string)
    ensures |r| <= |s| && r == s[..|r|]
    ensures forall i :: |r| <= i < |s| ==> s[i] <= ' '
    ensures r == [] || r[|r| - 1] > ' '
  {
    if |s| > 0 && s[|s| - 1] <= ' ' then TrimEnd(s[..|s| - 1]) else s
  }

  /** `s.trim()` */
  function Trim(s: string): string {
    TrimEnd(TrimStart(s))
  }

  /** `s.trim().length() > 0` holds exactly when `s` has a character above U+0020. */
  lemma TrimNonEmptyIff(s: string)
    ensures |Trim(s)| > 0 <==> exists i :: 0 <= i < |s| && s[i] > ' '
  {
  }
}
