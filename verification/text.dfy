/**
 * The two string predicates the library relies on: `string.IsNullOrWhiteSpace`
 * and ordinal case-insensitive comparison (`StringComparison.OrdinalIgnoreCase`,
 * `StringComparer.OrdinalIgnoreCase`).
 */
module Text {
  import opened Wrappers

  /** The characters `char.IsWhiteSpace` accepts: the Unicode space, line and
      paragraph separators, the control characters U+0009..U+000D and U+0085. */
  predicate IsWhiteSpace(c: char) {
    || ('\t' <= c <= '\r')
    || c == ' '
    || c == '\U{85}'
    || c == '\U{A0}'
    || c == '\U{1680}'
    || ('\U{2000}' <= c <= '\U{200A}')
    || c == '\U{2028}'
    || c == '\U{2029}'
    || c == '\U{202F}'
    || c == '\U{205F}'
    || c == '\U{3000}'
  }

  /** A string that is empty or made only of white space. */
  predicate IsBlank(s: string) {
    forall i :: 0 <= i < |s| ==> IsWhiteSpace(s[i])
  }

  /** `string.IsNullOrWhiteSpace` on a nullable string. */
  predicate IsNullOrBlank(s: Option<string>) {
    s.None? || IsBlank(s.value)
  }

  /** Case folding of one character, as ordinal case-insensitive comparison does it
      for ASCII letters. */
  function FoldChar(c: char): (d: char)
    ensures !('a' <= d <= 'z')
    ensures 'a' <= c <= 'z' ==> d as int == c as int - 32
    ensures !('a' <= c <= 'z') ==> d == c
  {
    if 'a' <= c <= 'z' then (c as int - 32) as char else c
  }

  /** Case folding of a string, character by character. */
  function Fold(s: string): (f: string)
    ensures |f| == |s|
    ensures forall i :: 0 <= i < |s| ==> f[i] == FoldChar(s[i])
  {
    seq(|s|, i requires 0 <= i < |s| => FoldChar(s[i]))
  }

  /** Ordinal case-insensitive equality of two strings. */
  predicate EqualsIgnoreCase(a: string, b: string) {
    Fold(a) == Fold(b)
  }

  /** `string.Equals(a, b, StringComparison.OrdinalIgnoreCase)` on nullable strings:
      two nulls are equal, a null never equals a string. */
  predicate NullableEqualsIgnoreCase(a: Option<string>, b: Option<string>) {
    match (a, b)
    case (None, None) => true
    case (Some(x), Some(y)) => EqualsIgnoreCase(x, y)
    case _ => false
  }

  /** Two characters are one ASCII letter in its two cases, or the same character. */
  predicate SameLetterIgnoringCase(x: char, y: char) {
    || x == y
    || ('a' <= x <= 'z' && y as int == x as int - 32)
    || ('a' <= y <= 'z' && x as int == y as int - 32)
  }

  /** Folding identifies exactly the two cases of each ASCII letter. */
  lemma FoldCharIff(x: char, y: char)
    ensures FoldChar(x) == FoldChar(y) <==> SameLetterIgnoringCase(x, y)
  {
  }

  /** Case-insensitive equality, independently of folding: same length, and at
      each position the same character or the two cases of one ASCII letter. */
  lemma {:induction false} EqualsIgnoreCaseIff(a: string, b: string)
    ensures EqualsIgnoreCase(a, b)
        <==> |a| == |b| && forall i :: 0 <= i < |a| ==> SameLetterIgnoringCase(a[i], b[i])
  {
    if EqualsIgnoreCase(a, b) {
      forall i | 0 <= i < |a|
        ensures SameLetterIgnoringCase(a[i], b[i])
      {
        assert Fold(a)[i] == Fold(b)[i];
        FoldCharIff(a[i], b[i]);
      }
    }
    if |a| == |b| && forall i :: 0 <= i < |a| ==> SameLetterIgnoringCase(a[i], b[i]) {
      forall i | 0 <= i < |a|
        ensures Fold(a)[i] == Fold(b)[i]
      {
        FoldCharIff(a[i], b[i]);
      }
    }
  }
}
