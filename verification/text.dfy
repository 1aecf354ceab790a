/** The .NET string tests the core relies on. */
module Text {

  /**
   * char.IsWhiteSpace: the Unicode White_Space characters
   * (U+0009..U+000D, U+0020, U+0085, U+00A0, U+1680, U+2000..U+200A,
   * U+2028, U+2029, U+202F, U+205F, U+3000).
   */
  predicate IsWhiteSpace(c: char) {
    || ('\t' <= c <= '\r')
    || c == ' '
    || c == '\U{0085}'
    || c == '\U{00A0}'
    || c == '\U{1680}'
    || ('\U{2000}' <= c <= '\U{200A}')
    || c == '\U{2028}'
    || c == '\U{2029}'
    || c == '\U{202F}'
    || c == '\U{205F}'
    || c == '\U{3000}'
  }

  /** string.IsNullOrWhiteSpace; a null string is modelled as "". */
  predicate IsNullOrWhiteSpace(s: string) {
    s == [] || (IsWhiteSpace(s[0]) && IsNullOrWhiteSpace(s[1..]))
  }

  /** string.IsNullOrEmpty; a null string is modelled as "". */
  predicate IsNullOrEmpty(s: string) {
    s == ""
  }

  /** Appending in two steps is appending the concatenation. */
  lemma ConcatAssoc(a: string, b: string, c: string)
    ensures a + b + c == a + (b + c)
  {
  }

  /** A string that is not blank stays not blank whatever is appended to it. */
  lemma {:induction false} NotBlankExtends(s: string, t: string)
    requires !IsNullOrWhiteSpace(s)
    ensures !IsNullOrWhiteSpace(s + t)
  {
    assert (s + t)[0] == s[0];
    if IsWhiteSpace(s[0]) {
      NotBlankExtends(s[1..], t);
      assert (s + t)[1..] == s[1..] + t;
    }
  }

  /** Whatever is prepended to a string that is not blank leaves it not blank. */
  lemma {:induction false} NotBlankPrefixed(s: string, t: string)
    requires !IsNullOrWhiteSpace(t)
    ensures !IsNullOrWhiteSpace(s + t)
  {
    if s != [] {
      NotBlankPrefixed(s[1..], t);
      assert (s + t)[1..] == s[1..] + t;
      assert !IsNullOrWhiteSpace((s + t)[1..]);
    } else {
      assert s + t == t;
    }
  }
}
