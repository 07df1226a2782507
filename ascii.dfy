/**
 * ASCII case folding as Rust's `u8::to_ascii_lowercase` and
 * `str::eq_ignore_ascii_case` define it. Only the letters 'A'..'Z' are
 * folded; every other character, ASCII or not, compares as itself.
 */
module Ascii {

  /** Lower-cases one character if it is an ASCII capital letter. */
  function ToLower(c: char): char
  {
    if 'A' <= c <= 'Z' then (c as int + 32) as char else c
  }

  /** Lower-cases every ASCII capital letter of `s`, position by position. */
  function Lower(s: string): string
  {
    seq(|s|, i requires 0 <= i < |s| => ToLower(s[i]))
  }

  /** `a.eq_ignore_ascii_case(b)`: equal lengths, and equal at every position after folding. */
  predicate EqIgnoreCase(a: string, b: string)
  {
    |a| == |b| && forall i :: 0 <= i < |a| ==> ToLower(a[i]) == ToLower(b[i])
  }

  /** Comparing under folding is the same as comparing the folded strings. */
  lemma EqIgnoreCaseIffLowerEq(a: string, b: string)
    ensures EqIgnoreCase(a, b) <==> Lower(a) == Lower(b)
  {
    if Lower(a) == Lower(b) {
      assert |a| == |b|;
      forall i | 0 <= i < |a| ensures ToLower(a[i]) == ToLower(b[i]) {
        assert Lower(a)[i] == Lower(b)[i];
      }
    }
  }

  /** Folding twice is folding once. */
  lemma LowerIdempotent(s: string)
    ensures Lower(Lower(s)) == Lower(s)
  {
  }
}
