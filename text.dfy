/** The two string operations the search filters use: `str.lower()` and the
    substring test `q in s`. */
module Text {

  /** The lower case of a Latin-1 capital: A-Z and À-Þ except the sign ×. */
  function LowerChar(c: char): char
  {
    if 'A' <= c <= 'Z' || ('\U{00C0}' <= c <= '\U{00DE}' && c != '\U{00D7}') then (c as int + 32) as char else c
  }

  /** `s.lower()`, restricted to the Latin-1 letters. */
  function Lower(s: string): (r: string)
    ensures |r| == |s|
    ensures forall i :: 0 <= i < |s| ==> r[i] == LowerChar(s[i])
  {
    seq(|s|, i requires 0 <= i < |s| => LowerChar(s[i]))
  }

  /** Lowering twice is lowering once. */
  lemma LowerIdempotent(s: string)
    ensures Lower(Lower(s)) == Lower(s)
  {
  }

  /** Python's `q in s` on strings: `q` occurs in `s` as a contiguous substring. */
  predicate IsSubstring(q: string, s: string)
  {
    exists i | 0 <= i <= |s| - |q| :: OccursAt(q, s, i)
  }

  predicate OccursAt(q: string, s: string, i: int)
  {
    0 <= i <= |s| - |q| && s[i..i + |q|] == q
  }
}
