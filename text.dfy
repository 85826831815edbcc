/**
 * The two string operations the core relies on: `str.lower()` (restricted to ASCII
 * letters) and Python's substring test `needle in haystack`.
 */
module Text {

  /** `c.lower()` for one character; only 'A'..'Z' are folded. */
  function LowerChar(c: char): (r: char)
    ensures !('A' <= r <= 'Z')
    ensures 'A' <= c <= 'Z' ==> r as int - c as int == 32
    ensures !('A' <= c <= 'Z') ==> r == c
  {
    if 'A' <= c <= 'Z' then (c as int + 32) as char else c
  }

  /** `s.lower()`: folds every character, keeps the length. */
  function Lower(s: string): (r: string)
    ensures |r| == |s|
    ensures forall i :: 0 <= i < |s| ==> r[i] == LowerChar(s[i])
  {
    if s == [] then [] else [LowerChar(s[0])] + Lower(s[1..])
  }

  /** Lowering twice is lowering once. */
  lemma LowerIdempotent(s: string)
    ensures Lower(Lower(s)) == Lower(s)
  {
  }

  /** The needle occurs in the haystack starting at index i. */
  predicate OccursAt(haystack: string, needle: string, i: int)
  {
    0 <= i && i + |needle| <= |haystack| && haystack[i..i + |needle|] == needle
  }

  /** The haystack begins with the needle. */
  predicate StartsWith(haystack: string, needle: string)
  {
    |needle| <= |haystack| && haystack[..|needle|] == needle
  }

  /** Python's `needle in haystack`: the haystack begins with the needle, or its rest
      contains it. */
  predicate Contains(haystack: string, needle: string)
  {
    StartsWith(haystack, needle) || (haystack != [] && Contains(haystack[1..], needle))
  }

  /** The recursive test agrees with the definition by windows: the needle is contained iff
      some window of the haystack equals it. */
  lemma {:induction false} ContainsIffOccurs(haystack: string, needle: string)
    ensures Contains(haystack, needle) <==> exists i | 0 <= i <= |haystack| :: OccursAt(haystack, needle, i)
  {
    if haystack == [] {
      assert StartsWith(haystack, needle) <==> OccursAt(haystack, needle, 0);
    } else {
      var rest := haystack[1..];
      ContainsIffOccurs(rest, needle);
      if StartsWith(haystack, needle) {
        assert OccursAt(haystack, needle, 0);
      }
      if exists i | 0 <= i <= |rest| :: OccursAt(rest, needle, i) {
        var i :| 0 <= i <= |rest| && OccursAt(rest, needle, i);
        assert haystack[i + 1..i + 1 + |needle|] == rest[i..i + |needle|];
        assert OccursAt(haystack, needle, i + 1);
      }
      if exists i | 0 <= i <= |haystack| :: OccursAt(haystack, needle, i) {
        var i :| 0 <= i <= |haystack| && OccursAt(haystack, needle, i);
        if i == 0 {
          assert StartsWith(haystack, needle);
        } else {
          assert rest[i - 1..i - 1 + |needle|] == haystack[i..i + |needle|];
          assert OccursAt(rest, needle, i - 1);
        }
      }
    }
  }
}
