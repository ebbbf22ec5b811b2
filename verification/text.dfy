/**
 * String helpers shared by the entity extractor and the intent classifier:
 * lower-casing (as Python's `str.lower`, restricted to ASCII) and substring
 * containment (as Python's `needle in haystack`).
 */
module Text {

  /** Lower-cases one character: 'A'..'Z' map to 'a'..'z', everything else is kept. */
  function LowerChar(c: char): (r: char)
    ensures 'A' <= c <= 'Z' ==> r as int == c as int + 32
    ensures !('A' <= c <= 'Z') ==> r == c
  {
    if 'A' <= c <= 'Z' then (c as int + 32) as char else c
  }

  /** Lower-cases a whole string, character by character. */
  function Lower(s: string): (r: string)
    ensures |r| == |s|
    ensures forall i :: 0 <= i < |s| ==> r[i] == LowerChar(s[i])
  {
    seq(|s|, i requires 0 <= i < |s| => LowerChar(s[i]))
  }

  /** No upper-case ASCII letter is left in the string. */
  ghost predicate IsLower(s: string)
  {
    forall i :: 0 <= i < |s| ==> !('A' <= s[i] <= 'Z')
  }

  /** `needle` occurs in `haystack` at position `i`. */
  ghost predicate OccursAt(needle: string, haystack: string, i: int)
  {
    0 <= i && i + |needle| <= |haystack| && haystack[i..i + |needle|] == needle
  }

  /** `needle` is a (contiguous) substring of `haystack`. */
  ghost predicate Occurs(needle: string, haystack: string)
  {
    exists i :: OccursAt(needle, haystack, i)
  }

  /**
   * Python's `needle in haystack` for strings: true exactly when `needle`
   * occurs somewhere in `haystack` (the empty needle occurs everywhere).
   */
  function Contains(needle: string, haystack: string): (r: bool)
    ensures r <==> Occurs(needle, haystack)
    decreases |haystack|
  {
    if |needle| > |haystack| then
      false
    else if haystack[..|needle|] == needle then
      assert OccursAt(needle, haystack, 0);
      true
    else
      var rest := Contains(needle, haystack[1..]);
      ShiftOccurrence(needle, haystack);
      rest
  }

  /**
   * An occurrence in `haystack` is either at the front or an occurrence in
   * `haystack[1..]` moved one place to the right.
   */
  lemma ShiftOccurrence(needle: string, haystack: string)
    requires |haystack| > 0
    ensures Occurs(needle, haystack) <==>
            (|needle| <= |haystack| && haystack[..|needle|] == needle) || Occurs(needle, haystack[1..])
  {
    if Occurs(needle, haystack) {
      var i :| OccursAt(needle, haystack, i);
      if i > 0 {
        assert haystack[1..][i - 1..i - 1 + |needle|] == haystack[i..i + |needle|];
        assert OccursAt(needle, haystack[1..], i - 1);
      }
    }
    if Occurs(needle, haystack[1..]) {
      var j :| OccursAt(needle, haystack[1..], j);
      assert haystack[1..][j..j + |needle|] == haystack[j + 1..j + 1 + |needle|];
      assert OccursAt(needle, haystack, j + 1);
    }
    if |needle| <= |haystack| && haystack[..|needle|] == needle {
      assert OccursAt(needle, haystack, 0);
    }
  }

  /** Lower-casing is idempotent, and its result has no upper-case letter. */
  lemma LowerIdempotent(s: string)
    ensures IsLower(Lower(s))
    ensures Lower(Lower(s)) == Lower(s)
  {
  }

  /** Substring containment is transitive. */
  lemma {:induction false} OccursTransitive(a: string, b: string, c: string)
    requires Occurs(a, b) && Occurs(b, c)
    ensures Occurs(a, c)
  {
    var i :| OccursAt(a, b, i);
    var j :| OccursAt(b, c, j);
    forall k | 0 <= k < |a|
      ensures c[j + i + k] == a[k]
    {
      assert a[k] == b[i..i + |a|][k] == b[i + k] == c[j..j + |b|][i + k];
    }
    assert c[j + i..j + i + |a|] == a;
    assert OccursAt(a, c, j + i);
  }

  /** An occurrence can be checked character by character. */
  lemma OccursAtByChars(needle: string, haystack: string, i: nat)
    requires i + |needle| <= |haystack|
    requires forall k :: 0 <= k < |needle| ==> haystack[i + k] == needle[k]
    ensures OccursAt(needle, haystack, i)
  {
    assert haystack[i..i + |needle|] == needle;
  }
}
