/** Python's substring test `pat in s` on strings, which the round handler uses
    to classify the message that the rule table returns. */
module Text {

  /** `pat` occurs in `s` starting at index `i`. */
  predicate OccursAt(s: string, pat: string, i: int)
  {
    0 <= i && i + |pat| <= |s| && s[i..i + |pat|] == pat
  }

  /** `pat` is a substring of `s`. */
  ghost predicate Occurs(s: string, pat: string)
  {
    exists i :: OccursAt(s, pat, i)
  }

  /** Answers the same as Python's `pat in s`, by scanning every start
      position from the left and stopping at the first match. */
  method Contains(s: string, pat: string) returns (found: bool)
    ensures found <==> Occurs(s, pat)
  {
    if |pat| > |s| {
      return false;
    }
    var i := 0;
    while i <= |s| - |pat|
      invariant 0 <= i <= |s| - |pat| + 1
      invariant forall j :: 0 <= j < i ==> !OccursAt(s, pat, j)
    {
      if s[i..i + |pat|] == pat {
        assert OccursAt(s, pat, i);
        return true;
      }
      i := i + 1;
    }
    return false;
  }

  /** A pattern whose first character never appears in `s` is not a substring of it. */
  lemma AbsentWithoutFirstChar(s: string, pat: string)
    requires |pat| > 0 && pat[0] !in s
    ensures !Occurs(s, pat)
  {
    forall i | 0 <= i && i + |pat| <= |s|
      ensures !OccursAt(s, pat, i)
    {
      assert s[i..i + |pat|][0] == s[i];
    }
  }
}
