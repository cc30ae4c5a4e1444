/**
 * Python's `str.replace(pat, "")`: every non-overlapping occurrence of `pat`,
 * found scanning from the left, is removed.
 */
module Text {

  /** `s.replace(pat, "")` for a non-empty `pat`. */
  function RemoveAll(s: string, pat: string): (r: string)
    requires pat != []
    ensures |r| <= |s|
    ensures |r| == |s| ==> r == s
    decreases |s|
  {
    if |s| < |pat| then s
    else if s[..|pat|] == pat then RemoveAll(s[|pat|..], pat)
    else [s[0]] + RemoveAll(s[1..], pat)
  }

  /** A string that lacks one of the characters of `pat` contains no occurrence and is left as it is. */
  lemma {:induction false} RemoveAllWithoutOccurrence(s: string, pat: string, k: nat)
    requires k < |pat| && pat[k] !in s
    ensures RemoveAll(s, pat) == s
    decreases |s|
  {
    if |s| >= |pat| {
      assert s[..|pat|][k] != pat[k];
      RemoveAllWithoutOccurrence(s[1..], pat, k);
      assert s == [s[0]] + s[1..];
    }
  }

  /** `pat` occurs in `s` starting at index `i`. */
  predicate OccursAt(s: string, pat: string, i: int)
  {
    0 <= i && i + |pat| <= |s| && s[i..i + |pat|] == pat
  }

  /** A string in which `pat` does not occur anywhere is returned unchanged. */
  lemma {:induction false} RemoveAllWithoutAnyOccurrence(s: string, pat: string)
    requires pat != []
    requires forall i :: !OccursAt(s, pat, i)
    ensures RemoveAll(s, pat) == s
    decreases |s|
  {
    if |s| >= |pat| {
      assert !OccursAt(s, pat, 0);
      assert s[..|pat|] == s[0..|pat|];
      forall i
        ensures !OccursAt(s[1..], pat, i)
      {
        assert !OccursAt(s, pat, i + 1);
        if 0 <= i && i + |pat| <= |s[1..]| {
          assert s[1..][i..i + |pat|] == s[i + 1..i + 1 + |pat|];
        }
      }
      RemoveAllWithoutAnyOccurrence(s[1..], pat);
      assert s == [s[0]] + s[1..];
    }
  }

  /** A string in which `pat` occurs somewhere loses at least one character. */
  lemma {:induction false} RemoveAllShrinks(s: string, pat: string, i: int)
    requires pat != [] && OccursAt(s, pat, i)
    ensures |RemoveAll(s, pat)| < |s|
    decreases i
  {
    assert s[..|pat|] == s[0..|pat|];
    if s[..|pat|] != pat {
      assert s[1..][i - 1..i - 1 + |pat|] == s[i..i + |pat|];
      RemoveAllShrinks(s[1..], pat, i - 1);
    }
  }

  /** `s.replace(pat, "")` returns `s` itself exactly when `pat` does not occur in `s`. */
  lemma RemoveAllUnchanged(s: string, pat: string)
    requires pat != []
    ensures RemoveAll(s, pat) == s <==> forall i :: !OccursAt(s, pat, i)
  {
    if forall i :: !OccursAt(s, pat, i) {
      RemoveAllWithoutAnyOccurrence(s, pat);
    } else {
      var i :| OccursAt(s, pat, i);
      RemoveAllShrinks(s, pat, i);
    }
  }

  /** A leading occurrence of `pat` is dropped and the scan resumes right after it. */
  lemma RemoveAllLeading(t: string, pat: string)
    requires pat != []
    ensures RemoveAll(pat + t, pat) == RemoveAll(t, pat)
  {
  }
}
