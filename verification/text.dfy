/**
 * The two string operations the webhook uses to read an alert message:
 * Python's substring test `pat in s` and `str.upper()` (on ASCII letters).
 */
module Text {

  /** `pat in s`: `pat` occurs as a contiguous block of `s`. */
  function Contains(s: string, pat: string): bool
    decreases |s|
  {
    if |s| < |pat| then false
    else s[..|pat|] == pat || Contains(s[1..], pat)
  }

  /** `pat` starts at index `i` of `s`. */
  ghost predicate OccursAt(s: string, pat: string, i: int) {
    0 <= i && i + |pat| <= |s| && s[i..i + |pat|] == pat
  }

  /** An occurrence in the tail of `s` is an occurrence in `s`, one index later. */
  lemma OccursInTail(s: string, pat: string, j: int)
    requires |s| > 0 && 0 <= j
    ensures OccursAt(s[1..], pat, j) <==> OccursAt(s, pat, j + 1)
  {
    if 0 <= j && j + |pat| <= |s| - 1 {
      assert s[1..][j..j + |pat|] == s[j + 1..j + 1 + |pat|];
    }
  }

  /** The recursive search finds `pat` exactly when it occurs somewhere in `s`. */
  lemma {:induction false} ContainsIffOccurs(s: string, pat: string)
    ensures Contains(s, pat) <==> exists i :: OccursAt(s, pat, i)
    decreases |s|
  {
    if |s| < |pat| {
      forall i | OccursAt(s, pat, i)
        ensures false
      {
      }
    } else {
      if s[..|pat|] == pat {
        assert OccursAt(s, pat, 0);
        return;
      }
      ContainsIffOccurs(s[1..], pat);
      if Contains(s[1..], pat) {
        var j :| OccursAt(s[1..], pat, j);
        OccursInTail(s, pat, j);
      } else {
        forall i | OccursAt(s, pat, i)
          ensures false
        {
          assert i != 0;
          OccursInTail(s, pat, i - 1);
        }
      }
    }
  }

  /** An occurrence at a known index is found by the search. */
  lemma FoundAt(s: string, pat: string, i: int)
    requires OccursAt(s, pat, i)
    ensures Contains(s, pat)
  {
    ContainsIffOccurs(s, pat);
  }

  /** A pattern whose first character never appears in `s` is not in `s`. */
  lemma {:induction false} MissingFirstChar(s: string, pat: string)
    requires |pat| > 0
    requires forall i :: 0 <= i < |s| ==> s[i] != pat[0]
    ensures !Contains(s, pat)
    decreases |s|
  {
    if |s| >= |pat| {
      assert s[..|pat|][0] == s[0];
      MissingFirstChar(s[1..], pat);
    }
  }

  /** ASCII upper-casing of one character; every other character is unchanged. */
  function UpperChar(c: char): (u: char)
    ensures !('a' <= u <= 'z')
    ensures 'a' <= c <= 'z' ==> u as int == c as int - 32
    ensures !('a' <= c <= 'z') ==> u == c
  {
    if 'a' <= c <= 'z' then (c as int - 32) as char else c
  }

  /** `s.upper()`, restricted to the ASCII letters. */
  function Upper(s: string): (u: string)
    ensures |u| == |s|
  {
    if |s| == 0 then [] else [UpperChar(s[0])] + Upper(s[1..])
  }

  /** Each character of `s.upper()` is the upper-cased character of `s` at the same index. */
  lemma {:induction false} UpperAt(s: string)
    ensures forall i :: 0 <= i < |s| ==> Upper(s)[i] == UpperChar(s[i])
    decreases |s|
  {
    if |s| > 0 {
      UpperAt(s[1..]);
      assert forall i :: 1 <= i < |s| ==> Upper(s)[i] == Upper(s[1..])[i - 1];
    }
  }

  /**
   * `pat` matches `s` at `i` ignoring case: every character of the window,
   * upper-cased, equals the corresponding character of `pat`.
   */
  ghost predicate CaselessAt(s: string, pat: string, i: int) {
    0 <= i && i + |pat| <= |s| && forall k :: 0 <= k < |pat| ==> UpperChar(s[i + k]) == pat[k]
  }

  /**
   * `pat in s.upper()` is a case-insensitive search: it holds exactly when
   * some window of `s` spells `pat` in any mix of cases.
   */
  lemma ContainsUpperIsCaseless(s: string, pat: string)
    ensures Contains(Upper(s), pat) <==> exists i :: CaselessAt(s, pat, i)
  {
    ContainsIffOccurs(Upper(s), pat);
    UpperAt(s);
    forall i | 0 <= i && i + |pat| <= |s|
      ensures OccursAt(Upper(s), pat, i) <==> CaselessAt(s, pat, i)
    {
      var w := Upper(s)[i..i + |pat|];
      assert |w| == |pat|;
      assert forall k :: 0 <= k < |pat| ==> w[k] == UpperChar(s[i + k]);
    }
    if Contains(Upper(s), pat) {
      var i :| OccursAt(Upper(s), pat, i);
      assert CaselessAt(s, pat, i);
    }
    if exists i :: CaselessAt(s, pat, i) {
      var i :| CaselessAt(s, pat, i);
      assert OccursAt(Upper(s), pat, i);
    }
  }
}
