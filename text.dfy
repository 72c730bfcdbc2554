/** The few Python `str` operations the service relies on: `upper()`,
    `lower()` (on ASCII letters) and `replace(old, new)`. */
module Text {

  /** Python's `c.upper()` restricted to ASCII: 'a'..'z' become 'A'..'Z'. */
  function UpperChar(c: char): (u: char)
    ensures 'a' <= c <= 'z' ==> 'A' <= u <= 'Z' && u as int == c as int - 32
    ensures !('a' <= c <= 'z') ==> u == c
  {
    if 'a' <= c <= 'z' then (c as int - 32) as char else c
  }

  /** Python's `c.lower()` restricted to ASCII: 'A'..'Z' become 'a'..'z'. */
  function LowerChar(c: char): (l: char)
    ensures 'A' <= c <= 'Z' ==> 'a' <= l <= 'z' && l as int == c as int + 32
    ensures !('A' <= c <= 'Z') ==> l == c
  {
    if 'A' <= c <= 'Z' then (c as int + 32) as char else c
  }

  /** `s.upper()`: every character upper-cased, one for one. */
  function Upper(s: string): (r: string)
    ensures |r| == |s|
    ensures forall i :: 0 <= i < |s| ==> r[i] == UpperChar(s[i])
  {
    if s == [] then [] else [UpperChar(s[0])] + Upper(s[1..])
  }

  /** `s.lower()`: every character lower-cased, one for one. */
  function Lower(s: string): (r: string)
    ensures |r| == |s|
    ensures forall i :: 0 <= i < |s| ==> r[i] == LowerChar(s[i])
  {
    if s == [] then [] else [LowerChar(s[0])] + Lower(s[1..])
  }

  /** Upper-casing twice changes nothing more than upper-casing once. */
  lemma UpperIdempotent(s: string)
    ensures Upper(Upper(s)) == Upper(s)
  {
    var u := Upper(s);
    assert forall i :: 0 <= i < |u| ==> Upper(u)[i] == u[i];
  }

  /** A string without lower-case ASCII letters is its own upper case. */
  lemma UpperKeepsUpperCase(s: string)
    requires forall i :: 0 <= i < |s| ==> !('a' <= s[i] <= 'z')
    ensures Upper(s) == s
  {
  }

  /** Two strings that differ only in the case of ASCII letters upper-case
      to the same string. */
  lemma UpperIgnoresCase(s: string, t: string)
    requires Lower(s) == Lower(t)
    ensures Upper(s) == Upper(t)
  {
    assert |s| == |t|;
    forall i | 0 <= i < |s| ensures Upper(s)[i] == Upper(t)[i] {
      assert LowerChar(s[i]) == LowerChar(t[i]);
    }
  }

  /** `pat` occurs in `s` starting at index `i`. */
  predicate OccursAt(s: string, pat: string, i: int) {
    0 <= i && i + |pat| <= |s| && s[i..i + |pat|] == pat
  }

  predicate Contains(s: string, pat: string) {
    exists i | 0 <= i <= |s| :: OccursAt(s, pat, i)
  }

  /** The number of non-overlapping occurrences of `pat` that a left-to-right
      scan of `s` finds (Python's `s.count(pat)`). */
  function Count(s: string, pat: string): nat
    requires pat != []
    decreases |s|
  {
    if |s| < |pat| then 0
    else if s[..|pat|] == pat then 1 + Count(s[|pat|..], pat)
    else Count(s[1..], pat)
  }

  /** Python's `s.replace(pat, rep)` for a non-empty `pat`: scan from the
      left, replace each occurrence found and resume after it. */
  function ReplaceAll(s: string, pat: string, rep: string): string
    requires pat != []
    decreases |s|
  {
    if |s| < |pat| then s
    else if s[..|pat|] == pat then rep + ReplaceAll(s[|pat|..], pat, rep)
    else [s[0]] + ReplaceAll(s[1..], pat, rep)
  }

  lemma MulSucc(c: int, d: int)
    ensures (1 + c) * d == d + c * d
  {
  }

  /** Each occurrence found changes the length by `|rep| - |pat|`. */
  lemma {:induction false} ReplaceAllLength(s: string, pat: string, rep: string)
    requires pat != []
    ensures |ReplaceAll(s, pat, rep)| == |s| + Count(s, pat) * (|rep| - |pat|)
    decreases |s|
  {
    var d := |rep| - |pat|;
    if |s| < |pat| {
    } else if s[..|pat|] == pat {
      var rest := s[|pat|..];
      ReplaceAllLength(rest, pat, rep);
      var c := Count(rest, pat);
      assert Count(s, pat) == 1 + c;
      assert |ReplaceAll(s, pat, rep)| == |rep| + |ReplaceAll(rest, pat, rep)|;
      assert |rest| == |s| - |pat|;
      MulSucc(c, d);
    } else {
      ReplaceAllLength(s[1..], pat, rep);
      assert |ReplaceAll(s, pat, rep)| == 1 + |ReplaceAll(s[1..], pat, rep)|;
    }
  }

  /** Dropping the first character shifts every occurrence one place left. */
  lemma OccursShift(s: string, pat: string, i: int)
    requires s != [] && 0 <= i
    ensures OccursAt(s[1..], pat, i) <==> OccursAt(s, pat, i + 1)
  {
    if i + |pat| <= |s| - 1 {
      assert s[1..][i..i + |pat|] == s[i + 1..i + 1 + |pat|];
    }
  }

  /** A string in which `pat` does not occur comes back unchanged. */
  lemma {:induction false} ReplaceAllAbsent(s: string, pat: string, rep: string)
    requires pat != [] && !Contains(s, pat)
    ensures ReplaceAll(s, pat, rep) == s
  {
    if |s| >= |pat| {
      assert !OccursAt(s, pat, 0);
      forall i | 0 <= i <= |s[1..]| ensures !OccursAt(s[1..], pat, i) {
        OccursShift(s, pat, i);
      }
      ReplaceAllAbsent(s[1..], pat, rep);
    }
  }

  /** A prefix in which no occurrence of `pat` starts is copied through, and
      the scan resumes on the rest. */
  lemma {:induction false} ReplaceAllCopiesPrefix(p: string, s: string, pat: string, rep: string)
    requires pat != []
    requires forall i :: 0 <= i < |p| ==> !OccursAt(p + s, pat, i)
    ensures ReplaceAll(p + s, pat, rep) == p + ReplaceAll(s, pat, rep)
  {
    if p != [] {
      var ps := p + s;
      assert ps[1..] == p[1..] + s;
      forall i | 0 <= i < |p[1..]| ensures !OccursAt(p[1..] + s, pat, i) {
        OccursShift(ps, pat, i);
      }
      ReplaceAllCopiesPrefix(p[1..], s, pat, rep);
      if |ps| < |pat| {
        assert ReplaceAll(s, pat, rep) == s;
      } else {
        assert !OccursAt(ps, pat, 0);
        assert ps[..|pat|] != pat;
        var tail := ReplaceAll(s, pat, rep);
        assert ReplaceAll(ps, pat, rep) == [p[0]] + (p[1..] + tail);
        assert [p[0]] + (p[1..] + tail) == p + tail;
      }
    } else {
      assert p + s == s;
    }
  }

  /** An occurrence found at the front is replaced and the scan resumes after it. */
  lemma ReplaceAllAtFront(s: string, pat: string, rep: string)
    requires pat != []
    ensures ReplaceAll(pat + s, pat, rep) == rep + ReplaceAll(s, pat, rep)
  {
    assert (pat + s)[..|pat|] == pat;
    assert (pat + s)[|pat|..] == s;
  }
}
