/** Replacing every run of characters outside an alphabet by one character of it. */
module Slugs {

  /** Drops the leading run of characters that are not kept. */
  function DropRun(s: string, keep: char -> bool): (r: string)
    ensures |r| <= |s|
    ensures s != "" && !keep(s[0]) ==> |r| < |s|
  {
    if s != "" && !keep(s[0]) then DropRun(s[1..], keep) else s
  }

  predicate AllKept(s: string, keep: char -> bool) {
    forall k | 0 <= k < |s| :: keep(s[k])
  }

  function Squash(s: string, keep: char -> bool, glue: char): (r: string)
    ensures forall k | 0 <= k < |r| :: keep(r[k]) || r[k] == glue
    ensures AllKept(s, keep) ==> r == s
    decreases |s|
  {
    if s == "" then ""
    else if keep(s[0]) then [s[0]] + Squash(s[1..], keep, glue)
    else [glue] + Squash(DropRun(s, keep), keep, glue)
  }

  /** The texts differ only in which characters outside the alphabet they hold. */
  predicate Similar(a: string, b: string, keep: char -> bool) {
    |a| == |b| && forall k | 0 <= k < |a| :: a[k] == b[k] || (!keep(a[k]) && !keep(b[k]))
  }

  lemma {:induction false} SimilarRuns(a: string, b: string, keep: char -> bool)
    requires Similar(a, b, keep)
    ensures Similar(DropRun(a, keep), DropRun(b, keep), keep)
  {
    if a != "" && !keep(a[0]) {
      SimilarRuns(a[1..], b[1..], keep);
    }
  }

  lemma {:induction false} SimilarSlugs(a: string, b: string, keep: char -> bool, glue: char)
    requires Similar(a, b, keep)
    ensures Squash(a, keep, glue) == Squash(b, keep, glue)
    decreases |a|
  {
    if a != "" {
      if keep(a[0]) {
        SimilarSlugs(a[1..], b[1..], keep, glue);
      } else {
        SimilarRuns(a, b, keep);
        SimilarSlugs(DropRun(a, keep), DropRun(b, keep), keep, glue);
      }
    }
  }

  /** In a text of the alphabet, the glue is also what a character outside of it becomes. */
  lemma {:induction false} GlueStandsForOthers(a: string, k: nat, c: char, keep: char -> bool, glue: char)
    requires AllKept(a, keep) && k < |a| && a[k] == glue && !keep(c)
    ensures Squash(a[k := c], keep, glue) == a
  {
    var b := a[k := c];
    if k == 0 {
      assert b[1..] == a[1..] && AllKept(a[1..], keep);
      assert DropRun(b, keep) == a[1..];
      assert a == [glue] + a[1..];
    } else {
      assert b[1..] == a[1..][k - 1 := c];
      GlueStandsForOthers(a[1..], k - 1, c, keep, glue);
      assert a == [a[0]] + a[1..];
    }
  }

  /** A slug without the glue came from itself only. */
  lemma {:induction false} NoGlueNothingReplaced(b: string, keep: char -> bool, glue: char)
    requires glue !in Squash(b, keep, glue)
    ensures AllKept(b, keep)
    decreases |b|
  {
    if b != "" {
      var slug := Squash(b, keep, glue);
      assert slug[0] == if keep(b[0]) then b[0] else glue;
      assert slug[1..] == Squash(b[1..], keep, glue);
      NoGlueNothingReplaced(b[1..], keep, glue);
      assert b == [b[0]] + b[1..];
    }
  }

  /** All of the alphabet, and none of it the glue. */
  predicate Plain(a: string, keep: char -> bool, glue: char) {
    forall k | 0 <= k < |a| :: keep(a[k]) && a[k] != glue
  }

  /** A plain text shares its slug with no other text. */
  lemma PlainIsUnshared(a: string, b: string, keep: char -> bool, glue: char)
    requires Plain(a, keep, glue) && Squash(a, keep, glue) == Squash(b, keep, glue)
    ensures a == b
  {
    NoGlueNothingReplaced(b, keep, glue);
  }

  /**
   * Any other text shares it with one that differs in one character, which is one of two given
   * outside the alphabet.
   */
  lemma OthersAreShared(a: string, c: char, d: char, keep: char -> bool, glue: char) returns (b: string, k: nat)
    requires !Plain(a, keep, glue) && c != d && !keep(c) && !keep(d) && keep(glue)
    ensures b != a && Squash(b, keep, glue) == Squash(a, keep, glue)
    ensures k < |a| && (b == a[k := c] || b == a[k := d])
  {
    if AllKept(a, keep) {
      k :| k < |a| && a[k] == glue;
      b := a[k := c];
      assert b[k] != a[k];
      GlueStandsForOthers(a, k, c, keep, glue);
    } else {
      k :| k < |a| && !keep(a[k]);
      b := a[k := if a[k] == c then d else c];
      assert b[k] != a[k];
      SimilarSlugs(a, b, keep, glue);
    }
  }
}
