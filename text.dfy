/** The two string primitives the evaluator is built on: JavaScript's
    `toLowerCase` (restricted to ASCII) and `includes` (plain substring
    containment, not word-boundary aware). */
module Text {

  function LowerChar(c: char): char {
    if 'A' <= c <= 'Z' then (c as int + 32) as char else c
  }

  /** ASCII lower-casing of a whole string. */
  function Lower(s: string): (r: string)
    ensures |r| == |s|
    ensures forall i :: 0 <= i < |s| ==> r[i] == LowerChar(s[i])
  {
    if s == [] then [] else [LowerChar(s[0])] + Lower(s[1..])
  }

  /** Lower-casing is idempotent, so lower-casing a keyword that is already
      lower-case (as the knowledge base stores them) changes nothing. */
  lemma LowerIdempotent(s: string)
    ensures Lower(Lower(s)) == Lower(s)
  {
    assert forall i :: 0 <= i < |s| ==> Lower(Lower(s))[i] == Lower(s)[i];
  }

  /** A string without upper-case letters is its own lower-case form. */
  lemma LowerOfLowercase(s: string)
    requires forall i :: 0 <= i < |s| ==> !('A' <= s[i] <= 'Z')
    ensures Lower(s) == s
  {
  }

  /** `needle` occurs in `hay` starting at offset `i`. */
  ghost predicate OccursAt(hay: string, needle: string, i: int) {
    0 <= i <= |hay| - |needle| && hay[i..i + |needle|] == needle
  }

  lemma OccursShift(hay: string, needle: string)
    requires |hay| > 0
    ensures forall i :: 0 <= i ==> (OccursAt(hay[1..], needle, i) <==> OccursAt(hay, needle, i + 1))
  {
    forall i | 0 <= i ensures OccursAt(hay[1..], needle, i) <==> OccursAt(hay, needle, i + 1) {
      if 0 <= i <= |hay| - 1 - |needle| {
        assert hay[1..][i..i + |needle|] == hay[i + 1..i + 1 + |needle|];
      }
    }
  }

  /** `hay.includes(needle)`: true exactly when the needle occurs at some offset.
      The empty needle occurs everywhere. */
  function Contains(hay: string, needle: string): (r: bool)
    ensures r <==> exists i :: OccursAt(hay, needle, i)
    decreases |hay|
  {
    if |needle| <= |hay| && hay[..|needle|] == needle then
      assert OccursAt(hay, needle, 0);
      true
    else if |hay| <= |needle| then
      false
    else
      OccursShift(hay, needle);
      var r := Contains(hay[1..], needle);
      assert r ==> exists i :: OccursAt(hay, needle, i) by {
        if r {
          var i :| OccursAt(hay[1..], needle, i);
          assert OccursAt(hay, needle, i + 1);
        }
      }
      assert (exists i :: OccursAt(hay, needle, i)) ==> r by {
        if exists i :: OccursAt(hay, needle, i) {
          var i :| OccursAt(hay, needle, i);
          assert i != 0 by { assert hay[..|needle|] == hay[0..|needle|]; }
          assert OccursAt(hay[1..], needle, i - 1);
        }
      }
      r
  }

  /** `needles.some(n => hay.includes(n.toLowerCase()))`. */
  function ContainsAny(hay: string, needles: seq<string>): bool {
    if needles == [] then false
    else Contains(hay, Lower(needles[0])) || ContainsAny(hay, needles[1..])
  }

  /** `some` holds exactly when one of the lower-cased needles occurs. */
  lemma {:induction false} ContainsAnyIff(hay: string, needles: seq<string>)
    ensures ContainsAny(hay, needles) <==> exists j :: 0 <= j < |needles| && Contains(hay, Lower(needles[j]))
  {
    if needles != [] {
      ContainsAnyIff(hay, needles[1..]);
      if exists j :: 0 <= j < |needles[1..]| && Contains(hay, Lower(needles[1..][j])) {
        var j :| 0 <= j < |needles[1..]| && Contains(hay, Lower(needles[1..][j]));
        assert needles[j + 1] == needles[1..][j];
      }
      if exists j :: 0 <= j < |needles| && Contains(hay, Lower(needles[j])) {
        var j :| 0 <= j < |needles| && Contains(hay, Lower(needles[j]));
        if j > 0 {
          assert needles[1..][j - 1] == needles[j];
        }
      }
    }
  }

  /** An empty needle is contained in every string, the empty one included. */
  lemma EmptyNeedleEverywhere(hay: string)
    ensures Contains(hay, "")
  {
  }
}
