/** What several components use: the largest 64-bit number, lists without repetition, and
    sizes of sets. */
module Basics {

  const U64_MAX: nat := 0xFFFF_FFFF_FFFF_FFFF

  ghost predicate Distinct<T(!new)>(s: seq<T>) {
    forall i, j :: 0 <= i < j < |s| ==> s[i] != s[j]
  }

  lemma SubsetSize<T>(a: set<T>, b: set<T>)
    requires a <= b
    ensures |a| <= |b|
  {
    assert |b - a| + |a| == |b| by { assert b == (b - a) + a; }
  }
}
