/** Sequences without repetition. */
module Sequences {
  ghost predicate Distinct<T>(s: seq<T>) {
    forall i, j :: 0 <= i < j < |s| ==> s[i] != s[j]
  }

  /** A sequence without repetition whose elements occur in `b` is no longer than `b`. */
  lemma {:induction false} DistinctWithin<T>(a: seq<T>, b: seq<T>)
    requires Distinct(a) && forall k :: 0 <= k < |a| ==> a[k] in b
    ensures |a| <= |b|
  {
    if a != [] {
      var x := a[0];
      var i :| 0 <= i < |b| && b[i] == x;
      var b' := b[..i] + b[i + 1..];
      forall k | 0 <= k < |a[1..]| ensures a[1..][k] in b' {
        var j :| 0 <= j < |b| && b[j] == a[k + 1];
        assert j < i ==> b'[j] == a[k + 1];
        assert j > i ==> b'[j - 1] == a[k + 1];
      }
      DistinctWithin(a[1..], b');
    }
  }
}
