/** Entity and session identifiers, 64-bit integers, and lists without repetition. */
module Identifiers {
  newtype Id = x: int | -0x8000_0000_0000_0000 <= x < 0x8000_0000_0000_0000
  newtype SessionId = x: int | -0x8000_0000_0000_0000 <= x < 0x8000_0000_0000_0000

  ghost predicate NoDup<T>(s: seq<T>) { forall i, j :: 0 <= i < j < |s| ==> s[i] != s[j] }

  function ToSet<T(==)>(s: seq<T>): set<T> { set x | x in s }

  lemma {:induction false} NoDupSize<T>(s: seq<T>)
    requires NoDup(s)
    ensures |ToSet(s)| == |s|
  {
    if s != [] {
      var p, last := s[..|s| - 1], s[|s| - 1];
      NoDupSize(p);
      assert ToSet(s) == ToSet(p) + {last} by { assert s == p + [last]; }
      assert last !in p;
    }
  }

  lemma SubsetSize<T>(a: set<T>, b: set<T>)
    requires a <= b
    ensures |a| <= |b| && (|a| == |b| ==> a == b)
  {
    assert b == a + (b - a);
    assert |b| == |a| + |b - a|;
  }
}
