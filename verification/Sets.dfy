/** Counting facts about finite sets. */
module Sets {

  lemma {:induction false} SubsetSize<T>(a: set<T>, b: set<T>)
    requires a <= b
    ensures |a| <= |b|
    ensures |a| == |b| ==> a == b
  {
    assert b == a + (b - a);
  }

  function Members<T>(s: seq<T>): set<T> {
    set x | x in s
  }

  /** A sequence without repetitions has as many members as positions. */
  lemma {:induction false} DistinctSeqSize<T>(s: seq<T>)
    requires forall i, j :: 0 <= i < j < |s| ==> s[i] != s[j]
    ensures |Members(s)| == |s|
    decreases |s|
  {
    if |s| == 0 {
    } else {
      var front := s[..|s| - 1];
      DistinctSeqSize(front);
      assert Members(s) == Members(front) + {s[|s| - 1]};
    }
  }
}
