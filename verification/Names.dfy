/** Peer names and the order Go's `<` gives them.

Go compares strings byte by byte; for UTF-8 text that is the order of the code
points, so a name is a `string` here and `Less` is the lexicographic order.
*/
module Names {

  type Name = string

  predicate Less(a: Name, b: Name)
    decreases |b|
  {
    && |b| > 0
    && (|a| == 0 || a[0] < b[0] || (a[0] == b[0] && Less(a[1..], b[1..])))
  }

  lemma {:induction false} LessIrreflexive(a: Name)
    ensures !Less(a, a)
    decreases |a|
  {
    if |a| == 0 {
    } else {
      LessIrreflexive(a[1..]);
    }
  }

  lemma {:induction false} LessTransitive(a: Name, b: Name, c: Name)
    requires Less(a, b) && Less(b, c)
    ensures Less(a, c)
    decreases |b|
  {
    if |a| == 0 || a[0] < b[0] || b[0] < c[0] {
    } else {
      LessTransitive(a[1..], b[1..], c[1..]);
    }
  }

  lemma {:induction false} LessTotal(a: Name, b: Name)
    requires a != b
    ensures Less(a, b) != Less(b, a)
    decreases |b|
  {
    if |a| == 0 || |b| == 0 || a[0] != b[0] {
    } else {
      assert a == [a[0]] + a[1..] && b == [b[0]] + b[1..];
      LessTotal(a[1..], b[1..]);
    }
  }

  /** Dictionary order, place by place: `a` runs out first, or at the first place where
      they differ `a` has the smaller character. */
  ghost predicate Precedes(a: Name, b: Name) {
    a < b || exists k: nat :: DiffersAt(a, b, k)
  }

  predicate DiffersAt(a: Name, b: Name, k: nat) {
    k < |a| && k < |b| && a[..k] == b[..k] && a[k] < b[k]
  }

  /** `Less` is dictionary order. */
  lemma {:induction false} LessIsPrecedes(a: Name, b: Name)
    ensures Less(a, b) <==> Precedes(a, b)
    decreases |b|
  {
    if |a| == 0 || |b| == 0 {
    } else if a[0] != b[0] {
      assert a[0] < b[0] ==> DiffersAt(a, b, 0);
      forall k: nat | DiffersAt(a, b, k)
        ensures a[0] < b[0]
      {
        assert k == 0 || a[..k][0] == b[..k][0];
      }
    } else {
      LessIsPrecedes(a[1..], b[1..]);
      PrecedesTail(a, b);
    }
  }

  lemma PrecedesTail(a: Name, b: Name)
    requires |a| > 0 && |b| > 0 && a[0] == b[0]
    ensures Precedes(a, b) <==> Precedes(a[1..], b[1..])
  {
    assert a == [a[0]] + a[1..] && b == [b[0]] + b[1..];
    if k: nat :| DiffersAt(a, b, k) {
      assert a[1..][..k - 1] == a[..k][1..] && b[1..][..k - 1] == b[..k][1..];
      assert DiffersAt(a[1..], b[1..], k - 1);
    }
    if k: nat :| DiffersAt(a[1..], b[1..], k) {
      assert a[..k + 1] == [a[0]] + a[1..][..k] && b[..k + 1] == [b[0]] + b[1..][..k];
      assert DiffersAt(a, b, k + 1);
    }
  }
}
