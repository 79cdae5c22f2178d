/** Replicas that mirror the same requests converge (mirror/mirror.go). */
module Convergence {
  import opened Messages
  import opened Mirror

  // ---------------------------------------------------------------- locality

  /** The same result and the same subtrees. */
  ghost predicate SameEffect(a: Outcome, b: Outcome, roots: set<Path>) {
    && a.ok == b.ok
    && forall k :: Under(k, roots) ==> Get(a.tree, k) == Get(b.tree, k)
  }

  lemma UnderIsNear(roots: set<Path>)
    ensures forall k :: Under(k, roots) ==> Near(k, roots)
  {
    forall k | Under(k, roots)
      ensures Near(k, roots)
    {
      var p :| p in roots && p <= k;
      assert Related(p, k);
    }
  }

  lemma RenameLocal(t: Tree, u: Tree, from: Path, to: Path)
    requires Agree(t, u, {from, to})
    ensures SameEffect(Rename(t, from, to), Rename(u, from, to), {from, to})
  {
    var roots := {from, to};
    UnderIsNear(roots);
    AgreeAt(t, u, roots, from, from);
    AgreeAt(t, u, roots, to, to);
    AgreeParent(t, u, roots, to);
    hide Near, HasParent, Move;
    forall k | Under(k, roots)
      ensures Get(Move(t, from, to), k) == Get(Move(u, from, to), k)
    {
      MoveAt(t, from, to, k);
      MoveAt(u, from, to, k);
      if to <= k {
        AgreeAt(t, u, roots, from, from + k[|to|..]);
      }
    }
  }

  lemma CopyLocal(t: Tree, u: Tree, src: Path, dst: Path, rOff: int, wOff: int, len: int)
    requires Agree(t, u, {src, dst})
    ensures SameEffect(CopyRange(t, src, dst, rOff, wOff, len), CopyRange(u, src, dst, rOff, wOff, len), {src, dst})
  {
    UnderIsNear({src, dst});
    AgreeAt(t, u, {src, dst}, src, src);
    AgreeAt(t, u, {src, dst}, dst, dst);
    hide Near, Under, Overwrite;
  }

  /** The operations on one path. */
  lemma SingleLocal(umask: bv32, t: Tree, u: Tree, r: Request)
    requires LinkFree(r) && !r.kind.RENAME? && !r.kind.COPY_FILE_RANGE?
    requires Agree(t, u, Roots(r))
    ensures SameEffect(Apply(umask, t, r), Apply(umask, u, r), Roots(r))
  {
    var p := Components(r.metadata.relativePath);
    hide Components;
    UnderIsNear({p});
    AgreeAt(t, u, {p}, p, p);
    AgreeParent(t, u, {p}, p);
    AgreeChildren(t, u, {p}, p);
    hide Near, Under, HasParent, HasChildren, Overwrite;
  }

  /** What an operation does to its subtrees depends only on where it looks. */
  lemma Locality(umask: bv32, t: Tree, u: Tree, r: Request)
    requires LinkFree(r) && Agree(t, u, Roots(r))
    ensures SameEffect(Apply(umask, t, r), Apply(umask, u, r), Roots(r))
  {
    hide Components, Agree, SameEffect, Rename, CopyRange;
    var m := r.metadata;
    var p, q := Components(m.relativePath), Components(m.newRelativePath);
    if r.kind.RENAME? {
      RenameLocal(t, u, p, q);
    } else if r.kind.COPY_FILE_RANGE? {
      CopyLocal(t, u, p, q, m.readOffset, m.writeOffset, m.writeLen);
    } else {
      SingleLocal(umask, t, u, r);
    }
  }

  // ---------------------------------------------------------------- commutation

  lemma TreeEqual(t: Tree, u: Tree)
    requires forall k :: Get(t, k) == Get(u, k)
    ensures t == u
  {
    forall k | k in t
      ensures k in u && t[k] == u[k]
    {
      assert Get(t, k) == Get(u, k);
    }
    forall k | k in u
      ensures k in t
    {
      assert Get(t, k) == Get(u, k);
    }
  }

  /** What one request changes, a disjoint one neither changes nor looks at. */
  lemma DisjointKey(a: Request, b: Request, k: Path)
    requires Disjoint(a, b) && Near(k, Roots(a))
    ensures !Under(k, Roots(b))
  {
    hide Roots;
    if Under(k, Roots(b)) {
      var q :| q in Roots(b) && q <= k;
      var p :| p in Roots(a) && Related(p, k);
      assert Related(p, q) by { PrefixChain(p, q, k); }
    }
  }

  /** Prefixes of one path are related. */
  lemma PrefixChain(p: Path, q: Path, k: Path)
    requires q <= k && Related(p, k)
    ensures Related(p, q)
  {
    if p <= k {
      if |p| <= |q| {
        assert p == k[..|p|] && q[..|p|] == k[..|p|];
      } else {
        assert q == k[..|q|] && p[..|q|] == k[..|q|];
      }
    } else {
      assert q[..] == k[..|q|] && k == p[..|k|];
      assert q == p[..|q|];
    }
  }

  lemma DisjointSymmetric(a: Request, b: Request)
    requires Disjoint(a, b)
    ensures Disjoint(b, a)
  {
    hide Roots;
  }

  /** A disjoint request leaves everything the other looks at. */
  lemma StaysAgreed(umask: bv32, t: Tree, a: Request, b: Request)
    requires LinkFree(a) && LinkFree(b) && Disjoint(a, b)
    ensures Agree(t, Apply(umask, t, b).tree, Roots(a))
  {
    hide Apply, Roots, Disjoint, Near, Under;
    forall k | Near(k, Roots(a))
      ensures Get(t, k) == Get(Apply(umask, t, b).tree, k)
    {
      DisjointKey(a, b, k);
      Frame(umask, t, b, k);
    }
  }

  /** Disjoint requests commute, trees and results alike. */
  lemma Commute(umask: bv32, t: Tree, a: Request, b: Request)
    requires LinkFree(a) && LinkFree(b) && Disjoint(a, b)
    ensures var ta, tb := Apply(umask, t, a), Apply(umask, t, b);
            && Apply(umask, ta.tree, b).tree == Apply(umask, tb.tree, a).tree
            && Apply(umask, ta.tree, b).ok == tb.ok
            && Apply(umask, tb.tree, a).ok == ta.ok
  {
    hide Apply, Roots, Disjoint, Near, Under, Agree;
    var ta, tb := Apply(umask, t, a).tree, Apply(umask, t, b).tree;
    DisjointSymmetric(a, b);
    StaysAgreed(umask, t, a, b);
    StaysAgreed(umask, t, b, a);
    Locality(umask, t, tb, a);
    Locality(umask, t, ta, b);
    var tab, tba := Apply(umask, ta, b).tree, Apply(umask, tb, a).tree;
    UnderIsNear(Roots(a));
    UnderIsNear(Roots(b));
    forall k
      ensures Get(tab, k) == Get(tba, k)
    {
      if Under(k, Roots(a)) {
        DisjointKey(a, b, k);
        Frame(umask, ta, b, k);
      } else {
        Frame(umask, tb, a, k);
        if !Under(k, Roots(b)) {
          Frame(umask, ta, b, k);
          Frame(umask, t, a, k);
          Frame(umask, t, b, k);
        }
      }
    }
    TreeEqual(tab, tba);
  }

  // ---------------------------------------------------------------- whole histories

  function ApplyAll(umask: bv32, t: Tree, rs: seq<Request>): Tree
    requires forall r :: r in rs ==> LinkFree(r)
    decreases |rs|
  {
    if rs == [] then t
    else ApplyAll(umask, Apply(umask, t, rs[0]).tree, rs[1..])
  }

  /** Any two different requests of the history are disjoint. */
  ghost predicate PairwiseDisjoint(rs: seq<Request>) {
    forall a, b :: a in rs && b in rs && a != b ==> Disjoint(a, b)
  }

  lemma CommuteOrSame(umask: bv32, t: Tree, a: Request, b: Request)
    requires LinkFree(a) && LinkFree(b) && (a == b || Disjoint(a, b))
    ensures Apply(umask, Apply(umask, t, a).tree, b).tree == Apply(umask, Apply(umask, t, b).tree, a).tree
  {
    hide Apply, Disjoint;
    if a != b {
      Commute(umask, t, a, b);
    }
  }

  /** The list without its k-th member. */
  function Without<T>(s: seq<T>, k: nat): seq<T>
    requires k < |s|
  {
    s[..k] + s[k + 1..]
  }

  /** A request may be moved to the front of a history. */
  lemma {:induction false} MoveToFront(umask: bv32, t: Tree, rs: seq<Request>, k: nat)
    requires k < |rs| && PairwiseDisjoint(rs) && forall r :: r in rs ==> LinkFree(r)
    ensures ApplyAll(umask, t, rs) == ApplyAll(umask, Apply(umask, t, rs[k]).tree, Without(rs, k))
    decreases |rs|
  {
    hide Apply, Disjoint;
    if k == 0 {
      assert Without(rs, 0) == rs[1..];
    } else {
      var first := Apply(umask, t, rs[0]).tree;
      var rest := rs[1..];
      assert forall r :: r in rest ==> r in rs;
      MoveToFront(umask, first, rest, k - 1);
      assert rest[k - 1] == rs[k];
      assert Without(rs, k) == [rs[0]] + Without(rest, k - 1);
      CommuteOrSame(umask, t, rs[0], rs[k]);
    }
  }

  /** Where a reordering has the first request, and what is left without it. */
  lemma FindFirst(rs: seq<Request>, qs: seq<Request>) returns (k: nat)
    requires multiset(rs) == multiset(qs) && rs != []
    ensures k < |qs| && qs[k] == rs[0]
    ensures multiset(rs[1..]) == multiset(Without(qs, k))
    ensures forall r :: r in Without(qs, k) ==> r in qs
  {
    SameMembers(rs, qs);
    assert rs[0] in qs;
    k :| 0 <= k < |qs| && qs[k] == rs[0];
    WithoutOne(rs, 0);
    WithoutOne(qs, k);
    assert Without(rs, 0) == rs[1..];
  }

  lemma WithoutOne(rs: seq<Request>, k: nat)
    requires k < |rs|
    ensures multiset(Without(rs, k)) == multiset(rs) - multiset{rs[k]}
  {
    assert rs == rs[..k] + [rs[k]] + rs[k + 1..];
  }

  lemma PartIsDisjoint(rs: seq<Request>, part: seq<Request>)
    requires PairwiseDisjoint(rs) && forall r :: r in part ==> r in rs
    ensures PairwiseDisjoint(part)
  {
    hide Disjoint;
  }

  /** Convergence: replicas that start equal and mirror the same multiset of pairwise
      disjoint requests, each in its own order, end equal. */
  lemma {:induction false} Converge(umask: bv32, t: Tree, rs: seq<Request>, qs: seq<Request>)
    requires multiset(rs) == multiset(qs) && PairwiseDisjoint(rs)
    requires (forall r :: r in rs ==> LinkFree(r)) && forall r :: r in qs ==> LinkFree(r)
    ensures ApplyAll(umask, t, rs) == ApplyAll(umask, t, qs)
    decreases |rs|
  {
    hide Apply, Disjoint, PairwiseDisjoint, Without, LinkFree;
    SameMembers(rs, qs);
    if rs == [] {
    } else {
      var k := FindFirst(rs, qs);
      PartIsDisjoint(rs, rs[1..]);
      PartIsDisjoint(rs, qs);
      MoveToFront(umask, t, qs, k);
      Converge(umask, Apply(umask, t, rs[0]).tree, rs[1..], Without(qs, k));
    }
  }

  /** A replica that mirrors a history. */
  method MirrorAll(replica: Replica, rs: seq<Request>)
    requires forall r :: r in rs ==> LinkFree(r)
    modifies replica
    ensures replica.tree == ApplyAll(replica.umask, old(replica.tree), rs)
  {
    for k := 0 to |rs|
      invariant ApplyAll(replica.umask, replica.tree, rs[k..]) == ApplyAll(replica.umask, old(replica.tree), rs)
    {
      assert rs[k..][0] == rs[k] && rs[k..][1..] == rs[k + 1..];
      var ok := replica.Mirror(rs[k]);
    }
  }

  /** Two equal replicas that mirror the same disjoint requests, each in its own
      order, are equal afterwards. */
  method MirrorOnBoth(a: Replica, b: Replica, rs: seq<Request>, qs: seq<Request>)
    requires a != b && a.tree == b.tree && a.umask == b.umask
    requires multiset(rs) == multiset(qs) && PairwiseDisjoint(rs) && forall r :: r in rs ==> LinkFree(r)
    modifies a, b
    ensures a.tree == b.tree
  {
    SameMembers(rs, qs);
    Converge(a.umask, a.tree, rs, qs);
    MirrorAll(a, rs);
    MirrorAll(b, qs);
  }

  lemma SameMembers(rs: seq<Request>, qs: seq<Request>)
    requires multiset(rs) == multiset(qs)
    ensures forall r :: r in rs <==> r in qs
    ensures |rs| == |qs|
  {
    forall r
      ensures r in rs <==> r in qs
    {
      assert r in rs <==> r in multiset(rs);
      assert r in qs <==> r in multiset(qs);
    }
    assert |multiset(rs)| == |rs| && |multiset(qs)| == |qs|;
  }

  // ---------------------------------------------------------------- well-formed trees

  /** A path that does not start with `a` has a parent that does not either. */
  lemma ParentOutside(a: Path, p: Path)
    requires p != [] && !(a <= p)
    ensures !(a <= Parent(p))
  {
    assert Parent(p) <= p;
  }

  lemma MovedParent(from: Path, to: Path, p: Path)
    requires to < p
    ensures p != [] && to <= Parent(p)
    ensures var q := from + p[|to|..];
            q != [] && Parent(q) == from + Parent(p)[|to|..]
  {
    var q := from + p[|to|..];
    assert to == p[..|to|] && Parent(p)[..|to|] == p[..|to|];
    assert Parent(q) == from + Parent(p)[|to|..];
  }

  lemma MoveKeepsForm(t: Tree, from: Path, to: Path, p: Path)
    requires WellFormed(t) && from in t && HasParent(t, to) && !(from <= to) && !IsDir(t, to)
    requires Get(Move(t, from, to), p).Some? && p != []
    ensures IsDir(Move(t, from, to), Parent(p))
  {
    MoveAt(t, from, to, p);
    MoveAt(t, from, to, Parent(p));
    hide Move;
    if to < p {
      MovedParent(from, to, p);
      assert IsDir(t, Parent(from + p[|to|..]));
    } else if to == p {
      ParentOutside(from, to);
    } else {
      ParentOutside(from, p);
      ParentOutside(to, p);
      assert IsDir(t, Parent(p));
    }
  }

  lemma RenameKeepsForm(t: Tree, from: Path, to: Path)
    requires WellFormed(t)
    ensures WellFormed(Rename(t, from, to).tree)
  {
    hide Move;
    var u := Rename(t, from, to).tree;
    if u != t {
      assert from <= to ==> from < to || from == to;
      forall p | p in u && p != []
        ensures IsDir(u, Parent(p))
      {
        MoveKeepsForm(t, from, to, p);
      }
    }
  }

  /** Adding a node where there was none, or changing a file or a mode. */
  lemma PutKeepsForm(t: Tree, p: Path, node: Node)
    requires WellFormed(t) && HasParent(t, p)
    requires IsDir(t, p) ==> node.Dir?
    ensures WellFormed(t[p := node])
  {
    var u := t[p := node];
    forall k | k in u && k != []
      ensures IsDir(u, Parent(k))
    {
      if k != p {
        assert IsDir(t, Parent(k));
      } else {
        assert Parent(k) != p;
      }
    }
  }

  lemma RemoveKeepsForm(t: Tree, p: Path)
    requires WellFormed(t)
    ensures WellFormed(Remove(t, p).tree)
  {
    var u := Remove(t, p).tree;
    forall k | k in u && k != []
      ensures IsDir(u, Parent(k))
    {
      assert IsDir(t, Parent(k));
      assert Parent(k) < k;
    }
  }

  lemma PresentHasParent(t: Tree, p: Path)
    requires WellFormed(t) && p in t
    ensures HasParent(t, p)
  {
  }

  lemma WriteKeepsForm(t: Tree, p: Path, off: int, data: seq<Byte>)
    requires WellFormed(t)
    ensures WellFormed(Write(t, p, off, data).tree)
  {
    hide WellFormed, Overwrite, HasParent;
    if p in t { PresentHasParent(t, p); }
    var u := Write(t, p, off, data).tree;
    if !IsDir(t, p) && HasParent(t, p) {
      PutKeepsForm(t, p, u[p]);
    }
  }

  lemma CopyKeepsForm(t: Tree, src: Path, dst: Path, rOff: int, wOff: int, len: int)
    requires WellFormed(t)
    ensures WellFormed(CopyRange(t, src, dst, rOff, wOff, len).tree)
  {
    hide WellFormed, Overwrite, HasParent;
    if dst in t && t[dst].File? {
      PresentHasParent(t, dst);
      PutKeepsForm(t, dst, CopyRange(t, src, dst, rOff, wOff, len).tree[dst]);
      assert t[dst := t[dst]] == t;
    }
  }

  /** Every operation keeps every node inside a directory. */
  lemma ApplyKeepsForm(umask: bv32, t: Tree, r: Request)
    requires WellFormed(t) && LinkFree(r)
    ensures WellFormed(Apply(umask, t, r).tree)
  {
    hide Components, WellFormed, HasParent, Rename, Remove, Write, CopyRange;
    var m := r.metadata;
    var p, q := Components(m.relativePath), Components(m.newRelativePath);
    match r.kind
    case CREATE => if p !in t && HasParent(t, p) { PutKeepsForm(t, p, File(Perm(m.mode) & !umask, [])); }
    case MKDIR => if p !in t && HasParent(t, p) { PutKeepsForm(t, p, Dir(Perm(m.mode) & !umask)); }
    case SETATTR =>
      if p in t {
        PresentHasParent(t, p);
        PutKeepsForm(t, p, t[p].(mode := Perm(m.mode)));
      }
    case RENAME => RenameKeepsForm(t, p, q);
    case RMDIR => RemoveKeepsForm(t, p);
    case UNLINK => RemoveKeepsForm(t, p);
    case WRITE => WriteKeepsForm(t, p, m.writeOffset, r.content);
    case COPY_FILE_RANGE => CopyKeepsForm(t, p, q, m.readOffset, m.writeOffset, m.writeLen);
  }
}
