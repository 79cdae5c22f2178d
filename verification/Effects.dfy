/** What each mirrored operation achieves: what reads back afterwards, and what
undoes it. The operations are those of `Mirror`. */
module Effects {
  import opened Messages
  import opened Mirror
  import opened Convergence

  // ---------------------------------------------------------------- creating and removing

  /** In a well-formed tree everything above a node exists. */
  lemma {:induction false} AncestorsExist(t: Tree, a: Path, k: Path)
    requires WellFormed(t) && a <= k && k in t
    ensures a in t
    decreases |k|
  {
    if a == k {
    } else {
      assert a <= Parent(k);
      AncestorsExist(t, a, Parent(k));
    }
  }

  /** Removing a file that was just created restores the tree; the file is empty,
      has no permission outside the mode or masked out, and creating it again
      changes nothing. */
  lemma CreateThenRemove(t: Tree, umask: bv32, p: Path, mode: bv32, again: bv32)
    requires p !in t && Create(t, umask, p, mode).ok
    ensures var t' := Create(t, umask, p, mode).tree;
            && p in t' && t'[p].File? && t'[p].content == []
            && t'[p].mode & umask == 0 && t'[p].mode | umask == Perm(mode) | umask
            && Create(t', umask, p, again) == Outcome(t', true)
            && Remove(t', p) == Outcome(t, true)
  {
    Masked(mode, umask);
    hide Perm, HasParent, HasChildren;
    var made := Create(t, umask, p, mode).tree;
    assert made == t[p := File(Perm(mode) & !umask, [])];
    assert made - {p} == t;
  }

  lemma Masked(mode: bv32, umask: bv32)
    ensures Perm(mode) & !umask & umask == 0
    ensures (Perm(mode) & !umask) | umask == Perm(mode) | umask
  {
  }

  /** Removing a directory that was just made restores the tree; making it twice fails. */
  lemma MkdirThenRemove(t: Tree, umask: bv32, p: Path, mode: bv32, again: bv32)
    requires WellFormed(t) && Mkdir(t, umask, p, mode).ok
    ensures var t' := Mkdir(t, umask, p, mode).tree;
            && p !in t && IsDir(t', p) && t'[p].mode & umask == 0 && t'[p].mode | umask == Perm(mode) | umask
            && Mkdir(t', umask, p, again) == Outcome(t', false)
            && Remove(t', p) == Outcome(t, true)
  {
    Masked(mode, umask);
    hide Perm;
    var t' := Mkdir(t, umask, p, mode).tree;
    if HasChildren(t', p) {
      var q :| q in t' && p < q;
      AncestorsExist(t, p, q);
    }
    assert t' - {p} == t;
  }

  // ---------------------------------------------------------------- renaming

  /** Renaming to a free name and back restores the tree, whole subtrees included. */
  lemma RenameBack(t: Tree, from: Path, to: Path)
    requires WellFormed(t) && to !in t && Rename(t, from, to).ok
    ensures Rename(Rename(t, from, to).tree, to, from) == Outcome(t, true)
  {
    var t' := Rename(t, from, to).tree;
    RenameBackAllowed(t, from, to);
    hide WellFormed, Rename;
    forall k
      ensures Get(Move(t', to, from), k) == Get(t, k)
    {
      MoveBackAt(t, from, to, k);
    }
    TreeEqual(Move(t', to, from), t);
  }

  lemma NotAbove(t: Tree, from: Path, to: Path)
    requires WellFormed(t) && to !in t && from in t
    ensures !(to <= from)
  {
    if to <= from {
      AncestorsExist(t, to, from);
    }
  }

  lemma RenameBackAllowed(t: Tree, from: Path, to: Path)
    requires WellFormed(t) && to !in t && Rename(t, from, to).ok
    ensures from in t && from != to && !(from < to) && Rename(t, from, to).tree == Move(t, from, to)
    ensures Rename(Rename(t, from, to).tree, to, from) == Outcome(Move(Move(t, from, to), to, from), true)
  {
    hide Move, WellFormed;
    NotAbove(t, from, to);
    assert from != [] || from < to;
    AfterMove(t, from, to);
  }

  lemma AfterMove(t: Tree, from: Path, to: Path)
    requires WellFormed(t) && from != [] && from in t && !(from <= to) && !(to <= from)
    ensures from !in Move(t, from, to) && to in Move(t, from, to)
    ensures HasParent(Move(t, from, to), from)
  {
    MoveAt(t, from, to, from);
    MoveAt(t, from, to, to);
    MoveAt(t, from, to, Parent(from));
    assert IsDir(t, Parent(from));
    hide Move, WellFormed;
    assert from + to[|to|..] == from;
    assert Get(t, from).Some?;
    assert Parent(from) <= from;
    assert to <= Parent(from) ==> to <= from;
  }

  lemma MoveBackAt(t: Tree, from: Path, to: Path, k: Path)
    requires WellFormed(t) && to !in t && from in t && from != to && !(from < to)
    ensures Get(Move(Move(t, from, to), to, from), k) == Get(t, k)
  {
    var t' := Move(t, from, to);
    MoveAt(t', to, from, k);
    if from <= k {
      MoveAt(t, from, to, to + k[|from|..]);
      assert (to + k[|from|..])[|to|..] == k[|from|..];
      assert from + k[|from|..] == k;
    } else {
      MoveAt(t, from, to, k);
      if to <= k && k in t {
        AncestorsExist(t, to, k);
      }
    }
  }

  // ---------------------------------------------------------------- contents

  /** Overwriting byte by byte: the data where it was put, the old content elsewhere,
      zeros in a gap. */
  lemma OverwriteAt(content: seq<Byte>, off: nat, data: seq<Byte>, i: nat)
    requires data != []
    ensures |Overwrite(content, off, data)| ==
            if off + |data| <= |content| then |content| else off + |data|
    ensures i < |Overwrite(content, off, data)| ==>
              Overwrite(content, off, data)[i] ==
              if off <= i < off + |data| then data[i - off]
              else if i < |content| then content[i] else 0
  {
  }

  /** A mirrored write that succeeds reads back: the file holds the data at the
      offset, zeros before it, and nothing of what it held before. */
  lemma WriteReadsBack(t: Tree, p: Path, off: int, data: seq<Byte>)
    requires Write(t, p, off, data).ok
    ensures off >= 0 && p in Write(t, p, off, data).tree && Write(t, p, off, data).tree[p].File?
    ensures var content := Write(t, p, off, data).tree[p].content;
            && |content| == (if data == [] then 0 else off + |data|)
            && (forall i :: 0 <= i < |content| ==> content[i] == if i < off then 0 else data[i - off])
    ensures p in t ==> Write(t, p, off, data).tree[p].mode == t[p].mode
  {
    var content := Write(t, p, off, data).tree[p].content;
    if data != [] {
      forall i | 0 <= i < |content|
        ensures content[i] == if i < off then 0 else data[i - off]
      {
        OverwriteAt([], off, data, i);
      }
      OverwriteAt([], off, data, 0);
    }
  }

  /** Mirrored writes do not accumulate: of two writes to one path, wherever they
      point, only the last leaves a trace. */
  lemma LastWriteWins(t: Tree, p: Path, a: int, x: seq<Byte>, b: int, y: seq<Byte>)
    ensures Write(Write(t, p, a, x).tree, p, b, y) == Write(t, p, b, y)
  {
    hide Overwrite;
    var t' := Write(t, p, a, x).tree;
    if p in t' && t'[p].File? {
      assert t'[p := File(t'[p].mode, [])] == t[p := File(t'[p].mode, [])];
      assert b >= 0 ==> t'[p := File(t'[p].mode, Overwrite([], b, y))] == t[p := File(t'[p].mode, Overwrite([], b, y))];
    }
  }

  /** A copy between two files that succeeds with something to copy: the range reads
      back at the destination, the rest of it and its mode are as before, and so is
      the source. */
  lemma CopyReadsBack(t: Tree, src: Path, dst: Path, rOff: int, wOff: int, len: int, i: nat)
    requires src in t && t[src].File? && len > 0 && CopyRange(t, src, dst, rOff, wOff, len).ok
    ensures dst in t && t[dst].File? && 0 <= rOff && 0 <= wOff && rOff + len <= |t[src].content|
    ensures var t' := CopyRange(t, src, dst, rOff, wOff, len).tree;
            && dst in t' && t'[dst].File? && t'[dst].mode == t[dst].mode
            && |t'[dst].content| == (if wOff + len <= |t[dst].content| then |t[dst].content| else wOff + len)
            && (i < len ==> t'[dst].content[wOff + i] == t[src].content[rOff + i])
            && (i < |t[dst].content| && !(wOff <= i < wOff + len) ==> t'[dst].content[i] == t[dst].content[i])
            && (src != dst ==> t'[src] == t[src])
  {
    hide CopyRange, Overwrite;
    CopyShape(t, src, dst, rOff, wOff, len);
    CopiedBytes(t[dst].content, wOff, t[src].content, rOff, len, i);
  }

  lemma CopiedBytes(before: seq<Byte>, wOff: nat, source: seq<Byte>, rOff: nat, len: nat, i: nat)
    requires 0 < len && rOff + len <= |source|
    ensures var after := Overwrite(before, wOff, source[rOff..rOff + len]);
            && |after| == (if wOff + len <= |before| then |before| else wOff + len)
            && (i < len ==> after[wOff + i] == source[rOff + i])
            && (i < |before| && !(wOff <= i < wOff + len) ==> after[i] == before[i])
  {
    var data := source[rOff..rOff + len];
    OverwriteAt(before, wOff, data, i);
    OverwriteAt(before, wOff, data, wOff + i);
    hide Overwrite;
  }

  lemma CopyShape(t: Tree, src: Path, dst: Path, rOff: int, wOff: int, len: int)
    requires src in t && t[src].File? && len > 0 && CopyRange(t, src, dst, rOff, wOff, len).ok
    ensures dst in t && t[dst].File? && 0 <= rOff && 0 <= wOff && rOff + len <= |t[src].content|
    ensures var data := t[src].content[rOff..rOff + len];
            CopyRange(t, src, dst, rOff, wOff, len).tree ==
            t[dst := File(t[dst].mode, Overwrite(t[dst].content, wOff, data))]
  {
    hide Overwrite;
    assert CopyCount(src, dst, |t[src].content|, rOff, wOff, len) == len;
  }

  // ---------------------------------------------------------------- modes

  /** The last mode stands, and nothing but the mode changes. */
  lemma LastModeStands(t: Tree, p: Path, a: bv32, b: bv32)
    ensures Chmod(Chmod(t, p, a).tree, p, b) == Chmod(t, p, b)
    ensures p in t ==> Chmod(t, p, a).tree - {p} == t - {p}
    ensures p in t ==> Chmod(Chmod(t, p, a).tree, p, t[p].mode).tree == t[p := t[p].(mode := Perm(t[p].mode))]
  {
    hide Perm;
    if p in t {
      assert Chmod(Chmod(t, p, a).tree, p, b).tree == Chmod(t, p, b).tree;
      assert Chmod(Chmod(t, p, a).tree, p, t[p].mode).tree == t[p := t[p].(mode := Perm(t[p].mode))];
    }
  }

  // ---------------------------------------------------------------- overlapping pairs

  /** A write and a mode change of one path: the order shows exactly if the write
      creates the file and the mode is not empty. */
  lemma WriteAndChmod(t: Tree, p: Path, off: int, data: seq<Byte>, mode: bv32)
    ensures Chmod(Write(t, p, off, data).tree, p, mode).tree == Write(Chmod(t, p, mode).tree, p, off, data).tree <==>
            p in t || !HasParent(t, p) || Perm(mode) == 0
  {
    hide Perm, Overwrite;
    var ab, ba := Chmod(Write(t, p, off, data).tree, p, mode).tree, Write(Chmod(t, p, mode).tree, p, off, data).tree;
    if p in t {
      assert ab == ba;
    } else if HasParent(t, p) {
      var content := if off < 0 then [] else Overwrite([], off, data);
      assert ab == t[p := File(Perm(mode), content)] && ba == t[p := File(0, content)];
      assert ab[p].mode == Perm(mode) && ba[p].mode == 0;
    }
  }

  /** A write and a removal of one path: the order shows unless the write has nowhere
      to put a file or the path is a directory that is not empty. */
  lemma WriteAndRemove(t: Tree, p: Path, off: int, data: seq<Byte>)
    ensures Remove(Write(t, p, off, data).tree, p).tree == Write(Remove(t, p).tree, p, off, data).tree <==>
            !HasParent(t, p) || (IsDir(t, p) && HasChildren(t, p))
  {
    hide Overwrite;
    var ab, ba := Remove(Write(t, p, off, data).tree, p).tree, Write(Remove(t, p).tree, p, off, data).tree;
    hide HasChildren;
    if !(IsDir(t, p) && HasChildren(t, p)) {
      assert Remove(t, p).tree == t - {p} == ab;
      assert HasParent(t - {p}, p) == HasParent(t, p);
      if HasParent(t, p) {
        assert p in ba && p !in ab;
      }
    }
  }
}
