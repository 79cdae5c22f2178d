/** What a mirrored request does to the tree, kind by kind: when Mirror succeeds, and
what every path holds afterwards. */
module Requests {
  import opened Messages
  import opened Mirror
  import opened Effects

  // ---------------------------------------------------------------- paths

  /** A slash separates: what stands before it and after it count alone. */
  lemma ComponentsJoin(a: string, b: string)
    ensures Components(a + "/" + b) == Components(a) + Components(b)
  {
    SplitJoin(a, b, "");
  }

  lemma {:induction false} SplitJoin(a: string, b: string, word: string)
    ensures Split(a + "/" + b, word) == Split(a, word) + Split(b, "")
    decreases |a|
  {
    var s := a + "/" + b;
    if a == [] {
      assert s == "/" + b && s[1..] == b;
    } else {
      assert s[0] == a[0] && s[1..] == a[1..] + "/" + b;
      if a[0] == '/' {
        SplitJoin(a[1..], b, "");
      } else {
        SplitJoin(a[1..], b, word + [a[0]]);
      }
    }
  }

  /** Text without a slash is one component, unless it is empty or a single dot. */
  lemma ComponentsOfWord(w: string)
    requires '/' !in w
    ensures Components(w) == if w == "" || w == "." then [] else [w]
  {
    SplitWord(w, "");
    assert "" + w == w;
  }

  lemma {:induction false} SplitWord(s: string, word: string)
    requires '/' !in s
    ensures Split(s, word) == Word(word + s)
    decreases |s|
  {
    if s == [] {
      assert word + s == word;
    } else {
      SplitWord(s[1..], word + [s[0]]);
      assert word + [s[0]] + s[1..] == word + s;
    }
  }

  // ---------------------------------------------------------------- what a path holds

  predicate HoldsFile(t: Tree, p: Path) {
    Get(t, p).Some? && Get(t, p).value.File?
  }

  predicate HoldsDir(t: Tree, p: Path) {
    Get(t, p).Some? && Get(t, p).value.Dir?
  }

  /** Nothing is there, but something could be: what contains it is a directory. */
  predicate Vacant(t: Tree, p: Path) {
    Get(t, p) == None && InDir(t, p)
  }

  predicate InDir(t: Tree, p: Path) {
    p == [] || HoldsDir(t, p[..|p| - 1])
  }

  // ---------------------------------------------------------------- one path

  /** CREATE succeeds on a file and on a vacant path, and makes an empty file there. */
  lemma CreateRule(umask: bv32, t: Tree, r: Request, k: Path)
    requires r.kind.CREATE?
    ensures var p, out := Components(r.metadata.relativePath), Apply(umask, t, r);
            && (out.ok <==> HoldsFile(t, p) || Vacant(t, p))
            && Get(out.tree, k) ==
               if k == p && Vacant(t, p) then Some(File(r.metadata.mode & 0x1FF & !umask, [])) else Get(t, k)
  {
    hide Components;
  }

  /** MKDIR succeeds on a vacant path only, and makes a directory there. */
  lemma MkdirRule(umask: bv32, t: Tree, r: Request, k: Path)
    requires r.kind.MKDIR?
    ensures var p, out := Components(r.metadata.relativePath), Apply(umask, t, r);
            && (out.ok <==> Vacant(t, p))
            && Get(out.tree, k) ==
               if k == p && Vacant(t, p) then Some(Dir(r.metadata.mode & 0x1FF & !umask)) else Get(t, k)
  {
    hide Components;
  }

  /** RMDIR and UNLINK alike succeed on a file and on a directory with nothing below,
      and leave nothing there. */
  lemma RemoveRule(umask: bv32, t: Tree, r: Request, k: Path)
    requires r.kind.RMDIR? || r.kind.UNLINK?
    ensures var p, out := Components(r.metadata.relativePath), Apply(umask, t, r);
            && (out.ok <==> HoldsFile(t, p) || (HoldsDir(t, p) && forall q :: p < q ==> Get(t, q) == None))
            && Get(out.tree, k) == if k == p && out.ok then None else Get(t, k)
  {
    hide Components;
    var p := Components(r.metadata.relativePath);
    assert HasChildren(t, p) <==> exists q :: p < q && Get(t, q) != None by {
      if q :| q in t && p < q {
        assert Get(t, q) != None;
      }
    }
  }

  /** SETATTR succeeds wherever something is, and changes its permissions only. */
  lemma SetattrRule(umask: bv32, t: Tree, r: Request, k: Path)
    requires r.kind.SETATTR?
    ensures var p, out := Components(r.metadata.relativePath), Apply(umask, t, r);
            && (out.ok <==> Get(t, p).Some?)
            && Get(out.tree, k) ==
               if k == p && Get(t, p).Some? then Some(Get(t, p).value.(mode := r.metadata.mode & 0x1FF))
               else Get(t, k)
  {
    hide Components;
  }

  /** WRITE opens a file or a vacant path and empties it whatever the offset; at an
      offset that is not negative it succeeds, and the file holds zeros up to the
      offset and then the data. */
  lemma WriteRule(umask: bv32, t: Tree, r: Request, k: Path)
    requires r.kind.WRITE?
    ensures var p, off, out := Components(r.metadata.relativePath), r.metadata.writeOffset, Apply(umask, t, r);
            var opens := HoldsFile(t, p) || Vacant(t, p);
            && (out.ok <==> opens && off >= 0)
            && Get(out.tree, k) ==
               if k == p && opens then
                 Some(File(if HoldsFile(t, p) then Get(t, p).value.mode else 0,
                           if off < 0 || r.content == [] then [] else seq(off, _ => 0) + r.content))
               else Get(t, k)
  {
    hide Components;
    if r.metadata.writeOffset >= 0 {
      FromNothing(r.metadata.writeOffset, r.content);
    }
    hide Overwrite;
  }

  lemma FromNothing(off: nat, data: seq<Byte>)
    ensures Overwrite([], off, data) == if data == [] then [] else seq(off, _ => 0) + data
  {
    if data != [] {
      assert Overwrite([], off, data) == seq(off, _ => 0) + data;
    }
  }

  // ---------------------------------------------------------------- two paths

  /** RENAME succeeds if the old path holds something, the new one is no directory and
      lies in one that is not below the old path, and a directory does not replace a
      file. Then what was at or below the old path is at or below the new one. */
  lemma RenameRule(umask: bv32, t: Tree, r: Request, k: Path)
    requires r.kind.RENAME?
    ensures var from, to := Components(r.metadata.relativePath), Components(r.metadata.newRelativePath);
            var out := Apply(umask, t, r);
            && (out.ok <==>
                  && Get(t, from).Some? && !HoldsDir(t, to) && InDir(t, to) && !(from < to)
                  && !(HoldsDir(t, from) && HoldsFile(t, to)))
            && Get(out.tree, k) ==
               if !out.ok then Get(t, k)
               else if to <= k then Get(t, from + k[|to|..])
               else if from <= k then None
               else Get(t, k)
  {
    var from, to := Components(r.metadata.relativePath), Components(r.metadata.newRelativePath);
    hide Components, Move;
    MoveAt(t, from, to, k);
    if from == to && to <= k {
      assert from + k[|to|..] == k;
    }
  }

  /** The bytes after `data` was put over `before` at `off`. */
  ghost predicate Patched(before: seq<Byte>, off: nat, data: seq<Byte>, after: seq<Byte>) {
    && |after| == (if off + |data| <= |before| then |before| else off + |data|)
    && forall i :: 0 <= i < |after| ==>
         after[i] == if off <= i < off + |data| then data[i - off] else if i < |before| then before[i] else 0
  }

  lemma OverwritePatches(before: seq<Byte>, off: nat, data: seq<Byte>)
    requires data != []
    ensures Patched(before, off, data, Overwrite(before, off, data))
  {
    var after := Overwrite(before, off, data);
    OverwriteAt(before, off, data, 0);
    forall i | 0 <= i < |after|
      ensures after[i] == if off <= i < off + |data| then data[i - off] else if i < |before| then before[i] else 0
    {
      OverwriteAt(before, off, data, i);
    }
  }

  /** How many bytes there are to copy from `off` on. */
  function Available(content: seq<Byte>, off: nat, len: nat): nat {
    if off >= |content| then 0 else if len <= |content| - off then len else |content| - off
  }

  /** The offsets and the length can be used, and the ranges do not overlap. */
  predicate Copyable(t: Tree, src: Path, dst: Path, rOff: int, wOff: int, len: int)
    requires HoldsFile(t, src)
  {
    && rOff >= 0 && wOff >= 0 && len >= 0
    && var n := Available(Get(t, src).value.content, rOff, len);
    src == dst ==> wOff + n <= rOff || rOff + n <= wOff
  }

  /** COPY_FILE_RANGE between two files reads from the old path and writes to the new
      one: as many bytes as there are, over what the destination held. It succeeds if
      they are as many as asked for; a length of -1 equals what a failed call returns
      and passes for success. */
  lemma CopyRule(umask: bv32, t: Tree, r: Request, k: Path)
    requires r.kind.COPY_FILE_RANGE?
    ensures var src, dst := Components(r.metadata.relativePath), Components(r.metadata.newRelativePath);
            var m, out := r.metadata, Apply(umask, t, r);
            var both := HoldsFile(t, src) && HoldsFile(t, dst);
            var usable := both && Copyable(t, src, dst, m.readOffset, m.writeOffset, m.writeLen);
            var n := if usable then Available(Get(t, src).value.content, m.readOffset, m.writeLen) else 0;
            && (out.ok <==>
                  Get(t, src).Some? && HoldsFile(t, dst) && m.writeLen == if usable then n else -1)
            && (k != dst || n == 0 ==> Get(out.tree, k) == Get(t, k))
            && (n > 0 ==>
                  && HoldsFile(out.tree, dst) && Get(out.tree, dst).value.mode == Get(t, dst).value.mode
                  && Patched(Get(t, dst).value.content, m.writeOffset,
                             Get(t, src).value.content[m.readOffset..m.readOffset + n],
                             Get(out.tree, dst).value.content))
  {
    var src, dst, m := Components(r.metadata.relativePath), Components(r.metadata.newRelativePath), r.metadata;
    hide Components, Patched;
    if HoldsFile(t, src) && HoldsFile(t, dst) && m.readOffset >= 0 && m.writeOffset >= 0 && m.writeLen >= 0 {
      var n := Available(t[src].content, m.readOffset, m.writeLen);
      if n > 0 {
        OverwritePatches(t[dst].content, m.writeOffset, t[src].content[m.readOffset..m.readOffset + n]);
      }
    }
    hide Overwrite;
  }
}
