/** Mirrored file operations over a map from paths to nodes (mirror/mirror.go).

The tree has no links, the permission bits are stored and never enforced, and a
system call has its full effect or fails.
*/
module Mirror {
  import opened Messages

  // ---------------------------------------------------------------- paths and trees

  /** A cleaned path below the mirror directory, component by component. */
  type Path = seq<string>

  datatype Node = File(mode: bv32, content: seq<Byte>) | Dir(mode: bv32)

  type Tree = map<Path, Node>

  /** The components between slashes, empty ones and "." dropped. */
  function Components(s: string): Path {
    Split(s, "")
  }

  function Split(s: string, word: string): Path
    decreases |s|
  {
    if s == [] then Word(word)
    else if s[0] == '/' then Word(word) + Split(s[1..], "")
    else Split(s[1..], word + [s[0]])
  }

  function Word(word: string): Path {
    if word == "" || word == "." then [] else [word]
  }

  function Get(t: Tree, p: Path): Option<Node> {
    if p in t then Some(t[p]) else None
  }

  function Parent(p: Path): Path
    requires p != []
  {
    p[..|p| - 1]
  }

  predicate IsDir(t: Tree, p: Path) {
    p in t && t[p].Dir?
  }

  /** A new node may be placed at `p`. */
  predicate HasParent(t: Tree, p: Path) {
    p == [] || IsDir(t, Parent(p))
  }

  predicate HasChildren(t: Tree, p: Path) {
    exists q :: q in t && p < q
  }

  /** Every node but the root lies in a directory. */
  ghost predicate WellFormed(t: Tree) {
    forall p :: p in t && p != [] ==> IsDir(t, Parent(p))
  }

  // ---------------------------------------------------------------- the operations

  /** The tree afterwards and whether the call returned no error. */
  datatype Outcome = Outcome(tree: Tree, ok: bool)

  function Perm(mode: bv32): bv32 {
    mode & 0x1FF
  }

  function Create(t: Tree, umask: bv32, p: Path, mode: bv32): Outcome {
    if p in t then Outcome(t, t[p].File?)
    else if !HasParent(t, p) then Outcome(t, false)
    else Outcome(t[p := File(Perm(mode) & !umask, [])], true)
  }

  function Mkdir(t: Tree, umask: bv32, p: Path, mode: bv32): Outcome {
    if p in t || !HasParent(t, p) then Outcome(t, false)
    else Outcome(t[p := Dir(Perm(mode) & !umask)], true)
  }

  function Remove(t: Tree, p: Path): Outcome {
    if p !in t || (t[p].Dir? && HasChildren(t, p)) then Outcome(t, false)
    else Outcome(t - {p}, true)
  }

  function Chmod(t: Tree, p: Path, mode: bv32): Outcome {
    if p !in t then Outcome(t, false)
    else Outcome(t[p := t[p].(mode := Perm(mode))], true)
  }

  function Zeros(n: nat): seq<Byte> {
    seq(n, _ => 0)
  }

  /** Write `data` at `off`, filling a gap with zeros; writing nothing changes nothing. */
  function Overwrite(content: seq<Byte>, off: nat, data: seq<Byte>): seq<Byte> {
    if data == [] then content
    else
      (if off <= |content| then content[..off] else content + Zeros(off - |content|))
      + data
      + (if off + |data| <= |content| then content[off + |data|..] else [])
  }

  /** Open with truncation, then write; a bad offset is noticed after truncation. */
  function Write(t: Tree, p: Path, off: int, data: seq<Byte>): Outcome {
    if IsDir(t, p) || (p !in t && !HasParent(t, p)) then Outcome(t, false)
    else
      var mode := if p in t then t[p].mode else 0;
      if off < 0 then Outcome(t[p := File(mode, [])], false)
      else Outcome(t[p := File(mode, Overwrite([], off, data))], true)
  }

  /** How many bytes copy_file_range moves, or -1. */
  function CopyCount(src: Path, dst: Path, size: nat, rOff: int, wOff: int, len: int): int {
    if rOff < 0 || wOff < 0 || len < 0 then -1
    else
      var n := if rOff >= size then 0 else if len <= size - rOff then len else size - rOff;
      if src == dst && wOff + n > rOff && wOff < rOff + n then -1 else n
  }

  function CopyRange(t: Tree, src: Path, dst: Path, rOff: int, wOff: int, len: int): Outcome {
    if src !in t || dst !in t || t[dst].Dir? then Outcome(t, false)
    else if t[src].Dir? then Outcome(t, len == -1)
    else
      var n := CopyCount(src, dst, |t[src].content|, rOff, wOff, len);
      if n <= 0 then Outcome(t, n == len)
      else
        var data := t[src].content[rOff..rOff + n];
        Outcome(t[dst := File(t[dst].mode, Overwrite(t[dst].content, wOff, data))], n == len)
  }

  /** Everything under `from`, now under `to`. */
  function Move(t: Tree, from: Path, to: Path): Tree {
    var places := set q | q in t && from <= q :: to + q[|from|..];
    (map q | q in t && !(from <= q) && !(to <= q) :: t[q])
    + (map k | k in places && to <= k && from + k[|to|..] in t :: t[from + k[|to|..]])
  }

  function Rename(t: Tree, from: Path, to: Path): Outcome {
    if IsDir(t, to) || from !in t || !HasParent(t, to) || from < to then Outcome(t, false)
    else if from == to then Outcome(t, true)
    else if to in t && t[from].Dir? then Outcome(t, false)
    else Outcome(Move(t, from, to), true)
  }

  /** `Mirror`, by request type; links are not modelled. */
  function Apply(umask: bv32, t: Tree, r: Request): Outcome
    requires LinkFree(r)
  {
    var m := r.metadata;
    var p, q := Components(m.relativePath), Components(m.newRelativePath);
    match r.kind
    case CREATE => Create(t, umask, p, m.mode)
    case MKDIR => Mkdir(t, umask, p, m.mode)
    case RENAME => Rename(t, p, q)
    case RMDIR => Remove(t, p)
    case UNLINK => Remove(t, p)
    case SETATTR => Chmod(t, p, m.mode)
    case WRITE => Write(t, p, m.writeOffset, r.content)
    case COPY_FILE_RANGE => CopyRange(t, p, q, m.readOffset, m.writeOffset, m.writeLen)
  }

  predicate LinkFree(r: Request) {
    !r.kind.LINK? && !r.kind.SYMLINK?
  }

  class Replica {
    const umask: bv32
    var tree: Tree

    constructor (umask: bv32, tree: Tree)
      ensures this.umask == umask && this.tree == tree
    {
      this.umask, this.tree := umask, tree;
    }

    method Mirror(r: Request) returns (ok: bool)
      requires LinkFree(r)
      modifies this
      ensures Outcome(tree, ok) == Apply(umask, old(tree), r)
    {
      var m := r.metadata;
      var p, q := Components(m.relativePath), Components(m.newRelativePath);
      var out: Outcome;
      match r.kind {
        case CREATE => out := Create(tree, umask, p, m.mode);
        case MKDIR => out := Mkdir(tree, umask, p, m.mode);
        case RENAME => out := Rename(tree, p, q);
        case RMDIR => out := Remove(tree, p);
        case UNLINK => out := Remove(tree, p);
        case SETATTR => out := Chmod(tree, p, m.mode);
        case WRITE => out := Write(tree, p, m.writeOffset, r.content);
        case COPY_FILE_RANGE => out := CopyRange(tree, p, q, m.readOffset, m.writeOffset, m.writeLen);
      }
      tree, ok := out.tree, out.ok;
    }
  }

  // ---------------------------------------------------------------- footprints

  predicate Related(p: Path, q: Path) {
    p <= q || q <= p
  }

  function Roots(r: Request): set<Path> {
    var p, q := Components(r.metadata.relativePath), Components(r.metadata.newRelativePath);
    if r.kind.RENAME? || r.kind.COPY_FILE_RANGE? then {p, q} else {p}
  }

  /** No path of one request is a prefix of a path of the other. */
  predicate Disjoint(a: Request, b: Request) {
    forall p, q :: p in Roots(a) && q in Roots(b) ==> !Related(p, q)
  }

  /** At or below a path the request names: all it can change. */
  predicate Under(k: Path, roots: set<Path>) {
    exists p :: p in roots && p <= k
  }

  /** Above, at or below such a path: all it looks at. */
  predicate Near(k: Path, roots: set<Path>) {
    exists p :: p in roots && Related(p, k)
  }

  /** The two trees agree wherever the request looks. */
  ghost predicate Agree(t: Tree, u: Tree, roots: set<Path>) {
    forall k :: Near(k, roots) ==> Get(t, k) == Get(u, k)
  }

  lemma AgreeAt(t: Tree, u: Tree, roots: set<Path>, p: Path, k: Path)
    requires Agree(t, u, roots) && p in roots && Related(p, k)
    ensures Get(t, k) == Get(u, k)
    ensures k in t <==> k in u
    ensures k in t ==> t[k] == u[k]
  {
    assert Near(k, roots);
  }

  lemma AgreeParent(t: Tree, u: Tree, roots: set<Path>, p: Path)
    requires Agree(t, u, roots) && p in roots
    ensures HasParent(t, p) == HasParent(u, p)
  {
    if p != [] {
      AgreeAt(t, u, roots, p, Parent(p));
    }
  }

  lemma AgreeChildren(t: Tree, u: Tree, roots: set<Path>, p: Path)
    requires Agree(t, u, roots) && p in roots
    ensures HasChildren(t, p) == HasChildren(u, p)
  {
    if q :| q in t && p < q {
      AgreeAt(t, u, roots, p, q);
      assert q in u && p < q;
    }
    if q :| q in u && p < q {
      AgreeAt(t, u, roots, p, q);
      assert q in t && p < q;
    }
  }

  lemma MoveAt(t: Tree, from: Path, to: Path, k: Path)
    ensures Get(Move(t, from, to), k) ==
            if to <= k then Get(t, from + k[|to|..])
            else if from <= k then None
            else Get(t, k)
  {
    if to <= k && from + k[|to|..] in t {
      var q := from + k[|to|..];
      assert q[|from|..] == k[|to|..] && to + q[|from|..] == k;
    }
  }

  lemma RenameFrame(t: Tree, from: Path, to: Path, k: Path)
    requires !(from <= k) && !(to <= k)
    ensures Get(Rename(t, from, to).tree, k) == Get(t, k)
  {
    MoveAt(t, from, to, k);
    hide Move, HasParent;
  }

  lemma CopyFrame(t: Tree, src: Path, dst: Path, rOff: int, wOff: int, len: int, k: Path)
    requires !(dst <= k)
    ensures Get(CopyRange(t, src, dst, rOff, wOff, len).tree, k) == Get(t, k)
  {
    hide Overwrite;
  }

  lemma WriteFrame(t: Tree, p: Path, off: int, data: seq<Byte>, k: Path)
    requires !(p <= k)
    ensures Get(Write(t, p, off, data).tree, k) == Get(t, k)
  {
    hide Overwrite, HasParent;
  }

  /** An operation changes nothing outside the subtrees it names. */
  lemma Frame(umask: bv32, t: Tree, r: Request, k: Path)
    requires LinkFree(r) && !Under(k, Roots(r))
    ensures Get(Apply(umask, t, r).tree, k) == Get(t, k)
  {
    hide Components, Rename, CopyRange, Write, HasParent, HasChildren;
    var m := r.metadata;
    var p, q := Components(m.relativePath), Components(m.newRelativePath);
    assert p in Roots(r) && !(p <= k);
    if r.kind.RENAME? {
      assert q in Roots(r);
      RenameFrame(t, p, q, k);
    } else if r.kind.COPY_FILE_RANGE? {
      assert q in Roots(r);
      CopyFrame(t, p, q, m.readOffset, m.writeOffset, m.writeLen, k);
    } else if r.kind.WRITE? {
      WriteFrame(t, p, m.writeOffset, r.content, k);
    }
  }
}
