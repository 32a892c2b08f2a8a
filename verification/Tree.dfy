/** The slice of the virtual filesystem that preimage capture and rollback see:
    a tree of directories and files addressed by path components. Every content
    write gives the file a version never used before. */
module Tree {

  import opened Common

  type Path = seq<string>

  datatype Node = Dir | File(data: Bytes, version: nat)

  /** `clock` is the next unused version. */
  datatype FS = FS(tree: map<Path, Node>, clock: nat)

  datatype Err = NotFound | Exists | NotEmpty | IsDir | NotDir | Invalid | IO

  datatype Result = Ok(fs: FS) | Fail(err: Err)

  function Parent(p: Path): Path
    requires p != []
  {
    p[..|p| - 1]
  }

  predicate DirAt(fs: FS, p: Path) {
    p in fs.tree && fs.tree[p].Dir?
  }

  predicate FileAt(fs: FS, p: Path) {
    p in fs.tree && fs.tree[p].File?
  }

  /** Something lives strictly below p. */
  predicate Populated(fs: FS, p: Path) {
    exists q :: q in fs.tree && p < q
  }

  ghost predicate Valid(fs: FS) {
    && DirAt(fs, [])
    && (forall p {:trigger Parent(p)} :: p in fs.tree && p != [] ==> DirAt(fs, Parent(p)))
    && (forall p :: FileAt(fs, p) ==> fs.tree[p].version < fs.clock)
  }

  function Write(fs: FS, p: Path, data: Bytes): Result {
    if p == [] then Fail(IsDir)
    else if Parent(p) !in fs.tree then Fail(NotFound)
    else if !DirAt(fs, Parent(p)) then Fail(NotDir)
    else if DirAt(fs, p) then Fail(IsDir)
    else Ok(FS(fs.tree[p := File(data, fs.clock)], fs.clock + 1))
  }

  function MakeDir(fs: FS, p: Path): Result {
    if p in fs.tree || p == [] then Fail(Exists)
    else if Parent(p) !in fs.tree then Fail(NotFound)
    else if !DirAt(fs, Parent(p)) then Fail(NotDir)
    else Ok(fs.(tree := fs.tree[p := Dir]))
  }

  function Without(tree: map<Path, Node>, p: Path): map<Path, Node> {
    map q | q in tree && !(p <= q) :: tree[q]
  }

  function Remove(fs: FS, p: Path, recursive: bool): Result {
    if p == [] then Fail(Invalid)
    else if p !in fs.tree then Fail(NotFound)
    else if !recursive && Populated(fs, p) then Fail(NotEmpty)
    else Ok(fs.(tree := Without(fs.tree, p)))
  }

  /** Where a path ends up when `from` is moved to `to`. */
  function Relocate(from: Path, to: Path, q: Path): Path {
    if from <= q then to + q[|from|..] else q
  }

  /** The tree after `from` and everything below it moved to `to`, replacing
      whatever was there. */
  function Moved(tree: map<Path, Node>, from: Path, to: Path): map<Path, Node>
    requires !(from <= to) && !(to <= from)
  {
    var stay := set q | q in tree && !(from <= q) && !(to <= q);
    var arrive := set q | q in tree && from <= q :: Relocate(from, to, q);
    map r | r in stay + arrive && Relocate(to, from, r) in tree :: tree[Relocate(to, from, r)]
  }

  function Rename(fs: FS, from: Path, to: Path): Result {
    if from !in fs.tree then Fail(NotFound)
    else if from == to then Ok(fs)
    else if from <= to || to <= from then Fail(Invalid)
    else if Parent(to) !in fs.tree then Fail(NotFound)
    else if !DirAt(fs, Parent(to)) then Fail(NotDir)
    else Ok(fs.(tree := Moved(fs.tree, from, to)))
  }

  /** What a move that fails may have done already: the target is removed before anything
      is moved, unless it is the source itself. */
  function Cleared(fs: FS, from: Path, to: Path): FS {
    if from in fs.tree && to in fs.tree && to != from && to != [] then fs.(tree := Without(fs.tree, to)) else fs
  }

  /** A server-side copy onto an absent path. */
  function Copy(fs: FS, from: Path, to: Path): Result {
    if !FileAt(fs, from) then Fail(NotFound)
    else if to in fs.tree then Fail(Exists)
    else Write(fs, to, fs.tree[from].data)
  }

  lemma RelocateBack(from: Path, to: Path, q: Path)
    requires from <= q
    ensures to <= Relocate(from, to, q)
    ensures Relocate(to, from, Relocate(from, to, q)) == q
  {
    assert Relocate(from, to, q)[|to|..] == q[|from|..];
  }

  /** In a valid tree every path above an existing one is a directory. */
  lemma AncestorsAreDirs(fs: FS, p: Path, q: Path)
    requires Valid(fs) && q in fs.tree && p < q
    ensures DirAt(fs, p)
    decreases |q|
  {
    if p != Parent(q) {
      AncestorsAreDirs(fs, p, Parent(q));
    }
  }

  /** Nothing lives below a file or below an absent path. */
  lemma OnlyDirsArePopulated(fs: FS, p: Path)
    requires Valid(fs) && !DirAt(fs, p)
    ensures !Populated(fs, p)
  {
    if Populated(fs, p) {
      var q :| q in fs.tree && p < q;
      AncestorsAreDirs(fs, p, q);
    }
  }

  lemma WithoutLeaf(fs: FS, p: Path)
    requires !Populated(fs, p)
    ensures Without(fs.tree, p) == fs.tree - {p}
  {
    forall q | q in fs.tree && q != p ensures !(p <= q) {
      assert !(p < q);
    }
  }

  /** What a moved tree holds at one path. */
  lemma MovedAt(tree: map<Path, Node>, from: Path, to: Path, r: Path)
    requires !(from <= to) && !(to <= from)
    ensures r in Moved(tree, from, to) <==> Relocate(to, from, r) in tree && (to <= r || !(from <= r))
    ensures r in Moved(tree, from, to) ==> Moved(tree, from, to)[r] == tree[Relocate(to, from, r)]
  {
    if to <= r {
      RelocateBack(to, from, r);
    }
  }

  /** Moving back undoes a move onto an absent path, at every path. */
  lemma MoveBackAt(fs: FS, from: Path, to: Path, q: Path)
    requires Valid(fs) && to !in fs.tree && !(from <= to) && !(to <= from)
    ensures var b := Moved(Moved(fs.tree, from, to), to, from);
            (q in b <==> q in fs.tree) && (q in b ==> b[q] == fs.tree[q])
  {
    var r := Relocate(from, to, q);
    MovedAt(Moved(fs.tree, from, to), to, from, q);
    MovedAt(fs.tree, from, to, r);
    if from <= q {
      RelocateBack(from, to, q);
    } else if to <= q && q in fs.tree {
      assert to != q && |to| < |q|;
      AncestorsAreDirs(fs, to, q);
    }
  }

  /** A move onto an absent path of an existing directory keeps the tree valid. */
  lemma MovedValid(fs: FS, from: Path, to: Path)
    requires Valid(fs) && from in fs.tree && from != [] && to != []
    requires to !in fs.tree && DirAt(fs, Parent(to)) && !(from <= to)
    ensures !(to <= from)
    ensures Valid(fs.(tree := Moved(fs.tree, from, to)))
  {
    if to <= from { AncestorsAreDirs(fs, to, from); }
    var g := fs.(tree := Moved(fs.tree, from, to));
    MovedAt(fs.tree, from, to, []);
    forall q | q in g.tree ensures q != [] ==> DirAt(g, Parent(q)) {
      if q != [] { MovedParent(fs, from, to, q); }
    }
    forall q | FileAt(g, q) ensures g.tree[q].version < g.clock {
      MovedAt(fs.tree, from, to, q);
    }
  }

  lemma MovedParent(fs: FS, from: Path, to: Path, q: Path)
    requires Valid(fs) && from != [] && to != []
    requires DirAt(fs, Parent(to)) && !(from <= to) && !(to <= from)
    requires q != [] && q in Moved(fs.tree, from, to)
    ensures DirAt(fs.(tree := Moved(fs.tree, from, to)), Parent(q))
  {
    MovedAt(fs.tree, from, to, q);
    MovedAt(fs.tree, from, to, Parent(q));
    if to <= q && q != to {
      assert to <= Parent(q);
      assert Relocate(to, from, Parent(q)) == Parent(Relocate(to, from, q));
    } else if q == to {
      assert !(from <= Parent(to));
    } else {
      assert !(from <= Parent(q));
    }
  }

  lemma WriteValid(fs: FS, p: Path, data: Bytes)
    requires Valid(fs) && Write(fs, p, data).Ok?
    ensures Valid(Write(fs, p, data).fs)
  {
    var g := Write(fs, p, data).fs;
    forall q | q in g.tree && q != [] ensures DirAt(g, Parent(q)) {
      assert DirAt(fs, Parent(q));
    }
  }

  lemma RemoveValid(fs: FS, p: Path, recursive: bool)
    requires Valid(fs) && Remove(fs, p, recursive).Ok?
    ensures Valid(Remove(fs, p, recursive).fs)
  {
    var g := Remove(fs, p, recursive).fs;
    forall q | q in g.tree && q != [] ensures DirAt(g, Parent(q)) {
      assert DirAt(fs, Parent(q)) && !(p <= Parent(q));
    }
  }

  lemma MakeDirValid(fs: FS, p: Path)
    requires Valid(fs) && MakeDir(fs, p).Ok?
    ensures Valid(MakeDir(fs, p).fs)
  {
    var g := MakeDir(fs, p).fs;
    forall q | q in g.tree && q != [] ensures DirAt(g, Parent(q)) {
      if q != p { assert DirAt(fs, Parent(q)); }
    }
  }
}
