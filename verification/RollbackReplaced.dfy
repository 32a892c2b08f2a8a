/** Sessions with moves onto existing paths. Such a move, even one that then fails, destroys
    what was there and its row remembers nothing of it, so a rollback can settle every row
    and still leave a different tree. */
module RollbackReplaced {

  import opened Sums
  import opened Tree
  import opened SessionLog
  import opened Undo
  import opened RollbackInverts

  /** The row of a move is true of the trees around it. */
  ghost predicate MoveRow(a: FS, op: Op, b: FS) {
    && Valid(a) && Valid(b) && a.clock <= b.clock && !op.rolledBack && op.kind == Move && op.post == Incomplete
    && op.path != [] && op.path in a.tree && op.toPath != [] && op.toPath in a.tree
  }

  /** The move replaced what was at its target. */
  ghost predicate Replaces(a: FS, op: Op, b: FS) {
    && MoveRow(a, op, b) && DirAt(a, Parent(op.toPath)) && !(op.path <= op.toPath) && !(op.toPath <= op.path)
    && b.tree == Moved(a.tree, op.path, op.toPath)
  }

  /** The move was onto its own path. */
  ghost predicate MovesNowhere(a: FS, op: Op, b: FS) {
    MoveRow(a, op, b) && op.path == op.toPath && b.tree == a.tree
  }

  /** The move removed its target and then failed; its row was abandoned. */
  ghost predicate Abandons(a: FS, op: Op, b: FS) {
    && Valid(a) && Valid(b) && a.clock <= b.clock && op.rolledBack && op.kind == Move
    && op.path in a.tree && op.toPath in a.tree && op.toPath != [] && op.path != op.toPath
    && b.tree == Without(a.tree, op.toPath)
  }

  /** What one row says about the trees around its write, whatever it did to others. */
  ghost predicate Told(a: FS, op: Op, b: FS) {
    Effect(a, op, b) || Replaces(a, op, b) || MovesNowhere(a, op, b) || Abandons(a, op, b)
  }

  ghost predicate ToldHistory(fs: seq<FS>, rows: seq<Op>) {
    |fs| == |rows| + 1 && forall i :: 0 <= i < |rows| ==> Told(fs[i], rows[i], fs[i + 1])
  }

  // Counting paths: an undo that restores changes their number by exactly what the row
  // did, except that nothing brings back what a move replaced.

  function Delta(op: Op): int {
    if op.rolledBack then 0
    else match op.kind
      case Mkdir => 1
      case Move => 0
      case Delete => -1
      case _ => if op.preState.Absent? then 1 else 0
  }

  /** What lives at p and below. */
  function Below(fs: FS, p: Path): set<Path> {
    set q | q in fs.tree && p <= q
  }

  /** How many paths the row destroyed that its undo does not know of. */
  function Gone(a: FS, op: Op, b: FS): nat {
    if op.kind != Move || op.path == op.toPath || (op.rolledBack && b.tree == a.tree) then 0
    else |Below(a, op.toPath)|
  }

  lemma AddedCount<K, V>(m: map<K, V>, k: K, v: V)
    ensures |m[k := v]| == if k in m then |m| else |m| + 1
  {
    assert m[k := v].Keys == m.Keys + {k};
  }

  /** A move keeps the number of paths but for those it replaces. */
  lemma MovedCount(fs: FS, from: Path, to: Path)
    requires Valid(fs) && !(from <= to) && !(to <= from)
    ensures |Moved(fs.tree, from, to)| == |fs.tree| - |Below(fs, to)|
  {
    hide Moved, Valid;
    var kept := fs.tree.Keys - Below(fs, to);
    var m := Moved(fs.tree, from, to);
    forall q | q in kept ensures Relocate(from, to, q) in m {
      MovedAt(fs.tree, from, to, Relocate(from, to, q));
      if from <= q { RelocateBack(from, to, q); }
    }
    forall r | r in m ensures Relocate(to, from, r) in kept && Relocate(from, to, Relocate(to, from, r)) == r {
      MovedAt(fs.tree, from, to, r);
      if to <= r { RelocateBack(to, from, r); }
    }
    Bijection(kept, m.Keys, from, to);
    assert Below(fs, to) <= fs.tree.Keys;
  }

  /** Relocating back and forth pairs the two sets. */
  lemma {:induction false} Bijection(x: set<Path>, y: set<Path>, from: Path, to: Path)
    requires forall q :: q in x ==> Relocate(from, to, q) in y && Relocate(to, from, Relocate(from, to, q)) == q
    requires forall r :: r in y ==> Relocate(to, from, r) in x && Relocate(from, to, Relocate(to, from, r)) == r
    ensures |x| == |y|
    decreases |x|
  {
    hide Relocate;
    if x == {} {
      if r :| r in y { assert Relocate(to, from, r) in x; }
    } else {
      var q :| q in x;
      Bijection(x - {q}, y - {Relocate(from, to, q)}, from, to);
    }
  }

  lemma ClearedCount(fs: FS, p: Path)
    ensures |Without(fs.tree, p)| == |fs.tree| - |Below(fs, p)|
  {
    assert Without(fs.tree, p).Keys == fs.tree.Keys - Below(fs, p);
    assert Below(fs, p) <= fs.tree.Keys;
  }

  lemma ToldCount(a: FS, op: Op, b: FS)
    requires Told(a, op, b)
    ensures |b.tree| == |a.tree| + Delta(op) - Gone(a, op, b)
  {
    hide Moved;
    if op.rolledBack {
      if b.tree != a.tree { ClearedCount(a, op.toPath); }
    } else {
      match op.kind
      case Mkdir => AddedCount(a.tree, op.path, Dir);
      case Move =>
        if op.path != op.toPath { MovedCount(a, op.path, op.toPath); }
      case Delete => SizeRemove(a.tree, op.path);
      case _ => AddedCount(a.tree, op.path, b.tree[op.path]);
    }
  }

  lemma WithoutCount(fs: FS, p: Path)
    requires p in fs.tree && !Populated(fs, p)
    ensures |Without(fs.tree, p)| == |fs.tree| - 1
  {
    WithoutLeaf(fs, p);
    SizeRemove(fs.tree, p);
  }

  lemma NothingBelow(fs: FS, p: Path)
    requires Valid(fs) && p !in fs.tree
    ensures Below(fs, p) == {}
  {
    OnlyDirsArePopulated(fs, p);
    forall q | q in fs.tree ensures !(p <= q) {
      assert !(p < q);
      if |p| == |q| { assert p <= q ==> p == q; }
    }
  }

  lemma UndoMoveCount(w: World, op: Op, env: Env)
    requires Valid(w.fs) && UndoMove(w, op, env).outcome == Restored
    ensures |UndoMove(w, op, env).w.fs.tree| == |w.fs.tree|
  {
    hide Moved;
    NothingBelow(w.fs, op.path);
    MovedCount(w.fs, op.toPath, op.path);
  }

  lemma UndoMkdirCount(w: World, op: Op, env: Env)
    requires Valid(w.fs) && UndoMkdir(w, op, env).outcome == Restored
    ensures |UndoMkdir(w, op, env).w.fs.tree| == |w.fs.tree| - 1
  {
    hide Without;
    WithoutCount(w.fs, op.path);
  }

  lemma UndoDeleteCount(w: World, op: Op, env: Env)
    requires UndoDelete(w, op, env).outcome == Restored
    ensures |UndoDelete(w, op, env).w.fs.tree| == |w.fs.tree| + 1
  {
    if op.preState.WasDir? {
      AddedCount(w.fs.tree, op.path, Dir);
    } else {
      AddedCount(w.fs.tree, op.path, File(op.preBlob.value, w.fs.clock));
    }
  }

  lemma UndoCreateCount(w: World, op: Op, env: Env)
    requires Valid(w.fs) && UndoCreate(w, op, env).outcome == Restored
    ensures |UndoCreate(w, op, env).w.fs.tree| == |w.fs.tree| - 1
  {
    hide Without;
    OnlyDirsArePopulated(w.fs, op.path);
    WithoutCount(w.fs, op.path);
  }

  lemma UndoOverwriteCount(w: World, op: Op, env: Env)
    requires UndoOverwrite(w, op, env).outcome == Restored
    ensures |UndoOverwrite(w, op, env).w.fs.tree| == |w.fs.tree|
  {
    AddedCount(w.fs.tree, op.path, File(op.preBlob.value, w.fs.clock));
  }

  /** Whatever the tree, an undo that restores takes back what its row added. */
  lemma UndoCount(w: World, op: Op, env: Env)
    requires Valid(w.fs) && UndoOp(w, op, env).outcome == Restored
    ensures |UndoOp(w, op, env).w.fs.tree| == |w.fs.tree| - Delta(op)
  {
    hide UndoMove, UndoMkdir, UndoDelete, UndoCreate, UndoOverwrite;
    match op.kind
    case Mkdir => UndoMkdirCount(w, op, env);
    case Move => UndoMoveCount(w, op, env);
    case Delete => UndoDeleteCount(w, op, env);
    case _ => if op.preState.Absent? { UndoCreateCount(w, op, env); } else { UndoOverwriteCount(w, op, env); }
  }

  /** How many paths the rows [lo..hi) destroyed that no undo knows of. */
  ghost function AllGone(fs: seq<FS>, rows: seq<Op>, hi: nat, lo: nat): nat
    requires hi <= |rows| < |fs|
    decreases hi
  {
    if hi <= lo then 0 else Gone(fs[hi - 1], rows[hi - 1], fs[hi]) + AllGone(fs, rows, hi - 1, lo)
  }

  predicate AllSettled(rows: seq<Op>) {
    forall i :: 0 <= i < |rows| ==> rows[i].rolledBack
  }

  /** A run that settles every row ends with as many paths as the history started with,
      less what its moves removed. */
  lemma {:induction false} SettledCount(fs: seq<FS>, rows: seq<Op>, r: Run, hi: nat, lo: nat, env: nat -> Env)
    requires ToldHistory(fs, rows) && lo <= hi <= |rows| == |r.rows| && r.rows[..hi] == rows[..hi] && Valid(r.w.fs)
    requires AllSettled(Rollback(r, hi, lo, env).rows)
    ensures |Rollback(r, hi, lo, env).w.fs.tree| + AllGone(fs, rows, hi, lo) + |fs[hi].tree| ==
      |r.w.fs.tree| + |fs[lo].tree|
    decreases hi
  {
    hide UndoOp, Told, Valid, Gone, Delta;
    if hi > lo {
      var i := hi - 1;
      var r' := UndoRow(r, i, env(i));
      assert r.rows[i] == rows[i] by { assert r.rows[..hi][i] == rows[..hi][i]; }
      assert r'.rows[..i] == rows[..i] by { assert r'.rows[..i] == r.rows[..hi][..i]; }
      UndoValid(r.w, rows[i], env(i));
      RunFrame(r', i, lo, env);
      ToldCount(fs[i], rows[i], fs[i + 1]);
      SettledUndo(r.w, rows[i], env(i), r'.rows[i]);
      SettledCount(fs, rows, r', i, lo, env);
    }
  }

  /** A row that ends up settled was restored now or did nothing. */
  lemma SettledUndo(w: World, op: Op, env: Env, now: Op)
    requires Valid(w.fs) && now == Marked(op, UndoOp(w, op, env)) && now.rolledBack
    ensures |UndoOp(w, op, env).w.fs.tree| == |w.fs.tree| - Delta(op)
  {
    if !op.rolledBack {
      hide UndoOp;
      UndoCount(w, op, env);
    }
  }

  lemma SomethingGone(a: FS, op: Op, b: FS)
    requires Replaces(a, op, b) || Abandons(a, op, b)
    ensures Gone(a, op, b) > 0
  {
    assert op.toPath in Below(a, op.toPath);
  }

  lemma {:induction false} ReplacedIsGone(fs: seq<FS>, rows: seq<Op>, hi: nat, i: nat)
    requires ToldHistory(fs, rows) && i < hi <= |rows|
    requires Replaces(fs[i], rows[i], fs[i + 1]) || Abandons(fs[i], rows[i], fs[i + 1])
    ensures AllGone(fs, rows, hi, 0) > 0
    decreases hi
  {
    hide Told, Replaces, Abandons, Gone;
    if i == hi - 1 {
      SomethingGone(fs[i], rows[i], fs[i + 1]);
    } else {
      ReplacedIsGone(fs, rows, hi - 1, i);
    }
  }

  /** A row that moved nothing is never settled. */
  lemma NowhereConflicts(w: World, op: Op, env: Env)
    requires op.kind == Move && op.path == op.toPath && !op.rolledBack
    ensures UndoOp(w, op, env).outcome == Conflict && UndoOp(w, op, env).w == w
  {
  }

  /** Row i as a run over all rows leaves it. */
  lemma {:induction false} NowhereStays(r: Run, hi: nat, lo: nat, env: nat -> Env, i: nat)
    requires lo <= i < hi <= |r.rows| && r.rows[i].kind == Move && r.rows[i].path == r.rows[i].toPath &&
      !r.rows[i].rolledBack
    ensures !Rollback(r, hi, lo, env).rows[i].rolledBack
    decreases hi
  {
    hide UndoOp;
    var r' := UndoRow(r, hi - 1, env(hi - 1));
    if i == hi - 1 {
      NowhereConflicts(r.w, r.rows[i], env(i));
      RunFrame(r', hi - 1, lo, env);
    } else {
      NowhereStays(r', hi - 1, lo, env, i);
    }
  }

  /** Rolling back any true history: every row is settled and the tree is the one the
      history started from, exactly when no move got as far as a target that existed and
      no copied file was overwritten or deleted later. */
  lemma RollbackInvertsExactly(fs: seq<FS>, rows: seq<Op>, w: World, env: nat -> Env)
    requires ToldHistory(fs, rows) && w.fs == fs[|rows|] && Valid(w.fs) && AllBlobsKept(w, rows) && WritesSucceed(env)
    ensures var f := Rollback(Fresh(w, rows), |rows|, 0, env);
      AllSettled(f.rows) && SameTree(f.w.fs, fs[0]) <==> History(fs, rows) && CopiesIntact(rows, |rows|, 0, {})
  {
    hide Told, Effect, Valid, SameTree, CopiesIntact, AllBlobsKept, Replaces, MovesNowhere, Abandons;
    var r, n := Fresh(w, rows), |rows|;
    var f := Rollback(r, n, 0, env);
    if History(fs, rows) {
      RollbackInvertsHistory(fs, rows, w, env);
    } else if AllSettled(f.rows) {
      SettledCount(fs, rows, r, n, 0, env);
      var i := NotClean(fs, rows);
      if Replaces(fs[i], rows[i], fs[i + 1]) || Abandons(fs[i], rows[i], fs[i + 1]) {
        ReplacedIsGone(fs, rows, n, i);
        DifferentCount(f.w.fs, fs[0]);
      } else {
        NowhereIs(fs[i], rows[i], fs[i + 1]);
        NowhereStays(r, n, 0, env, i);
      }
    }
  }

  lemma NotClean(fs: seq<FS>, rows: seq<Op>) returns (i: nat)
    requires ToldHistory(fs, rows) && !History(fs, rows)
    ensures i < |rows|
    ensures Replaces(fs[i], rows[i], fs[i + 1]) || MovesNowhere(fs[i], rows[i], fs[i + 1]) ||
      Abandons(fs[i], rows[i], fs[i + 1])
  {
    hide Effect, Replaces, MovesNowhere, Abandons;
    i :| 0 <= i < |rows| && !Effect(fs[i], rows[i], fs[i + 1]);
    assert Told(fs[i], rows[i], fs[i + 1]);
  }

  lemma NowhereIs(a: FS, op: Op, b: FS)
    requires MovesNowhere(a, op, b)
    ensures op.kind == Move && op.path == op.toPath && !op.rolledBack
  {
  }

  lemma DifferentCount(s: FS, t: FS)
    requires |s.tree| != |t.tree|
    ensures !SameTree(s, t)
  {
    assert |s.tree.Keys| != |t.tree.Keys|;
  }
}
