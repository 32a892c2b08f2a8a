/** What the write tools do to the tree, told from the call, and which calls keep the
    preimage that their undo needs. */
module SessionTools {

  import opened Common
  import opened Tree
  import opened SessionLog
  import opened Undo
  import opened RollbackInverts
  import opened RollbackReplaced
  import opened RollbackHonest
  import opened SessionHistory
  import opened SessionMoves

  /** A file may be written there: over a file or in a directory. */
  predicate Writable(fs: FS, p: Path) {
    p != [] && DirAt(fs, Parent(p)) && !DirAt(fs, p)
  }

  /** The tree lets the call through. */
  predicate Doable(fs: FS, call: Call) {
    match call
    case WriteFile(mode, p, _) =>
      mode in {Create, Overwrite, Append} && Writable(fs, p) && (mode == Create ==> p !in fs.tree)
    case EditFile(p, _) => Writable(fs, p) && p in fs.tree
    case MakeDirectory(p) => Vacant(fs, p)
    case MovePath(from, to) =>
      && from != [] && to != [] && from in fs.tree && DirAt(fs, Parent(to))
      && (from == to || (!(from <= to) && !(to <= from)))
    case CopyFile(from, to) => FileAt(fs, from) && Vacant(fs, to)
    case DeletePath(p, recursive) => p != [] && p in fs.tree && (recursive || !Populated(fs, p))
  }

  /** The tree afterwards. */
  ghost predicate DoneBy(fs: FS, call: Call, g: FS) {
    match call
    case WriteFile(mode, p, data) =>
      && Holds(g, p, if mode == Append && FileAt(fs, p) then fs.tree[p].data + data else data, fs.clock)
      && SameBut(fs, g, p)
    case EditFile(p, data) => Holds(g, p, data, fs.clock) && SameBut(fs, g, p)
    case MakeDirectory(p) => DirAt(g, p) && SameBut(fs, g, p)
    case MovePath(from, to) => if from == to then g == fs else MovedTo(fs, g, from, to)
    case CopyFile(from, to) =>
      FileAt(fs, from) && Holds(g, to, fs.tree[from].data, fs.clock) && SameBut(fs, g, to)
    case DeletePath(p, _) => forall q :: if p <= q then q !in g.tree else Same(fs, q, g, q)
  }

  predicate Holds(g: FS, p: Path, data: Bytes, version: nat) {
    p in g.tree && g.tree[p] == File(data, version) && version < g.clock
  }

  /** A call is done exactly when the tree lets it through and its write does not fail, and
      then the tree is as the call asked; every other call leaves the tree alone, but for a
      move that fails. */
  lemma ToolDoes(w: World, call: Call, env: Env)
    requires Valid(w.fs)
    ensures var t := Tool(w, call, env);
      && (t.Some? && t.value.err.None? <==> Doable(w.fs, call) && env.writeOk)
      && (t.Some? && t.value.err.None? ==> DoneBy(w.fs, call, t.value.w.fs))
      && (t.Some? && t.value.err.Some? && !call.MovePath? ==> t.value.w.fs == w.fs)
      && (t.Some? ==> (t.value.row.rolledBack <==> t.value.err.Some?))
  {
    hide Capture, Kept, AppendPost, Moved, Without;
    match call
    case MovePath(from, to) => MoveDoes(w, from, to, env);
    case DeletePath(p, recursive) => DeleteDoes(w, p, recursive, env);
    case _ =>
  }

  lemma MoveDoes(w: World, from: Path, to: Path, env: Env)
    requires Valid(w.fs)
    ensures var t := Tool(w, MovePath(from, to), env);
      && (t.Some? && t.value.err.None? <==> Doable(w.fs, MovePath(from, to)) && env.writeOk)
      && (t.Some? && t.value.err.None? ==> DoneBy(w.fs, MovePath(from, to), t.value.w.fs))
      && (t.Some? ==> (t.value.row.rolledBack <==> t.value.err.Some?))
  {
    hide Moved, Capture, Kept;
    if from in w.fs.tree && from != [] { assert DirAt(w.fs, Parent(from)); }
    if !(from <= to) && !(to <= from) { MovedIs(w.fs, from, to); }
  }

  lemma DeleteDoes(w: World, p: Path, recursive: bool, env: Env)
    requires Valid(w.fs)
    ensures var call := DeletePath(p, recursive);
      var t := Tool(w, call, env);
      && (t.Some? && t.value.err.None? <==> Doable(w.fs, call) && env.writeOk)
      && (t.Some? && t.value.err.None? ==> DoneBy(w.fs, call, t.value.w.fs))
      && (t.Some? && t.value.err.Some? ==> t.value.w.fs == w.fs)
      && (t.Some? ==> (t.value.row.rolledBack <==> t.value.err.Some?))
  {
    hide Capture, Kept;
    if p in w.fs.tree && p != [] { assert DirAt(w.fs, Parent(p)); }
  }

  // Which calls keep what their undo needs.

  /** The row of a call that failed is skipped as such by every rollback, on whatever tree
      it meets. */
  lemma FailedCallIsSkipped(w: World, call: Call, env: Env, w': World, undoEnv: Env)
    requires Tool(w, call, env).Some? && Tool(w, call, env).value.err.Some?
    ensures UndoOp(w', Tool(w, call, env).value.row, undoEnv) == Undone(w', Skipped, "write_failed", [])
  {
    hide Write, Remove, Rename, MakeDir, Capture, Kept;
  }

  /** The file at the path, if there is one, is small enough and can be read. */
  predicate Capturable(w: World, p: Path, env: Env) {
    FileAt(w.fs, p) ==> |w.fs.tree[p].data| <= w.limit && env.captureOk
  }

  /** Everything but a large or unreadable file that is overwritten or deleted, and a
      directory deleted with what is in it. */
  predicate Keepable(w: World, call: Call, env: Env) {
    match call
    case WriteFile(_, p, _) => Capturable(w, p, env)
    case EditFile(p, _) => Capturable(w, p, env)
    case MakeDirectory(_) => true
    case MovePath(_, _) => true
    case CopyFile(_, _) => true
    case DeletePath(p, recursive) => Capturable(w, p, env) && !(DirAt(w.fs, p) && recursive)
  }

  /** A call keeps what its undo needs exactly when it is not done or may be kept. */
  lemma KeptExactly(w: World, call: Call, env: Env)
    requires Valid(w.fs)
    ensures KeptCall(w, call, env) <==> !(Doable(w.fs, call) && env.writeOk) || Keepable(w, call, env)
  {
    hide DoneBy, Doable, Valid;
    ToolDoes(w, call, env);
    if Tool(w, call, env).Some? { RowKept(w, call, env); }
  }

  lemma RowKept(w: World, call: Call, env: Env)
    requires Tool(w, call, env).Some? && Valid(w.fs)
    ensures KeptRow(Tool(w, call, env).value.row) <==>
      Tool(w, call, env).value.row.rolledBack || Keepable(w, call, env)
  {
    hide Moved, Without, AppendPost, Valid;
  }

  /** Every call of the session that was done may be kept. */
  ghost predicate AllKeepable(w: World, calls: seq<Call>, env: nat -> Env) {
    calls == [] ||
    (var n := |calls| - 1;
     var w' := Play(w, calls[..n], env).w;
     && AllKeepable(w, calls[..n], env)
     && (Doable(w'.fs, calls[n]) && env(n).writeOk ==> Keepable(w', calls[n], env(n))))
  }

  lemma {:induction false} SessionIsKept(w: World, calls: seq<Call>, env: nat -> Env)
    requires Valid(w.fs)
    ensures KeptSession(w, calls, env) <==> AllKeepable(w, calls, env)
    decreases |calls|
  {
    hide KeptCall, Keepable, Doable, Tool, Valid;
    if calls != [] {
      var n := |calls| - 1;
      SessionIsKept(w, calls[..n], env);
      if KeptSession(w, calls[..n], env) {
        SessionIsHistory(w, calls[..n], env);
        KeptExactly(Play(w, calls[..n], env).w, calls[n], env(n));
      }
    }
  }

  /** Whatever an agent calls, with files within the limit and readable wherever one is
      overwritten or deleted, and no directory deleted with what is in it: rollback
      settles every row and restores the starting tree, exactly when no move got as far as
      a target that existed and no copied file was overwritten or deleted later. */
  lemma RollbackInvertsCalls(w: World, calls: seq<Call>, env: nat -> Env, undoEnv: nat -> Env)
    requires Valid(w.fs) && AllKeepable(w, calls, env) && WritesSucceed(undoEnv)
    ensures var s := Play(w, calls, env);
      var f := Rollback(Fresh(s.w, s.rows), |s.rows|, 0, undoEnv);
      AllSettled(f.rows) && SameTree(f.w.fs, w.fs) <==>
        ReplacesNothing(w, calls, env) && CopiesIntact(s.rows, |s.rows|, 0, {})
  {
    hide *;
    SessionIsKept(w, calls, env);
    RollbackInvertsSession(w, calls, env, undoEnv);
  }

  /** A file above the limit that a session deletes is gone for good: rollback skips the row,
      says why, and puts nothing there. */
  lemma LargeFileStaysGone(w: World, p: Path, recursive: bool, env: nat -> Env, undoEnv: nat -> Env)
    requires Valid(w.fs) && FileAt(w.fs, p) && |w.fs.tree[p].data| > w.limit && env(0).writeOk
    ensures var s := Play(w, [DeletePath(p, recursive)], env);
      var f := Rollback(Fresh(s.w, s.rows), |s.rows|, 0, undoEnv);
      && |s.rows| == 1 && f.plan == Plan([], [Item(0, "too_large")], []) && p !in f.w.fs.tree
  {
    hide Rollback, KeptRow, Play, Trees, KeptSession;
    var call := DeletePath(p, recursive);
    assert p != [] && DirAt(w.fs, Parent(p));
    OnlyDirsArePopulated(w.fs, p);
    DeleteDoes(w, p, recursive, env(0));
    PlayOne(w, call, env);
    var s := Play(w, [call], env);
    SkipsUnkept(s.w, s.rows, undoEnv);
  }

  lemma SkipsUnkept(w: World, rows: seq<Op>, env: nat -> Env)
    requires |rows| == 1 && Unkept(rows[0]) && rows[0].preReason != ""
    ensures var f := Rollback(Fresh(w, rows), 1, 0, env);
      f.w == w && f.plan == Plan([], [Item(0, rows[0].preReason)], [])
  {
    hide UndoOp;
    UnkeptIsSkipped(w, rows[0], env(0));
    var r := UndoRow(Fresh(w, rows), 0, env(0));
    assert Rollback(r, 0, 0, env) == r;
  }
}
