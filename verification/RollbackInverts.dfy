/** Rollback inverts a session: undoing the rows of a clean history newest first
    restores the tree the session started from, up to the versions that the undo
    writes themselves hand out. */
module RollbackInverts {

  import opened Common
  import opened Tree
  import opened SessionLog
  import opened Undo

  /** What one row of a clean log says about the trees around its write: nothing
      outside the session changed them and the needed preimage was kept. */
  ghost predicate Effect(a: FS, op: Op, b: FS) {
    && Valid(a) && Valid(b) && a.clock <= b.clock
    && if op.rolledBack then b.tree == a.tree
       else op.path != [] && match op.kind
         case Mkdir =>
           && op.post == Incomplete
           && op.path !in a.tree && DirAt(a, Parent(op.path)) && b.tree == a.tree[op.path := Dir]
         case Move =>
           && op.post == Incomplete
           && op.path in a.tree && op.toPath != [] && op.toPath !in a.tree
           && DirAt(a, Parent(op.toPath)) && !(op.path <= op.toPath) && !(op.toPath <= op.path)
           && b.tree == Moved(a.tree, op.path, op.toPath)
         case Delete =>
           && op.post == Incomplete
           && op.path in a.tree && !Populated(a, op.path) && b.tree == a.tree - {op.path}
           && (if a.tree[op.path].Dir? then op.preState == WasDir && op.preReason == ""
               else op.preState == WasFile && op.preBlob == Some(a.tree[op.path].data))
         case _ =>
           && DirAt(a, Parent(op.path)) && FileAt(b, op.path) && b.tree[op.path].version >= a.clock
           && b.tree == a.tree[op.path := b.tree[op.path]]
           && (if op.path in a.tree
               then && a.tree[op.path].File? && op.preState == WasFile
                    && op.preBlob == Some(a.tree[op.path].data) && op.post == Content(b.tree[op.path].data)
               else && op.preState == Absent
                    && (op.post == Content(b.tree[op.path].data) || op.post == Version(b.tree[op.path].version)))
  }

  /** fs[i] is the tree before row i, fs[|rows|] the tree after the last. */
  ghost predicate History(fs: seq<FS>, rows: seq<Op>) {
    |fs| == |rows| + 1 && forall i :: 0 <= i < |rows| ==> Effect(fs[i], rows[i], fs[i + 1])
  }

  ghost predicate SameNode(s: Node, t: Node, rewritten: bool, bound: nat) {
    match t
    case Dir => s == Dir
    case File(data, v) => s.File? && s.data == data && (if rewritten then s.version >= bound else s.version == v)
  }

  /** s is t, except that the files in `rewritten` carry a version of `bound` or later. */
  ghost predicate Like(s: FS, t: FS, rewritten: set<Path>, bound: nat) {
    && Valid(s) && s.clock >= bound
    && s.tree.Keys == t.tree.Keys
    && (forall p :: p in rewritten ==> FileAt(t, p))
    && forall p :: p in t.tree ==> SameNode(s.tree[p], t.tree[p], p in rewritten, bound)
  }

  /** Same paths, directories and contents. */
  ghost predicate SameTree(s: FS, t: FS) {
    && s.tree.Keys == t.tree.Keys
    && forall p :: p in t.tree ==>
         match t.tree[p]
         case Dir => s.tree[p] == Dir
         case File(data, _) => s.tree[p].File? && s.tree[p].data == data
  }

  function MovedBack(from: Path, to: Path, after: set<Path>): set<Path> {
    set q | q in after :: Relocate(to, from, q)
  }

  /** The files an undo of `op` leaves with a version of its own, given those
      rewritten by the undos before it. */
  function Rewritten(op: Op, after: set<Path>): set<Path> {
    if op.rolledBack then after
    else match op.kind
      case Mkdir => after
      case Move => MovedBack(op.path, op.toPath, after)
      case Delete => if op.preState == WasFile then after + {op.path} else after
      case _ => if op.preState == WasFile then after + {op.path} else after - {op.path}
  }

  /** A row whose post state is a version is still recognised by its undo: the
      copied file is not overwritten or deleted later in rows [i..n). */
  predicate Intact(op: Op, after: set<Path>) {
    op.rolledBack || !op.post.Version? || op.path !in after
  }

  ghost predicate BlobsKept(w: World, op: Op) {
    op.preBlob.Some? ==> op.preBlob.value in w.blobs
  }

  ghost predicate WritesSucceed(env: nat -> Env) {
    forall i :: env(i).writeOk
  }

  /** Taking away a path that only b has. */
  lemma LikeRemoved(a: FS, b: FS, s: FS, p: Path, after: set<Path>, bound: nat)
    requires Valid(a) && p != [] && p !in a.tree && p in b.tree && b.tree == a.tree[p := b.tree[p]]
    requires Like(s, b, after, bound)
    ensures Remove(s, p, false).Ok?
    ensures Like(Remove(s, p, false).fs, a, after - {p}, bound)
  {
    OnlyDirsArePopulated(a, p);
    forall q | q in s.tree ensures !(p < q) {
      assert q == p || q in a.tree;
    }
    WithoutLeaf(s, p);
    var g := s.(tree := s.tree - {p});
    forall q | q in g.tree && q != [] ensures DirAt(g, Parent(q)) {
      assert q in a.tree && DirAt(a, Parent(q)) && Parent(q) in s.tree;
      assert SameNode(s.tree[Parent(q)], b.tree[Parent(q)], Parent(q) in after, bound);
    }
  }

  /** Writing back the content a has at p, over b's file or onto a free path. */
  lemma LikeWritten(a: FS, b: FS, s: FS, p: Path, after: set<Path>, bound: nat)
    requires Valid(a) && p != [] && FileAt(a, p) && !DirAt(b, p)
    requires forall q :: q != p ==> (q in b.tree <==> q in a.tree) && (q in a.tree ==> a.tree[q] == b.tree[q])
    requires Like(s, b, after, bound)
    ensures Write(s, p, a.tree[p].data).Ok?
    ensures Like(Write(s, p, a.tree[p].data).fs, a, after + {p}, bound)
  {
    assert DirAt(a, Parent(p)) && Parent(p) != p;
    assert SameNode(s.tree[Parent(p)], b.tree[Parent(p)], Parent(p) in after, bound);
    if p in b.tree {
      assert SameNode(s.tree[p], b.tree[p], p in after, bound);
    }
    WriteValid(s, p, a.tree[p].data);
  }

  /** Making the empty directory a has at p again. */
  lemma LikeMade(a: FS, b: FS, s: FS, p: Path, after: set<Path>, bound: nat)
    requires Valid(a) && p != [] && DirAt(a, p) && b.tree == a.tree - {p}
    requires Like(s, b, after, bound)
    ensures MakeDir(s, p).Ok?
    ensures Like(MakeDir(s, p).fs, a, after, bound)
  {
    assert DirAt(a, Parent(p)) && Parent(p) != p;
    assert SameNode(s.tree[Parent(p)], b.tree[Parent(p)], Parent(p) in after, bound);
    var g := MakeDir(s, p).fs;
    forall q | q in g.tree && q != [] ensures DirAt(g, Parent(q)) {
      if q != p { assert DirAt(s, Parent(q)); }
    }
  }

  /** One path of a tree moved there and back. */
  lemma LikeMovedAt(a: FS, b: FS, s: FS, from: Path, to: Path, after: set<Path>, bound: nat, q: Path)
    requires Valid(a) && to !in a.tree && !(from <= to) && !(to <= from)
    requires b.tree == Moved(a.tree, from, to) && Like(s, b, after, bound)
    ensures q in Moved(s.tree, to, from) <==> q in a.tree
    ensures q in a.tree ==> SameNode(Moved(s.tree, to, from)[q], a.tree[q], q in MovedBack(from, to, after), bound)
  {
    var r := Relocate(from, to, q);
    MoveBackAt(a, from, to, q);
    MovedAt(b.tree, to, from, q);
    MovedAt(s.tree, to, from, q);
    if q in a.tree {
      assert SameNode(s.tree[r], b.tree[r], r in after, bound);
      if from <= q { RelocateBack(from, to, q); }
      assert q in MovedBack(from, to, after) ==> r in after by {
        if o :| o in after && Relocate(to, from, o) == q {
          MovedAt(a.tree, from, to, o);
          if to <= o { RelocateBack(to, from, o); }
        }
      }
    }
  }

  lemma MovesBack(a: FS, b: FS, s: FS, from: Path, to: Path, after: set<Path>, bound: nat)
    requires Valid(a) && from in a.tree && to !in a.tree && from != [] && to != []
    requires !(from <= to) && !(to <= from)
    requires b.tree == Moved(a.tree, from, to) && Like(s, b, after, bound)
    ensures from !in s.tree && to in s.tree
    ensures Rename(s, to, from) == Ok(s.(tree := Moved(s.tree, to, from)))
    ensures Valid(Rename(s, to, from).fs)
  {
    MovedAt(a.tree, from, to, from);
    MovedAt(a.tree, from, to, to);
    assert from + to[|to|..] == from;
    MovedAt(a.tree, from, to, Parent(from));
    assert DirAt(a, Parent(from)) && !(to <= Parent(from));
    assert SameNode(s.tree[Parent(from)], b.tree[Parent(from)], Parent(from) in after, bound);
    MovedValid(s, to, from);
  }

  lemma LikeMoved(a: FS, b: FS, s: FS, from: Path, to: Path, after: set<Path>, bound: nat)
    requires Valid(a) && to !in a.tree && !(from <= to) && !(to <= from)
    requires b.tree == Moved(a.tree, from, to) && Like(s, b, after, bound)
    requires Valid(s.(tree := Moved(s.tree, to, from)))
    ensures Like(s.(tree := Moved(s.tree, to, from)), a, MovedBack(from, to, after), bound)
  {
    hide Moved, MovedBack, SameNode, Valid;
    var g := s.(tree := Moved(s.tree, to, from));
    forall q ensures q in g.tree <==> q in a.tree
             ensures q in a.tree ==> SameNode(g.tree[q], a.tree[q], q in MovedBack(from, to, after), bound) {
      LikeMovedAt(a, b, s, from, to, after, bound, q);
    }
    forall q | q in MovedBack(from, to, after) ensures FileAt(a, q) {
      FileMovedBack(a, b, from, to, after, q);
    }
  }

  lemma FileMovedBack(a: FS, b: FS, from: Path, to: Path, after: set<Path>, q: Path)
    requires !(from <= to) && !(to <= from) && b.tree == Moved(a.tree, from, to)
    requires (forall p :: p in after ==> FileAt(b, p)) && q in MovedBack(from, to, after)
    ensures FileAt(a, q)
  {
    hide Moved;
    var o :| o in after && q == Relocate(to, from, o);
    MovedAt(a.tree, from, to, o);
  }

  lemma UndoContent(a: FS, op: Op, b: FS, w: World, after: set<Path>, bound: nat, env: Env)
    requires Effect(a, op, b) && Like(w.fs, b, after, bound) && BlobsKept(w, op) && env.writeOk
    requires !op.rolledBack && op.kind !in {Mkdir, Move, Delete}
    ensures b.clock <= bound ==> UndoOp(w, op, env).outcome == (if Intact(op, after) then Restored else Conflict)
    ensures Intact(op, after) ==> Like(UndoOp(w, op, env).w.fs, a, Rewritten(op, after), bound)
  {
    var p := op.path;
    var u := UndoOp(w, op, env);
    assert SameNode(w.fs.tree[p], b.tree[p], p in after, bound);
    if p in a.tree {
      LikeWritten(a, b, w.fs, p, after, bound);
      assert u == UndoOverwrite(w, op, env) && u.w.fs == Write(w.fs, p, a.tree[p].data).fs;
    } else {
      LikeRemoved(a, b, w.fs, p, after, bound);
      assert u == UndoCreate(w, op, env);
      assert Intact(op, after) ==> u.w.fs == Remove(w.fs, p, false).fs;
    }
  }

  lemma UndoDeleted(a: FS, op: Op, b: FS, w: World, after: set<Path>, bound: nat, env: Env)
    requires Effect(a, op, b) && Like(w.fs, b, after, bound) && BlobsKept(w, op) && env.writeOk
    requires !op.rolledBack && op.kind == Delete
    ensures UndoOp(w, op, env).outcome == Restored
    ensures Like(UndoOp(w, op, env).w.fs, a, Rewritten(op, after), bound)
  {
    var p := op.path;
    var u := UndoOp(w, op, env);
    assert u == UndoDelete(w, op, env);
    if a.tree[p].Dir? {
      LikeMade(a, b, w.fs, p, after, bound);
      assert u.w.fs == MakeDir(w.fs, p).fs;
    } else {
      LikeWritten(a, b, w.fs, p, after, bound);
      assert u.w.fs == Write(w.fs, p, a.tree[p].data).fs;
    }
  }

  lemma UndoMadeDir(a: FS, op: Op, b: FS, w: World, after: set<Path>, bound: nat, env: Env)
    requires Effect(a, op, b) && Like(w.fs, b, after, bound) && env.writeOk
    requires !op.rolledBack && op.kind == Mkdir
    ensures UndoOp(w, op, env).outcome == Restored
    ensures Like(UndoOp(w, op, env).w.fs, a, Rewritten(op, after), bound)
  {
    var p := op.path;
    LikeRemoved(a, b, w.fs, p, after, bound);
    assert SameNode(w.fs.tree[p], b.tree[p], p in after, bound);
    assert after - {p} == after;
    assert UndoOp(w, op, env) == UndoMkdir(w, op, env);
    assert UndoOp(w, op, env).w.fs == Remove(w.fs, p, false).fs;
  }

  lemma UndoMoved(a: FS, op: Op, b: FS, w: World, after: set<Path>, bound: nat, env: Env)
    requires Effect(a, op, b) && Like(w.fs, b, after, bound) && env.writeOk
    requires !op.rolledBack && op.kind == Move
    ensures UndoOp(w, op, env).outcome == Restored
    ensures Like(UndoOp(w, op, env).w.fs, a, Rewritten(op, after), bound)
  {
    hide Like;
    MovesBack(a, b, w.fs, op.path, op.toPath, after, bound);
    LikeMoved(a, b, w.fs, op.path, op.toPath, after, bound);
    assert UndoOp(w, op, env) == UndoMove(w, op, env);
  }

  /** The undo of one clean row takes a tree like the one after it to a tree like
      the one before it, unless a version it recorded has been rewritten. */
  lemma UndoStep(a: FS, op: Op, b: FS, w: World, after: set<Path>, bound: nat, env: Env)
    requires Effect(a, op, b) && Like(w.fs, b, after, bound) && BlobsKept(w, op) && env.writeOk
    requires !op.rolledBack && b.clock <= bound
    ensures UndoOp(w, op, env).outcome == (if Intact(op, after) then Restored else Conflict)
    ensures Intact(op, after) ==> Like(UndoOp(w, op, env).w.fs, a, Rewritten(op, after), bound)
  {
    match op.kind
    case Mkdir => UndoMadeDir(a, op, b, w, after, bound, env);
    case Move => UndoMoved(a, op, b, w, after, bound, env);
    case Delete => UndoDeleted(a, op, b, w, after, bound, env);
    case _ => UndoContent(a, op, b, w, after, bound, env);
  }

  /** Every copy in rows [lo..hi) is still recognised when its turn comes, `after`
      being what the undos of later rows rewrote. */
  predicate CopiesIntact(rows: seq<Op>, hi: nat, lo: nat, after: set<Path>)
    requires hi <= |rows|
    decreases hi
  {
    hi <= lo || (Intact(rows[hi - 1], after) && CopiesIntact(rows, hi - 1, lo, Rewritten(rows[hi - 1], after)))
  }

  function RewrittenDown(rows: seq<Op>, hi: nat, lo: nat, after: set<Path>): set<Path>
    requires hi <= |rows|
    decreases hi
  {
    if hi <= lo then after else RewrittenDown(rows, hi - 1, lo, Rewritten(rows[hi - 1], after))
  }

  ghost predicate AllBlobsKept(w: World, rows: seq<Op>) {
    forall i :: 0 <= i < |rows| ==> BlobsKept(w, rows[i])
  }

  lemma UndoValid(w: World, op: Op, env: Env)
    requires Valid(w.fs)
    ensures Valid(UndoOp(w, op, env).w.fs)
  {
    var u := UndoOp(w, op, env);
    if u.w.fs != w.fs {
      match op.kind
      case Move =>
        MovedValid(w.fs, op.toPath, op.path);
      case Mkdir => RemoveValid(w.fs, op.path, false);
      case Delete =>
        if op.preState.WasDir? { MakeDirValid(w.fs, op.path); } else { WriteValid(w.fs, op.path, op.preBlob.value); }
      case _ =>
        if op.preState.Absent? {
          RemoveValid(w.fs, op.path, false);
        } else {
          WriteValid(w.fs, op.path, op.preBlob.value);
        }
    }
  }

  lemma AttemptFrame(w: World, kind: Kind, path: Path, toPath: Path, effect: Result, post: Post, env: Env)
    ensures var u := Settle(RecordAndDo(w, kind, path, toPath, "", effect, post, env));
      w.blobs <= u.w.blobs && u.w.limit == w.limit && u.w == RecordAndDo(w, kind, path, toPath, "", effect, post, env).w
  {
  }

  lemma UndoFrame(w: World, op: Op, env: Env)
    ensures w.blobs <= UndoOp(w, op, env).w.blobs && UndoOp(w, op, env).w.limit == w.limit
  {
    hide RecordAndDo, Settle, Changed, Write, Remove, Rename, MakeDir;
    AttemptFrame(w, Move, op.toPath, op.path, Rename(w.fs, op.toPath, op.path), Incomplete, env);
    AttemptFrame(w, Delete, op.path, [], Remove(w.fs, op.path, false), Incomplete, env);
    AttemptFrame(w, Mkdir, op.path, [], MakeDir(w.fs, op.path), Incomplete, env);
    if op.preBlob.Some? {
      var data := op.preBlob.value;
      AttemptFrame(w, Create, op.path, [], Write(w.fs, op.path, data), Content(data), env);
      AttemptFrame(w, Overwrite, op.path, [], Write(w.fs, op.path, data), Content(data), env);
    }
  }

  /** A run only touches the rows it walks over and never drops a blob. */
  lemma {:induction false} RunFrame(r: Run, hi: nat, lo: nat, env: nat -> Env)
    requires hi <= |r.rows|
    ensures var f := Rollback(r, hi, lo, env);
            && r.w.blobs <= f.w.blobs && f.w.limit == r.w.limit
            && (forall i :: 0 <= i < |r.rows| && !(lo <= i < hi) ==> f.rows[i] == r.rows[i])
    decreases hi
  {
    hide UndoOp;
    if hi > lo {
      UndoFrame(r.w, r.rows[hi - 1], env(hi - 1));
      RunFrame(UndoRow(r, hi - 1, env(hi - 1)), hi - 1, lo, env);
    }
  }

  /** Rows hi-1..lo of a clean history undone: the tree is the one before row lo. */
  lemma {:induction false} RestoresTo(fs: seq<FS>, rows: seq<Op>, r: Run, hi: nat, lo: nat, after: set<Path>,
                                      bound: nat, env: nat -> Env)
    requires History(fs, rows) && lo <= hi <= |rows| && |r.rows| == |rows| && r.rows[..hi] == rows[..hi]
    requires Like(r.w.fs, fs[hi], after, bound) && AllBlobsKept(r.w, rows) && WritesSucceed(env)
    requires forall i :: 0 <= i < |fs| ==> fs[i].clock <= bound
    requires CopiesIntact(rows, hi, lo, after)
    ensures var f := Rollback(r, hi, lo, env);
            && Like(f.w.fs, fs[lo], RewrittenDown(rows, hi, lo, after), bound)
            && (forall i :: lo <= i < hi ==> f.rows[i].rolledBack)
    decreases hi
  {
    hide UndoOp, Like, Effect;
    if hi > lo {
      var op := rows[hi - 1];
      var r' := UndoRow(r, hi - 1, env(hi - 1));
      assert r.rows[..hi][hi - 1] == op;
      UndoSkips(r.w, op, env(hi - 1));
      assert Effect(fs[hi - 1], op, fs[hi]);
      if !op.rolledBack {
        UndoStep(fs[hi - 1], op, fs[hi], r.w, after, bound, env(hi - 1));
      } else {
        LikeAbandoned(fs[hi - 1], op, fs[hi], r.w.fs, after, bound);
      }
      PrefixKept(r.rows, rows, hi, r'.rows[hi - 1]);
      BlobsGrow(r, hi - 1, env(hi - 1), rows);
      RestoresTo(fs, rows, r', hi - 1, lo, Rewritten(op, after), bound, env);
      RunFrame(r', hi - 1, lo, env);
    }
  }

  lemma PrefixKept(before: seq<Op>, rows: seq<Op>, hi: nat, row: Op)
    requires 0 < hi <= |rows| == |before| && before[..hi] == rows[..hi]
    ensures before[hi - 1 := row][..hi - 1] == rows[..hi - 1]
  {
    assert before[..hi][..hi - 1] == rows[..hi][..hi - 1];
  }

  /** An abandoned row changed nothing. */
  lemma LikeAbandoned(a: FS, op: Op, b: FS, s: FS, after: set<Path>, bound: nat)
    requires Effect(a, op, b) && op.rolledBack && Like(s, b, after, bound)
    ensures Like(s, a, after, bound)
  {
  }

  lemma UndoSkips(w: World, op: Op, env: Env)
    ensures op.rolledBack ==> UndoOp(w, op, env).w == w && UndoOp(w, op, env).outcome == Skipped
  {
  }

  lemma BlobsGrow(r: Run, i: nat, env: Env, rows: seq<Op>)
    requires i < |r.rows| && AllBlobsKept(r.w, rows)
    ensures AllBlobsKept(UndoRow(r, i, env).w, rows)
  {
    UndoFrame(r.w, r.rows[i], env);
  }

  /** The newest copy that was rewritten is a conflict, and stays unmarked. */
  lemma {:induction false} RewrittenCopyConflicts(fs: seq<FS>, rows: seq<Op>, r: Run, hi: nat, after: set<Path>,
                                                  bound: nat, env: nat -> Env)
    returns (i: nat)
    requires History(fs, rows) && hi <= |rows| && |r.rows| == |rows| && r.rows[..hi] == rows[..hi]
    requires Like(r.w.fs, fs[hi], after, bound) && AllBlobsKept(r.w, rows) && WritesSucceed(env)
    requires forall i :: 0 <= i < |fs| ==> fs[i].clock <= bound
    requires !CopiesIntact(rows, hi, 0, after)
    ensures i < hi && !Rollback(r, hi, 0, env).rows[i].rolledBack
    decreases hi
  {
    hide UndoOp, Like, Effect;
    var op := rows[hi - 1];
    var r' := UndoRow(r, hi - 1, env(hi - 1));
    assert r.rows[..hi][hi - 1] == op;
    UndoSkips(r.w, op, env(hi - 1));
    assert Effect(fs[hi - 1], op, fs[hi]);
    if !op.rolledBack {
      UndoStep(fs[hi - 1], op, fs[hi], r.w, after, bound, env(hi - 1));
    } else {
      LikeAbandoned(fs[hi - 1], op, fs[hi], r.w.fs, after, bound);
    }
    if !Intact(op, after) {
      i := hi - 1;
      RunFrame(r', hi - 1, 0, env);
    } else {
      PrefixKept(r.rows, rows, hi, r'.rows[hi - 1]);
      BlobsGrow(r, hi - 1, env(hi - 1), rows);
      i := RewrittenCopyConflicts(fs, rows, r', hi - 1, Rewritten(op, after), bound, env);
    }
  }

  lemma {:induction false} ClocksGrow(fs: seq<FS>, rows: seq<Op>, i: nat)
    requires History(fs, rows) && i < |fs|
    ensures fs[i].clock <= fs[|rows|].clock
    decreases |rows| - i
  {
    if i < |rows| {
      assert Effect(fs[i], rows[i], fs[i + 1]);
      ClocksGrow(fs, rows, i + 1);
    }
  }

  lemma HistoryEnds(fs: seq<FS>, rows: seq<Op>)
    requires History(fs, rows) && Valid(fs[|rows|])
    ensures Like(fs[|rows|], fs[|rows|], {}, fs[|rows|].clock)
    ensures forall i :: 0 <= i < |fs| ==> fs[i].clock <= fs[|rows|].clock
  {
    forall i | 0 <= i < |fs| ensures fs[i].clock <= fs[|rows|].clock {
      ClocksGrow(fs, rows, i);
    }
  }

  /** Rolling back a clean history from the tree it ended in settles every row
      exactly when no copied file was overwritten or deleted later, and then the
      tree is the one the history started from. */
  lemma RollbackInvertsHistory(fs: seq<FS>, rows: seq<Op>, w: World, env: nat -> Env)
    requires History(fs, rows) && w.fs == fs[|rows|] && Valid(w.fs) && AllBlobsKept(w, rows) && WritesSucceed(env)
    ensures var f := Rollback(Fresh(w, rows), |rows|, 0, env);
            && ((forall i :: 0 <= i < |rows| ==> f.rows[i].rolledBack) <==> CopiesIntact(rows, |rows|, 0, {}))
            && (CopiesIntact(rows, |rows|, 0, {}) ==> SameTree(f.w.fs, fs[0]))
  {
    var r := Fresh(w, rows);
    HistoryEnds(fs, rows);
    if CopiesIntact(rows, |rows|, 0, {}) {
      RestoresTo(fs, rows, r, |rows|, 0, {}, w.fs.clock, env);
      LikeIsSame(Rollback(r, |rows|, 0, env).w.fs, fs[0], RewrittenDown(rows, |rows|, 0, {}), w.fs.clock);
    } else {
      var i := RewrittenCopyConflicts(fs, rows, r, |rows|, {}, w.fs.clock, env);
    }
  }

  lemma LikeIsSame(s: FS, t: FS, rewritten: set<Path>, bound: nat)
    requires Like(s, t, rewritten, bound)
    ensures SameTree(s, t)
  {
    forall p | p in t.tree
      ensures match t.tree[p]
              case Dir => s.tree[p] == Dir
              case File(data, _) => s.tree[p].File? && s.tree[p].data == data
    {
      assert SameNode(s.tree[p], t.tree[p], p in rewritten, bound);
    }
  }
}
