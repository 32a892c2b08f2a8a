/** What an undo does on any tree whatever, for any row: exactly when it restores, what it
    restores, and that nothing comes out of a rollback that was not there before or kept. */
module RollbackHonest {

  import opened Common
  import opened Tree
  import opened SessionLog
  import opened Undo
  import opened RollbackInverts

  /** The file at the path is still what the row says was written. */
  predicate Untouched(fs: FS, op: Op) {
    && FileAt(fs, op.path)
    && match op.post
       case Incomplete => false
       case Content(c) => fs.tree[op.path].data == c
       case Version(v) => fs.tree[op.path].version == v
  }

  /** The row has a preimage and the blob is on disk. */
  predicate HasPreimage(w: World, op: Op) {
    op.preBlob.Some? && op.preBlob.value in w.blobs
  }

  /** A place where something may be put: not taken, and in a directory. */
  predicate Vacant(fs: FS, p: Path) {
    p !in fs.tree && p != [] && DirAt(fs, Parent(p))
  }

  /** The undo of the row can be done. */
  predicate Undoable(w: World, op: Op) {
    !op.rolledBack && match op.kind
      case Move => Vacant(w.fs, op.path) && op.toPath in w.fs.tree && !(op.toPath <= op.path)
      case Mkdir => op.path != [] && DirAt(w.fs, op.path) && !Populated(w.fs, op.path)
      case Delete =>
        Vacant(w.fs, op.path) &&
          ((op.preState.WasDir? && op.preReason == "") || (op.preState.WasFile? && HasPreimage(w, op)))
      case _ => Untouched(w.fs, op) && (op.preState.Absent? || (op.preState.WasFile? && HasPreimage(w, op)))
  }

  /** What is at the path before the row, as the row remembers it. */
  predicate BackAt(op: Op, g: FS) {
    match op.kind
    case Mkdir => op.path !in g.tree
    case Delete =>
      if op.preState.WasDir? then DirAt(g, op.path)
      else FileAt(g, op.path) && op.preBlob == Some(g.tree[op.path].data)
    case _ =>
      if op.preState.Absent? then op.path !in g.tree
      else FileAt(g, op.path) && op.preBlob == Some(g.tree[op.path].data)
  }

  ghost predicate SameBut(fs: FS, g: FS, p: Path) {
    forall q :: q != p ==> (q in g.tree <==> q in fs.tree) && (q in g.tree ==> g.tree[q] == fs.tree[q])
  }

  lemma RemoveLeaf(fs: FS, p: Path)
    requires p != [] && p in fs.tree && !Populated(fs, p)
    ensures Remove(fs, p, false) == Ok(fs.(tree := fs.tree - {p}))
  {
    WithoutLeaf(fs, p);
  }

  /** Row by row, on any tree: the undo reports success exactly when it can be done and its
      write does not fail; then the path is as the row remembers it and everything else is
      as it was. Otherwise the tree is left alone. */
  lemma RestoresExactly(w: World, op: Op, env: Env)
    requires Valid(w.fs) && op.kind != Move
    ensures var u := UndoOp(w, op, env);
      && (u.outcome == Restored <==> Undoable(w, op) && env.writeOk)
      && (if u.outcome == Restored then BackAt(op, u.w.fs) && SameBut(w.fs, u.w.fs, op.path) else u.w.fs == w.fs)
  {
    hide Without;
    if op.path in w.fs.tree && !Populated(w.fs, op.path) && op.path != [] { RemoveLeaf(w.fs, op.path); }
    if !op.rolledBack {
      match op.kind
      case Mkdir =>
      case Delete => DeleteRestores(w, op, env);
      case _ => ContentRestores(w, op, env);
    }
  }

  lemma DeleteRestores(w: World, op: Op, env: Env)
    requires Valid(w.fs) && op.kind == Delete && !op.rolledBack
    ensures var u := UndoOp(w, op, env);
      && (u.outcome == Restored <==> Undoable(w, op) && env.writeOk)
      && (if u.outcome == Restored then BackAt(op, u.w.fs) && SameBut(w.fs, u.w.fs, op.path) else u.w.fs == w.fs)
  {
  }

  lemma UntouchedIs(fs: FS, op: Op)
    ensures Changed(fs, op) == "" <==> Untouched(fs, op)
    ensures Untouched(fs, op) ==> FileAt(fs, op.path)
  {
  }

  lemma ContentRestores(w: World, op: Op, env: Env)
    requires Valid(w.fs) && op.kind !in {Move, Mkdir, Delete} && !op.rolledBack
    ensures var u := UndoOp(w, op, env);
      && (u.outcome == Restored <==> Undoable(w, op) && env.writeOk)
      && (if u.outcome == Restored then BackAt(op, u.w.fs) && SameBut(w.fs, u.w.fs, op.path) else u.w.fs == w.fs)
  {
    hide Without, Changed, Untouched, Capture, Kept;
    UntouchedIs(w.fs, op);
    if FileAt(w.fs, op.path) {
      OnlyDirsArePopulated(w.fs, op.path);
      RemoveLeaf(w.fs, op.path);
      assert DirAt(w.fs, Parent(op.path));
    }
  }

  /** What was at `from` and below it is at `to`, and nothing else has changed. */
  ghost predicate MovedTo(fs: FS, g: FS, from: Path, to: Path) {
    forall q :: if to <= q then Same(fs, from + q[|to|..], g, q)
      else if from <= q then q !in g.tree
      else Same(fs, q, g, q)
  }

  predicate Same(fs: FS, p: Path, g: FS, q: Path) {
    (q in g.tree <==> p in fs.tree) && (q in g.tree ==> g.tree[q] == fs.tree[p])
  }

  lemma MovedIs(fs: FS, from: Path, to: Path)
    requires !(from <= to) && !(to <= from)
    ensures MovedTo(fs, fs.(tree := Moved(fs.tree, from, to)), from, to)
  {
    hide Moved;
    var g := fs.(tree := Moved(fs.tree, from, to));
    forall q ensures if to <= q then Same(fs, from + q[|to|..], g, q)
      else if from <= q then q !in g.tree else Same(fs, q, g, q) {
      MovedAt(fs.tree, from, to, q);
    }
  }

  /** The same for moves: what is at the target goes back to the source. */
  lemma MovesBackExactly(w: World, op: Op, env: Env)
    requires Valid(w.fs) && op.kind == Move
    ensures var u := UndoOp(w, op, env);
      && (u.outcome == Restored <==> Undoable(w, op) && env.writeOk)
      && (if u.outcome == Restored then MovedTo(w.fs, u.w.fs, op.toPath, op.path) else u.w.fs == w.fs)
  {
    hide Moved, Valid;
    if Undoable(w, op) {
      var from, to := op.toPath, op.path;
      if to <= from { NotAbove(w.fs, to, from); }
      MovedIs(w.fs, from, to);
    }
  }

  lemma NotAbove(fs: FS, p: Path, q: Path)
    requires Valid(fs) && p !in fs.tree && q in fs.tree
    ensures !(p <= q)
  {
    if p <= q && p != q { AncestorsAreDirs(fs, p, q); }
  }

  // Skipped or in conflict.

  /** The row keeps what its undo needs. */
  predicate Recorded(op: Op) {
    match op.kind
    case Move => true
    case Mkdir => true
    case Delete => (op.preState.WasDir? && op.preReason == "") || (op.preState.WasFile? && op.preBlob.Some?)
    case _ => op.preState.Absent? || (op.preState.WasFile? && op.preBlob.Some?)
  }

  /** What the row made is there no more. */
  predicate GoneAlready(fs: FS, op: Op) {
    op.path !in fs.tree && (op.kind == Mkdir || (op.kind !in {Move, Delete} && op.preState.Absent?))
  }

  /** Something stands in the way: what is at the path is not what the row left there. */
  predicate Disturbed(fs: FS, op: Op) {
    match op.kind
    case Move => op.path in fs.tree || op.toPath !in fs.tree
    case Mkdir => !DirAt(fs, op.path)
    case Delete => op.path in fs.tree
    case _ => !Untouched(fs, op)
  }

  /** What is not restored is skipped if the row was undone before, keeps too little, has
      nothing left to undo, finds its directory in use, or has lost its blob; with the path
      disturbed, or a write that fails, it is a conflict. */
  lemma SkipsExactly(w: World, op: Op, env: Env)
    requires Valid(w.fs)
    ensures UndoOp(w, op, env).outcome == Skipped <==>
      || op.rolledBack || !Recorded(op) || GoneAlready(w.fs, op)
      || (!Disturbed(w.fs, op) &&
          ((op.kind == Mkdir && op.path != [] && Populated(w.fs, op.path)) ||
           (op.kind !in {Move, Mkdir} && op.preState.WasFile? && !HasPreimage(w, op))))
  {
    hide Valid, Moved, Without, Capture, Kept, Changed, Untouched;
    UntouchedIs(w.fs, op);
  }

  /** An undo looks before it writes: it records a row of its own, and touches the world at
      all, only when the row keeps what is needed, has something left to undo, and finds
      the path as the row left it. */
  lemma LooksFirst(w: World, op: Op, env: Env)
    ensures var u := UndoOp(w, op, env);
      && (|u.log| == 1 <==>
            && !op.rolledBack && Recorded(op) && !GoneAlready(w.fs, op) && !Disturbed(w.fs, op)
            && (op.kind !in {Move, Mkdir} && op.preState.WasFile? ==> HasPreimage(w, op)))
      && (|u.log| != 1 ==> u.log == [] && u.w == w)
  {
    hide Moved, Without, Capture, Kept, Changed, Untouched;
    UntouchedIs(w.fs, op);
  }

  /** What a conflict over a file's content says: that the write never completed, that the
      file is missing, or that it was modified, in this order. */
  lemma SaysWhy(w: World, op: Op, env: Env)
    requires !op.rolledBack && op.kind !in {Move, Mkdir, Delete} && Recorded(op) && !GoneAlready(w.fs, op)
    requires Disturbed(w.fs, op)
    ensures UndoOp(w, op, env) ==
      Undone(w, Conflict, if op.post.Incomplete? then "incomplete"
                          else if op.path !in w.fs.tree then "missing" else "modified", [])
  {
  }

  /** The next run over the row, on whatever tree it meets: a row that was restored is
      settled, and any other is judged as if nobody had looked at it. */
  lemma JudgedAnew(w: World, op: Op, env: Env, w': World, env': Env)
    requires !op.rolledBack
    ensures var u := UndoOp(w, op, env);
      UndoOp(w', Marked(op, u), env') ==
        if u.outcome == Restored then Undone(w', Skipped, "already", []) else UndoOp(w', op, env')
  {
    hide UndoOp, Marked;
    RestoredSaysNothing(w, op, env);
    MarkedJudged(w', op, UndoOp(w, op, env), env');
  }

  lemma RestoredSaysNothing(w: World, op: Op, env: Env)
    ensures UndoOp(w, op, env).outcome == Restored ==> UndoOp(w, op, env).reason == ""
  {
    hide Moved, Without, Capture, Kept, Remove, Write, Rename, MakeDir;
  }

  lemma MarkedJudged(w: World, op: Op, u: Undone, env: Env)
    requires !op.rolledBack && (u.outcome == Restored ==> u.reason == "")
    ensures UndoOp(w, Marked(op, u), env) ==
      if u.outcome == Restored then Undone(w, Skipped, "already", []) else UndoOp(w, op, env)
  {
    hide RecordAndDo;
  }

  // Rows without what their undo needs.

  /** The row says there was a file and kept nothing of it. */
  predicate Unkept(op: Op) {
    !op.rolledBack && op.kind !in {Move, Mkdir} && op.preState.WasFile? && op.preBlob.None?
  }

  /** Such a row is skipped, with the reason its capture gave, and nothing is written. */
  lemma UnkeptIsSkipped(w: World, op: Op, env: Env)
    requires Unkept(op)
    ensures UndoOp(w, op, env) == Undone(w, Skipped, if op.preReason != "" then op.preReason else "not_cached", [])
  {
  }

  /** Nor is a row restored whose blob is gone. */
  lemma LostBlobIsSkipped(w: World, op: Op, env: Env)
    requires Valid(w.fs) && op.kind !in {Move, Mkdir} && op.preState.WasFile? && op.preBlob.Some?
    requires op.preBlob.value !in w.blobs
    ensures UndoOp(w, op, env).outcome != Restored && UndoOp(w, op, env).w.fs == w.fs
  {
    hide Undoable, UndoOp, BackAt;
    RestoresExactly(w, op, env);
    NoPreimage(w, op);
  }

  lemma NoPreimage(w: World, op: Op)
    requires op.kind !in {Move, Mkdir} && op.preState.WasFile? && !HasPreimage(w, op)
    ensures !Undoable(w, op)
  {
  }

  predicate FiledIn(items: seq<Item>, row: nat) {
    exists i :: 0 <= i < |items| && items[i].row == row
  }

  lemma {:induction false} FiledStays(r: Run, hi: nat, lo: nat, env: nat -> Env, row: nat)
    requires hi <= |r.rows|
    ensures var f := Rollback(r, hi, lo, env);
      && (FiledIn(r.plan.skipped, row) ==> FiledIn(f.plan.skipped, row))
      && (row >= hi && FiledIn(f.plan.restored, row) ==> FiledIn(r.plan.restored, row))
    decreases hi
  {
    hide UndoOp;
    if hi > lo {
      var r' := UndoRow(r, hi - 1, env(hi - 1));
      FiledNow(r, hi - 1, env(hi - 1), row);
      FiledStays(r', hi - 1, lo, env, row);
    }
  }

  /** One row is filed at a time, where its outcome says. */
  lemma FiledNow(r: Run, i: nat, env: Env, row: nat)
    requires i < |r.rows|
    ensures var r', o := UndoRow(r, i, env), UndoOp(r.w, r.rows[i], env).outcome;
      && (FiledIn(r'.plan.restored, row) <==> FiledIn(r.plan.restored, row) || (row == i && o == Restored))
      && (FiledIn(r'.plan.skipped, row) <==> FiledIn(r.plan.skipped, row) || (row == i && o == Skipped))
      && (FiledIn(r'.plan.conflict, row) <==> FiledIn(r.plan.conflict, row) || (row == i && o == Conflict))
  {
    hide UndoOp;
    var u := UndoOp(r.w, r.rows[i], env);
    FiledMore(r.plan.restored, Item(i, u.reason), row);
    FiledMore(r.plan.skipped, Item(i, u.reason), row);
    FiledMore(r.plan.conflict, Item(i, u.reason), row);
  }

  lemma FiledMore(items: seq<Item>, item: Item, row: nat)
    ensures FiledIn(items + [item], row) <==> FiledIn(items, row) || item.row == row
  {
    var more := items + [item];
    if FiledIn(items, row) {
      var i :| 0 <= i < |items| && items[i].row == row;
      assert more[i].row == row;
    }
    if item.row == row { assert more[|items|].row == row; }
  }

  /** A rollback of any rows on any tree files an unkept row as skipped, never as restored,
      and leaves it unmarked. */
  lemma {:induction false} UnkeptStays(r: Run, hi: nat, lo: nat, env: nat -> Env, row: nat)
    requires lo <= row < hi <= |r.rows| && Unkept(r.rows[row]) && !FiledIn(r.plan.restored, row)
    ensures var f := Rollback(r, hi, lo, env);
      && FiledIn(f.plan.skipped, row) && !FiledIn(f.plan.restored, row) && !f.rows[row].rolledBack
    decreases hi
  {
    hide UndoOp;
    var r' := UndoRow(r, hi - 1, env(hi - 1));
    FiledNow(r, hi - 1, env(hi - 1), row);
    if row == hi - 1 {
      UnkeptIsSkipped(r.w, r.rows[row], env(row));
      FiledStays(r', hi - 1, lo, env, row);
      RunFrame(r', hi - 1, lo, env);
    } else {
      UnkeptStays(r', hi - 1, lo, env, row);
    }
  }

  // Nothing is invented.

  /** A node of the tree after an undo was there before, or is a directory the row says
      was there, or a file with the kept preimage of the row. */
  lemma UndoInventsNothing(w: World, op: Op, env: Env, h: Path) returns (p: Path)
    requires Valid(w.fs) && h in UndoOp(w, op, env).w.fs.tree
    ensures var g := UndoOp(w, op, env).w.fs;
      || (p in w.fs.tree && g.tree[h] == w.fs.tree[p] && (p == h || op.kind == Move))
      || (h == op.path && g.tree[h] == Dir && op.kind == Delete && op.preState.WasDir?)
      || (h == op.path && g.tree[h].File? && Restores(w, op, g.tree[h].data))
  {
    hide UndoOp, Undoable, Valid;
    p := h;
    if op.kind == Move {
      MovesBackExactly(w, op, env);
      if UndoOp(w, op, env).outcome == Restored && op.path <= h { p := op.toPath + h[|op.path|..]; }
    } else {
      RestoresExactly(w, op, env);
      if UndoOp(w, op, env).outcome == Restored && h == op.path { WhatIsBack(w, op, UndoOp(w, op, env).w.fs); }
    }
  }

  /** The row has this preimage, kept. */
  predicate Restores(w: World, op: Op, data: Bytes) {
    op.kind !in {Move, Mkdir} && op.preState.WasFile? && op.preBlob == Some(data) && data in w.blobs
  }

  lemma WhatIsBack(w: World, op: Op, g: FS)
    requires op.kind != Move && Undoable(w, op) && BackAt(op, g) && op.path in g.tree
    ensures (g.tree[op.path] == Dir && op.kind == Delete && op.preState.WasDir?) ||
      (g.tree[op.path].File? && Restores(w, op, g.tree[op.path].data))
  {
  }

  /** Some row from lo to hi has this preimage. */
  predicate SomeRestores(rows: seq<Op>, hi: nat, lo: nat, blobs: set<Bytes>, data: Bytes)
    requires hi <= |rows|
  {
    && data in blobs
    && exists i :: lo <= i < hi && rows[i].kind !in {Move, Mkdir} && rows[i].preState.WasFile? &&
                   rows[i].preBlob == Some(data)
  }

  /** For any rows, any tree and any failures: every file there is after a rollback was there
      before it, with its version, at most at another path, or has the content of the kept
      preimage of one of the rows. */
  lemma {:induction false} NothingIsInvented(r: Run, hi: nat, lo: nat, env: nat -> Env, h: Path) returns (p: Path)
    requires hi <= |r.rows| && Valid(r.w.fs) && FileAt(Rollback(r, hi, lo, env).w.fs, h)
    ensures var f := Rollback(r, hi, lo, env);
      || (p in r.w.fs.tree && f.w.fs.tree[h] == r.w.fs.tree[p])
      || SomeRestores(r.rows, hi, lo, f.w.blobs, f.w.fs.tree[h].data)
    decreases hi
  {
    hide UndoOp, Valid;
    p := h;
    if hi > lo {
      var i := hi - 1;
      var r', f := UndoRow(r, i, env(i)), Rollback(r, hi, lo, env);
      UndoValid(r.w, r.rows[i], env(i));
      RunFrame(r', i, lo, env);
      UndoFrame(r.w, r.rows[i], env(i));
      p := NothingIsInvented(r', i, lo, env, h);
      if p in r'.w.fs.tree && f.w.fs.tree[h] == r'.w.fs.tree[p] {
        var q := p;
        p := UndoInventsNothing(r.w, r.rows[i], env(i), q);
        if q == r.rows[i].path && Restores(r.w, r.rows[i], f.w.fs.tree[h].data) {
          assert r.rows[i].preBlob == Some(f.w.fs.tree[h].data);
        }
      } else {
        OlderRestores(r.rows, r'.rows, i, lo, f.w.blobs, f.w.fs.tree[h].data);
      }
    }
  }

  lemma OlderRestores(rows: seq<Op>, rows': seq<Op>, i: nat, lo: nat, blobs: set<Bytes>, data: Bytes)
    requires i < |rows| == |rows'| && (forall j :: 0 <= j < i ==> rows'[j] == rows[j])
    requires SomeRestores(rows', i, lo, blobs, data)
    ensures SomeRestores(rows, i + 1, lo, blobs, data)
  {
    var j :| lo <= j < i && rows'[j].kind !in {Move, Mkdir} && rows'[j].preState.WasFile? &&
      rows'[j].preBlob == Some(data);
    assert rows[j] == rows'[j];
  }
}
