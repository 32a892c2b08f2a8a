/** Moves onto existing paths, in the smallest sessions that have one. */
module SessionMoves {

  import opened Common
  import opened Tree
  import opened SessionLog
  import opened Undo
  import opened RollbackInverts
  import opened RollbackReplaced
  import opened RollbackLost
  import opened SessionHistory

  /** The row of a move that went through. */
  function MovedRow(w: World, from: Path, to: Path, env: Env): Op {
    var pre := Capture(w, from, env.captureOk);
    Op(Move, from, to, pre.state, pre.blob, pre.reason, Incomplete, false, "")
  }

  /** Something that may be moved onto another existing path. */
  ghost predicate Movable(fs: FS, from: Path, to: Path) {
    Valid(fs) && from in fs.tree && to in fs.tree && !(from <= to) && !(to <= from)
  }

  lemma MoveTool(w: World, from: Path, to: Path, env: Env)
    requires Movable(w.fs, from, to) && env.writeOk
    ensures from != [] && to != []
    ensures var t := Tool(w, MovePath(from, to), env);
      && t.Some? && t.value.row == MovedRow(w, from, to, env) &&
         t.value.w.fs == w.fs.(tree := Moved(w.fs.tree, from, to))
      && KeptRow(t.value.row)
  {
    hide Moved;
    assert DirAt(w.fs, Parent(from)) && DirAt(w.fs, Parent(to));
  }

  lemma PlayOne(w: World, call: Call, env: nat -> Env)
    requires Tool(w, call, env(0)).Some?
    ensures Play(w, [call], env) == Session(Tool(w, call, env(0)).value.w, [Tool(w, call, env(0)).value.row])
    ensures Trees(w, [call], env) == [w.fs, Tool(w, call, env(0)).value.w.fs]
    ensures KeptSession(w, [call], env) <==> KeptRow(Tool(w, call, env(0)).value.row)
  {
    hide Tool, KeptRow;
    assert [call][..0] == [];
    assert Play(w, [], env) == Session(w, []) && KeptSession(w, [], env);
  }

  /** The undo of the move finds nothing in its way. */
  lemma MoveUndone(w: World, op: Op, fs: FS, env: Env)
    requires Movable(fs, op.path, op.toPath) && op.kind == Move && !op.rolledBack && env.writeOk
    requires w.fs == fs.(tree := Moved(fs.tree, op.path, op.toPath))
    ensures UndoOp(w, op, env).outcome == Restored
  {
    hide Moved;
    var from, to := op.path, op.toPath;
    assert DirAt(fs, Parent(from));
    MovedAt(fs.tree, from, to, from);
    MovedAt(fs.tree, from, to, to);
    assert Relocate(to, from, to) == from;
    MovedAt(fs.tree, from, to, Parent(from));
    assert !(to <= Parent(from)) && !(from <= Parent(from));
  }

  /** For every tree and every move of one thing onto another: rollback reports the move
      restored, and everything that was at its target is gone. */
  lemma ReplacedTargetIsLost(w: World, from: Path, to: Path, env: nat -> Env, undoEnv: nat -> Env)
    requires Movable(w.fs, from, to) && env(0).writeOk && WritesSucceed(undoEnv)
    ensures var s := Play(w, [MovePath(from, to)], env);
      var f := Rollback(Fresh(s.w, s.rows), |s.rows|, 0, undoEnv);
      && |s.rows| == 1 && AllSettled(f.rows)
      && SameTree(f.w.fs, Minus(w.fs, Below(w.fs, to))) && !SameTree(f.w.fs, w.fs)
  {
    hide Tool, Moved, UndoOp, SameTree, Valid, KeptRow;
    var call := MovePath(from, to);
    MoveTool(w, from, to, env(0));
    PlayOne(w, call, env);
    var s, fs := Play(w, [call], env), Trees(w, [call], env);
    var op := s.rows[0];
    assert Works(op, {}, {});
    assert AllWork(fs, s.rows, 0, 0, LostBefore(fs[0], op, fs[1], {}), AfterBefore(op, {}, {}));
    assert LostBefore(fs[0], op, fs[1], {}) == Below(w.fs, to);
    assert LostDown(fs, s.rows, 1, 0, {}) == Below(w.fs, to) by { LostOfOne(fs, s.rows); }
    RollbackLosesExactlyOfSession(w, [call], env, undoEnv);
    assert to in Below(w.fs, to);
    MoveUndone(s.w, op, w.fs, undoEnv(0));
    SettlesOne(s.w, s.rows, undoEnv);
  }

  lemma LostOfOne(fs: seq<FS>, rows: seq<Op>)
    requires |rows| == 1 < |fs|
    ensures LostDown(fs, rows, 1, 0, {}) == LostBefore(fs[0], rows[0], fs[1], {})
  {
    hide LostBefore;
    assert LostDown(fs, rows, 0, 0, LostBefore(fs[0], rows[0], fs[1], {})) == LostBefore(fs[0], rows[0], fs[1], {});
  }

  lemma SettlesOne(w: World, rows: seq<Op>, env: nat -> Env)
    requires |rows| == 1 && UndoOp(w, rows[0], env(0)).outcome == Restored
    ensures AllSettled(Rollback(Fresh(w, rows), 1, 0, env).rows)
  {
    hide UndoOp;
    var r := UndoRow(Fresh(w, rows), 0, env(0));
    assert Rollback(r, 0, 0, env) == r;
  }

  /** The move is given up after its target was removed. */
  predicate GivenUp(from: Path, to: Path, env: Env) {
    from != to && if from <= to || to <= from then env.writeOk || env.halfway else !env.writeOk && env.halfway
  }

  lemma GivenUpTool(w: World, from: Path, to: Path, env: Env)
    requires Valid(w.fs) && from in w.fs.tree && to in w.fs.tree && from != [] && to != [] && GivenUp(from, to, env)
    ensures var t := Tool(w, MovePath(from, to), env);
      && t.Some? && t.value.row.rolledBack && t.value.w.fs == w.fs.(tree := Without(w.fs.tree, to))
  {
    hide Moved, Without;
    assert DirAt(w.fs, Parent(from)) && DirAt(w.fs, Parent(to));
  }

  lemma SkipsOne(w: World, rows: seq<Op>, env: nat -> Env)
    requires |rows| == 1 && rows[0].rolledBack
    ensures var f := Rollback(Fresh(w, rows), 1, 0, env); f.w == w && f.rows == rows && f.plan.restored == []
  {
    var r := UndoRow(Fresh(w, rows), 0, env(0));
    assert Rollback(r, 0, 0, env) == r;
  }

  /** For every tree and every such move: the call fails, its row counts as settled, the
      target is gone with all below it, and rollback brings nothing back. A thing moved
      onto a directory it is in goes with that directory. */
  lemma FailedMoveLosesTarget(w: World, from: Path, to: Path, env: nat -> Env, undoEnv: nat -> Env)
    requires Valid(w.fs) && from in w.fs.tree && to in w.fs.tree && from != [] && to != []
    requires GivenUp(from, to, env(0))
    ensures var s := Play(w, [MovePath(from, to)], env);
      var f := Rollback(Fresh(s.w, s.rows), |s.rows|, 0, undoEnv);
      && |s.rows| == 1 && AllSettled(f.rows) && f.plan.restored == []
      && SameTree(f.w.fs, Minus(w.fs, Below(w.fs, to))) && !SameTree(f.w.fs, w.fs)
      && (from in f.w.fs.tree <==> !(to <= from))
  {
    hide Tool, Rollback, KeptRow;
    GivenUpTool(w, from, to, env(0));
    PlayOne(w, MovePath(from, to), env);
    var s := Play(w, [MovePath(from, to)], env);
    SkipsOne(s.w, s.rows, undoEnv);
    assert to in Below(w.fs, to);
    assert s.w.fs.tree == w.fs.tree - Below(w.fs, to);
  }

  lemma PlayTwo(w: World, c1: Call, c2: Call, env: nat -> Env)
    requires Tool(w, c1, env(0)).Some? && Tool(Tool(w, c1, env(0)).value.w, c2, env(1)).Some?
    ensures var t1 := Tool(w, c1, env(0)).value;
      var t2 := Tool(t1.w, c2, env(1)).value;
      && Play(w, [c1, c2], env) == Session(t2.w, [t1.row, t2.row]) &&
         Trees(w, [c1, c2], env) == [w.fs, t1.w.fs, t2.w.fs]
      && (KeptSession(w, [c1, c2], env) <==> KeptRow(t1.row) && KeptRow(t2.row))
      && (ReplacesNothing(w, [c1, c2], env) ==> !Replacing(t1.w, c2, env(1)))
  {
    hide Tool, KeptRow, Replacing;
    PlayOne(w, c1, env);
    assert [c1, c2][..1] == [c1];
  }

  lemma CreateTool(w: World, to: Path, data: Bytes, env: Env)
    requires Valid(w.fs) && to != [] && to !in w.fs.tree && DirAt(w.fs, Parent(to)) && env.writeOk
    ensures var t := Tool(w, WriteFile(Create, to, data), env);
      && t.Some? && t.value.row == Op(Create, to, [], Absent, None, "", Content(data), false, "")
      && t.value.w.fs == FS(w.fs.tree[to := File(data, w.fs.clock)], w.fs.clock + 1) && KeptRow(t.value.row)
  {
  }

  /** What is lost and then found not to have been there. */
  lemma LostOfTwo(fs: seq<FS>, rows: seq<Op>)
    requires |rows| == 2 < |fs|
    ensures LostDown(fs, rows, 2, 0, {}) == LostBefore(fs[0], rows[0], fs[1], LostBefore(fs[1], rows[1], fs[2], {}))
    ensures AllWork(fs, rows, 2, 0, {}, {}) <==>
      Works(rows[1], {}, {}) && Works(rows[0], LostBefore(fs[1], rows[1], fs[2], {}), AfterBefore(rows[1], {}, {}))
  {
    hide LostBefore, AfterBefore, Works;
    var l1, a1 := LostBefore(fs[1], rows[1], fs[2], {}), AfterBefore(rows[1], {}, {});
    var l0, a0 := LostBefore(fs[0], rows[0], fs[1], l1), AfterBefore(rows[0], l1, a1);
    assert LostDown(fs, rows, 0, 0, l0) == l0 && AllWork(fs, rows, 0, 0, l0, a0);
    assert LostDown(fs, rows, 1, 0, l1) == l0 && (AllWork(fs, rows, 1, 0, l1, a1) <==> Works(rows[0], l1, a1));
  }

  /** For a target that the session itself created, rollback restores the starting tree
      all the same, and reports the create as not undone. */
  lemma CreatedTargetLeavesNoTrace(w: World, from: Path, to: Path, data: Bytes, env: nat -> Env, undoEnv: nat -> Env)
    requires Valid(w.fs) && to != [] && to !in w.fs.tree && DirAt(w.fs, Parent(to)) && from in w.fs.tree
    requires !(from <= to) && !(to <= from) && env(0).writeOk && env(1).writeOk && WritesSucceed(undoEnv)
    ensures var s := Play(w, [WriteFile(Create, to, data), MovePath(from, to)], env);
      var f := Rollback(Fresh(s.w, s.rows), |s.rows|, 0, undoEnv);
      |s.rows| == 2 && SameTree(f.w.fs, w.fs) && !AllSettled(f.rows)
  {
    hide Tool, Moved, UndoOp, SameTree, KeptRow, CopiesIntact, AllWork, LostDown, Rollback;
    var c1, c2 := WriteFile(Create, to, data), MovePath(from, to);
    CreateTool(w, to, data, env(0));
    var w1 := Tool(w, c1, env(0)).value.w;
    WriteValid(w.fs, to, data);
    MoveTool(w1, from, to, env(1));
    PlayTwo(w, c1, c2, env);
    var s, fs := Play(w, [c1, c2], env), Trees(w, [c1, c2], env);
    OnlyDirsArePopulated(w1.fs, to);
    assert Below(w1.fs, to) == {to} by {
      forall q | q in w1.fs.tree && to <= q ensures q == to { assert !(to < q); }
    }
    LostOfTwo(fs, s.rows);
    assert LostBefore(fs[1], s.rows[1], fs[2], {}) == {to};
    assert LostBefore(fs[0], s.rows[0], fs[1], {to}) == {};
    RollbackLosesExactlyOfSession(w, [c1, c2], env, undoEnv);
    RollbackInvertsSession(w, [c1, c2], env, undoEnv);
    assert Replacing(w1, c2, env(1));
  }
}
