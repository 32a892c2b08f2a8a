/** Rolling back a rollback redoes the session: the rows a rollback records are
    a clean history of their own, whatever the session and the tree were. */
module RollbackRedo {

  import opened Common
  import opened Tree
  import opened SessionLog
  import opened Undo
  import opened RollbackInverts
  import opened SessionHistory

  /** The row tells the truth about the step and names no provider version. */
  ghost predicate Truthful(w: World, row: Op, w': World) {
    Recorded(w, Attempt(w', row, None)) && !row.post.Version?
  }

  /** What an undo writes is what it logs, one row per write. */
  lemma UndoLogged(w: World, op: Op, env: Env)
    requires Valid(w.fs)
    ensures var u := UndoOp(w, op, env);
            && |u.log| <= 1
            && (u.log == [] ==> u.w == w)
            && (|u.log| == 1 && KeptRow(u.log[0]) ==> Truthful(w, u.log[0], u.w))
  {
    var u := UndoOp(w, op, env);
    if u.log != [] && KeptRow(u.log[0]) {
      if op.kind == Move {
        if op.toPath == [] {
          FailureRecorded(w, Move, op.toPath, op.path, "", Invalid, Incomplete, env);
        } else {
          MoveRecorded(w, op.toPath, op.path, env);
        }
      } else if op.kind == Mkdir {
        RemovalLogged(w, op, env);
      } else if op.kind == Delete && op.preState.WasDir? {
        MkdirRecorded(w, op.path, env);
      } else if op.kind == Delete {
        ContentRecorded(w, Create, op.path, op.preBlob.value, Content(op.preBlob.value), env);
      } else if op.preState.Absent? {
        RemovalLogged(w, op, env);
      } else {
        ContentRecorded(w, Overwrite, op.path, op.preBlob.value, Content(op.preBlob.value), env);
      }
    }
  }

  lemma RemovalLogged(w: World, op: Op, env: Env)
    requires Valid(w.fs)
    requires KeptRow(RecordAndDo(w, Delete, op.path, [], "", Remove(w.fs, op.path, false), Incomplete, env).row)
    ensures Recorded(w, RecordAndDo(w, Delete, op.path, [], "", Remove(w.fs, op.path, false), Incomplete, env))
  {
    if op.path == [] {
      FailureRecorded(w, Delete, op.path, [], "", Invalid, Incomplete, env);
    } else {
      DeleteRecorded(w, op.path, false, env);
    }
  }

  ghost predicate AllKept(rows: seq<Op>) {
    forall i :: 0 <= i < |rows| ==> KeptRow(rows[i])
  }

  /** A log that is a clean history from `fs[0]` to the world's tree. */
  ghost predicate CleanLog(fs: seq<FS>, w: World, log: seq<Op>) {
    && History(fs, log) && fs[|log|] == w.fs && Valid(w.fs) && AllBlobsKept(w, log)
    && forall i :: 0 <= i < |log| ==> !log[i].post.Version?
  }

  lemma {:induction false} LogExtends(r: Run, hi: nat, lo: nat, env: nat -> Env)
    requires hi <= |r.rows|
    ensures r.log <= Rollback(r, hi, lo, env).log
    decreases hi
  {
    hide UndoOp;
    if hi > lo {
      LogExtends(UndoRow(r, hi - 1, env(hi - 1)), hi - 1, lo, env);
    }
  }

  lemma LogGrows(fs: seq<FS>, r: Run, i: nat, env: Env) returns (fs': seq<FS>)
    requires i < |r.rows| && CleanLog(fs, r.w, r.log) && AllKept(UndoRow(r, i, env).log)
    ensures CleanLog(fs', UndoRow(r, i, env).w, UndoRow(r, i, env).log) && fs'[0] == fs[0]
  {
    hide UndoOp, Effect, Valid, KeptRow;
    var r' := UndoRow(r, i, env);
    var u := UndoOp(r.w, r.rows[i], env);
    UndoLogged(r.w, r.rows[i], env);
    if u.log == [] {
      fs' := fs;
      assert r'.log == r.log;
    } else {
      fs' := fs + [u.w.fs];
      assert r'.log == r.log + [u.log[0]] && r'.log[|r.log|] == u.log[0];
      HistoryGrows(fs, Session(r.w, r.log), Attempt(u.w, u.log[0], None));
      RecordedValid(r.w, Attempt(u.w, u.log[0], None));
    }
  }

  lemma {:induction false} LogIsHistory(fs: seq<FS>, r: Run, hi: nat, lo: nat, env: nat -> Env) returns (fs': seq<FS>)
    requires hi <= |r.rows| && CleanLog(fs, r.w, r.log) && AllKept(Rollback(r, hi, lo, env).log)
    ensures CleanLog(fs', Rollback(r, hi, lo, env).w, Rollback(r, hi, lo, env).log) && fs'[0] == fs[0]
    decreases hi
  {
    hide UndoOp, Effect, Valid, KeptRow, CleanLog;
    fs' := fs;
    if hi > lo {
      var r' := UndoRow(r, hi - 1, env(hi - 1));
      LogExtends(r', hi - 1, lo, env);
      assert AllKept(r'.log) by {
        forall i | 0 <= i < |r'.log| ensures KeptRow(r'.log[i]) {
          assert r'.log[i] == Rollback(r, hi, lo, env).log[i];
        }
      }
      fs' := LogGrows(fs, r, hi - 1, env(hi - 1));
      fs' := LogIsHistory(fs', r', hi - 1, lo, env);
    }
  }

  lemma {:induction false} NoCopiesAreIntact(rows: seq<Op>, hi: nat, after: set<Path>)
    requires hi <= |rows| && forall i :: 0 <= i < |rows| ==> !rows[i].post.Version?
    ensures CopiesIntact(rows, hi, 0, after)
    decreases hi
  {
    hide Rewritten;
    if hi > 0 {
      NoCopiesAreIntact(rows, hi - 1, Rewritten(rows[hi - 1], after));
    }
  }

  /** Any rows, any tree, any failures: if the rollback's own captures were kept,
      rolling its log back settles every row of it and restores the tree as it
      was before the first rollback. */
  lemma RollbackOfRollbackIsRedo(w: World, rows: seq<Op>, env: nat -> Env, env': nat -> Env)
    requires Valid(w.fs) && WritesSucceed(env')
    requires AllKept(Rollback(Fresh(w, rows), |rows|, 0, env).log)
    ensures var f := Rollback(Fresh(w, rows), |rows|, 0, env);
            var g := Rollback(Fresh(f.w, f.log), |f.log|, 0, env');
            SameTree(g.w.fs, w.fs) && forall i :: 0 <= i < |f.log| ==> g.rows[i].rolledBack
  {
    hide UndoOp, Effect, Valid, KeptRow, CopiesIntact, SameTree;
    var r := Fresh(w, rows);
    assert CleanLog([w.fs], w, []);
    var fs := LogIsHistory([w.fs], r, |rows|, 0, env);
    var f := Rollback(r, |rows|, 0, env);
    NoCopiesAreIntact(f.log, |f.log|, {});
    RollbackInvertsHistory(fs, f.log, f.w, env');
  }
}
