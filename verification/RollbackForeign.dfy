/** Rollback never destroys what it does not recognise. Here the rows, the blobs
    and the tree are arbitrary: anything may have changed since the session. */
module RollbackForeign {

  import opened Tree
  import opened SessionLog
  import opened Undo
  import opened RollbackInverts

  /** The row recorded exactly this file as the outcome of a content write to p. */
  predicate Recognised(op: Op, p: Path, node: Node) {
    && node.File? && !op.rolledBack && op.path == p && op.kind !in {Mkdir, Move, Delete}
    && match op.post
       case Content(c) => node.data == c
       case Version(v) => node.version == v
       case Incomplete => false
  }

  /** Where the file at p is after the undo of one row. */
  function Home(w: World, op: Op, env: Env, p: Path): Path {
    if op.kind == Move && UndoOp(w, op, env).outcome == Restored then Relocate(op.toPath, op.path, p) else p
  }

  lemma UndoKeepsForeign(w: World, op: Op, env: Env, p: Path)
    requires Valid(w.fs) && FileAt(w.fs, p) && !Recognised(op, p, w.fs.tree[p])
    ensures var g := UndoOp(w, op, env).w.fs;
            var h := Home(w, op, env, p);
            FileAt(g, h) && g.tree[h] == w.fs.tree[p]
  {
    var u := UndoOp(w, op, env);
    if u.w.fs != w.fs {
      if op.kind == Move {
        var from, to := op.toPath, op.path;
        MovedValid(w.fs, from, to);
        MovedAt(w.fs.tree, from, to, Relocate(from, to, p));
        if from <= p { RelocateBack(from, to, p); } else if to <= p { assert to != p && to < p;
          AncestorsAreDirs(w.fs, to, p); }
      } else {
        UndoSpares(w, op, env, p);
      }
    }
  }

  lemma UndoSpares(w: World, op: Op, env: Env, p: Path)
    requires Valid(w.fs) && FileAt(w.fs, p) && !Recognised(op, p, w.fs.tree[p]) && op.kind != Move
    ensures var g := UndoOp(w, op, env).w.fs;
            FileAt(g, p) && g.tree[p] == w.fs.tree[p]
  {
    if op.path <= p && op.path != p {
      AncestorsAreDirs(w.fs, op.path, p);
      UndoOfPopulated(w, op, env, p);
    }
  }

  /** A directory with something in it is left as it is. */
  lemma UndoOfPopulated(w: World, op: Op, env: Env, p: Path)
    requires DirAt(w.fs, op.path) && p in w.fs.tree && op.path < p && op.kind != Move
    ensures UndoOp(w, op, env).w.fs == w.fs
  {
    assert Populated(w.fs, op.path);
  }

  /** Two files never end up in one place. */
  lemma HomesStayDistinct(w: World, op: Op, env: Env, p: Path, q: Path)
    requires Valid(w.fs) && FileAt(w.fs, p) && FileAt(w.fs, q) && p != q
    ensures Home(w, op, env, p) != Home(w, op, env, q)
  {
    if op.kind == Move && UndoOp(w, op, env).outcome == Restored {
      var from, to := op.toPath, op.path;
      MovedValid(w.fs, from, to);
      if from <= p { RelocateBack(from, to, p); }
      if from <= q { RelocateBack(from, to, q); }
      if to <= p { assert to != p && to < p; AncestorsAreDirs(w.fs, to, p); }
      if to <= q { assert to != q && to < q; AncestorsAreDirs(w.fs, to, q); }
    }
  }

  /** No row of the run recognises the file as its own when its turn comes. */
  ghost predicate Foreign(r: Run, hi: nat, lo: nat, env: nat -> Env, p: Path, node: Node)
    requires hi <= |r.rows|
    decreases hi
  {
    hi <= lo ||
    (&& !Recognised(r.rows[hi - 1], p, node)
     && Foreign(UndoRow(r, hi - 1, env(hi - 1)), hi - 1, lo, env, Home(r.w, r.rows[hi - 1], env(hi - 1), p), node))
  }

  /** Where the file at p is after rows hi-1..lo. */
  ghost function FinalHome(r: Run, hi: nat, lo: nat, env: nat -> Env, p: Path): Path
    requires hi <= |r.rows|
    decreases hi
  {
    if hi <= lo then p
    else FinalHome(UndoRow(r, hi - 1, env(hi - 1)), hi - 1, lo, env, Home(r.w, r.rows[hi - 1], env(hi - 1), p))
  }

  /** Every file whose content no row recorded for the path it is at survives
      the run with its content and version, at most moved by a rename undo. */
  lemma {:induction false} ForeignFilesSurvive(r: Run, hi: nat, lo: nat, env: nat -> Env, p: Path)
    requires hi <= |r.rows| && Valid(r.w.fs) && FileAt(r.w.fs, p)
    requires Foreign(r, hi, lo, env, p, r.w.fs.tree[p])
    ensures var f := Rollback(r, hi, lo, env);
            var h := FinalHome(r, hi, lo, env, p);
            Valid(f.w.fs) && FileAt(f.w.fs, h) && f.w.fs.tree[h] == r.w.fs.tree[p]
    decreases hi
  {
    hide UndoOp, Home, Valid, Recognised;
    if hi > lo {
      var op := r.rows[hi - 1];
      UndoValid(r.w, op, env(hi - 1));
      UndoKeepsForeign(r.w, op, env(hi - 1), p);
      ForeignFilesSurvive(UndoRow(r, hi - 1, env(hi - 1)), hi - 1, lo, env, Home(r.w, op, env(hi - 1), p));
    }
  }

  /** Two such files are two files afterwards. */
  lemma {:induction false} ForeignFilesStayApart(r: Run, hi: nat, lo: nat, env: nat -> Env, p: Path, q: Path)
    requires hi <= |r.rows| && Valid(r.w.fs) && FileAt(r.w.fs, p) && FileAt(r.w.fs, q) && p != q
    requires Foreign(r, hi, lo, env, p, r.w.fs.tree[p]) && Foreign(r, hi, lo, env, q, r.w.fs.tree[q])
    ensures FinalHome(r, hi, lo, env, p) != FinalHome(r, hi, lo, env, q)
    decreases hi
  {
    hide UndoOp, Home, Valid, Recognised;
    if hi > lo {
      var op := r.rows[hi - 1];
      UndoValid(r.w, op, env(hi - 1));
      UndoKeepsForeign(r.w, op, env(hi - 1), p);
      UndoKeepsForeign(r.w, op, env(hi - 1), q);
      HomesStayDistinct(r.w, op, env(hi - 1), p, q);
      ForeignFilesStayApart(UndoRow(r, hi - 1, env(hi - 1)), hi - 1, lo, env,
                            Home(r.w, op, env(hi - 1), p), Home(r.w, op, env(hi - 1), q));
    }
  }

  /** Runs over one session's rows, each stopped before row lo (0 for a complete
      run), the tree changed arbitrarily in between. */
  datatype Attempted = Attempted(w: World, lo: nat, env: nat -> Env)

  function RestoredRows(items: seq<Item>): seq<nat> {
    seq(|items|, i requires 0 <= i < |items| => items[i].row)
  }

  /** The rows all the runs undid, in order. */
  function UndoneRows(rows: seq<Op>, runs: seq<Attempted>): seq<nat>
    decreases |runs|
  {
    if runs == [] then []
    else
      var f := Rollback(Fresh(runs[0].w, rows), |rows|, runs[0].lo, runs[0].env);
      RestoredRows(f.plan.restored) + UndoneRows(f.rows, runs[1..])
  }

  /** What a run files as restored: unmarked rows, each once, newest first, and
      marked afterwards; marked rows keep their record. */
  ghost predicate RestoresOnce(r: Run, hi: nat, f: Run, before: nat)
    requires |f.rows| == |r.rows| && before <= |f.plan.restored|
  {
    && (forall i :: before <= i < |f.plan.restored| ==>
          f.plan.restored[i].row < hi <= |r.rows| && !r.rows[f.plan.restored[i].row].rolledBack &&
            f.rows[f.plan.restored[i].row].rolledBack)
    && (forall i, j :: before <= i < j < |f.plan.restored| ==> f.plan.restored[i].row > f.plan.restored[j].row)
    && (forall i :: 0 <= i < |r.rows| && r.rows[i].rolledBack ==> f.rows[i] == r.rows[i])
  }

  lemma {:induction false} RunRestoresOnce(r: Run, hi: nat, lo: nat, env: nat -> Env)
    requires hi <= |r.rows|
    ensures var f := Rollback(r, hi, lo, env);
            && |r.plan.restored| <= |f.plan.restored| && f.plan.restored[..|r.plan.restored|] == r.plan.restored
            && RestoresOnce(r, hi, f, |r.plan.restored|)
    decreases hi
  {
    hide UndoRow, RestoresOnce;
    if hi > lo {
      var r' := UndoRow(r, hi - 1, env(hi - 1));
      StepPlan(r, hi - 1, env(hi - 1));
      RunRestoresOnce(r', hi - 1, lo, env);
      RunFrame(r', hi - 1, lo, env);
      StepThenRun(r, r', hi - 1, Rollback(r, hi, lo, env));
    } else {
      NothingRestored(r, hi);
    }
  }

  lemma NothingRestored(r: Run, hi: nat)
    ensures RestoresOnce(r, hi, r, |r.plan.restored|)
  {
  }

  /** One step: the row is filed as restored and marked, or nothing is. */
  ghost predicate Stepped(r: Run, r': Run, i: nat)
    requires i < |r.rows|
  {
    && |r'.rows| == |r.rows| &&
       (forall j :: 0 <= j < |r.rows| && (j != i || r.rows[j].rolledBack) ==> r'.rows[j] == r.rows[j])
    && (r'.plan.restored == r.plan.restored ||
        (|r'.plan.restored| == |r.plan.restored| + 1 && r'.plan.restored[..|r.plan.restored|] == r.plan.restored &&
         r'.plan.restored[|r.plan.restored|].row == i && !r.rows[i].rolledBack && r'.rows[i].rolledBack))
  }

  lemma StepPlan(r: Run, i: nat, env: Env)
    requires i < |r.rows|
    ensures Stepped(r, UndoRow(r, i, env), i)
  {
    hide UndoOp;
    UndoSkips(r.w, r.rows[i], env);
  }

  lemma StepThenRun(r: Run, r': Run, i: nat, f: Run)
    requires i < |r.rows| == |f.rows| && Stepped(r, r', i) && f.rows[i] == r'.rows[i]
    requires |r'.plan.restored| <= |f.plan.restored| && f.plan.restored[..|r'.plan.restored|] == r'.plan.restored
    requires RestoresOnce(r', i, f, |r'.plan.restored|)
    ensures |r.plan.restored| <= |f.plan.restored| && f.plan.restored[..|r.plan.restored|] == r.plan.restored
    ensures RestoresOnce(r, i + 1, f, |r.plan.restored|)
  {
    var n, m := |r.plan.restored|, |r'.plan.restored|;
    assert f.plan.restored[..n] == f.plan.restored[..m][..n];
    assert m > n ==> f.plan.restored[n] == f.plan.restored[..m][n];
  }

  lemma {:induction false} UndoneWereUnmarked(rows: seq<Op>, runs: seq<Attempted>)
    ensures forall i :: 0 <= i < |UndoneRows(rows, runs)| ==>
              UndoneRows(rows, runs)[i] < |rows| && !rows[UndoneRows(rows, runs)[i]].rolledBack
    decreases |runs|
  {
    hide Rollback;
    if runs != [] {
      var r := Fresh(runs[0].w, rows);
      RunRestoresOnce(r, |rows|, runs[0].lo, runs[0].env);
      var f := Rollback(r, |rows|, runs[0].lo, runs[0].env);
      UndoneWereUnmarked(f.rows, runs[1..]);
      assert forall i :: 0 <= i < |rows| && rows[i].rolledBack ==> f.rows[i].rolledBack;
    }
  }

  /** Over any number of runs, complete or stopped between rows, with anything
      happening to the tree in between, no row is undone twice. */
  lemma {:induction false} NoRowIsUndoneTwice(rows: seq<Op>, runs: seq<Attempted>, i: nat, j: nat)
    requires i < j < |UndoneRows(rows, runs)|
    ensures UndoneRows(rows, runs)[i] != UndoneRows(rows, runs)[j]
    decreases |runs|
  {
    hide Rollback;
    var r := Fresh(runs[0].w, rows);
    RunRestoresOnce(r, |rows|, runs[0].lo, runs[0].env);
    var f := Rollback(r, |rows|, runs[0].lo, runs[0].env);
    var n := |f.plan.restored|;
    UndoneWereUnmarked(f.rows, runs[1..]);
    if i >= n {
      NoRowIsUndoneTwice(f.rows, runs[1..], i - n, j - n);
    } else if j >= n {
      assert f.rows[UndoneRows(rows, runs)[i]].rolledBack;
      assert UndoneRows(rows, runs)[j] == UndoneRows(f.rows, runs[1..])[j - n];
    }
  }
}
