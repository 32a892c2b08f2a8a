/** A rollback that dies and is run again, and what a further run may still do. */
module RollbackReruns {

  import opened Common
  import opened Tree
  import opened SessionLog
  import opened Undo
  import opened RollbackInverts

  /** Rows marked rolled back are walked over: the undo of a marked row writes
      nothing, and its record stays. */
  lemma {:induction false} SettledRowsAreLeftAlone(r: Run, hi: nat, lo: nat, env: nat -> Env)
    requires hi <= |r.rows| && forall i :: lo <= i < hi ==> r.rows[i].rolledBack
    ensures var f := Rollback(r, hi, lo, env);
            f.w == r.w && f.rows == r.rows && f.log == r.log && f.plan.restored == r.plan.restored
    decreases hi
  {
    if hi > lo {
      var r' := UndoRow(r, hi - 1, env(hi - 1));
      assert r'.rows == r.rows && r'.log == r.log + [];
      SettledRowsAreLeftAlone(r', hi - 1, lo, env);
    }
  }

  lemma {:induction false} RunSplits(r: Run, hi: nat, mid: nat, lo: nat, env: nat -> Env)
    requires lo <= mid <= hi <= |r.rows|
    ensures Rollback(r, hi, lo, env) == Rollback(Rollback(r, hi, mid, env), mid, lo, env)
    decreases hi
  {
    hide UndoOp;
    if hi > mid {
      RunSplits(UndoRow(r, hi - 1, env(hi - 1)), hi - 1, mid, lo, env);
    }
  }

  lemma {:induction false} IntactSplits(rows: seq<Op>, hi: nat, mid: nat, after: set<Path>)
    requires mid <= hi <= |rows| && CopiesIntact(rows, hi, 0, after)
    ensures CopiesIntact(rows, hi, mid, after)
    ensures CopiesIntact(rows, mid, 0, RewrittenDown(rows, hi, mid, after))
    decreases hi
  {
    hide Intact, Rewritten;
    if hi > mid {
      IntactSplits(rows, hi - 1, mid, Rewritten(rows[hi - 1], after));
    }
  }

  /** Undoing a row a second time leaves the tree before it alone. */
  lemma UndoAgain(a: FS, op: Op, b: FS, w: World, after: set<Path>, bound: nat, env: Env)
    requires Effect(a, op, b) && Like(w.fs, a, Rewritten(op, after), bound) && BlobsKept(w, op) && env.writeOk
    ensures Like(UndoOp(w, op, env).w.fs, a, Rewritten(op, after), bound)
  {
    if !op.rolledBack && op.kind !in {Mkdir, Move, Delete} && op.path in a.tree {
      LikeWritten(a, a, w.fs, op.path, Rewritten(op, after), bound);
      assert Rewritten(op, after) + {op.path} == Rewritten(op, after);
      assert UndoOp(w, op, env) == UndoOverwrite(w, op, env);
      if Changed(w.fs, op) == "" {
        assert UndoOp(w, op, env).w.fs == Write(w.fs, op.path, a.tree[op.path].data).fs;
      }
    } else {
      UndoAgainIdle(a, op, b, w, Rewritten(op, after), bound, env);
    }
  }

  lemma UndoAgainIdle(a: FS, op: Op, b: FS, w: World, after: set<Path>, bound: nat, env: Env)
    requires Effect(a, op, b) && Like(w.fs, a, after, bound)
    requires op.rolledBack || op.kind in {Mkdir, Move, Delete} || op.path !in a.tree
    ensures UndoOp(w, op, env).w == w
  {
  }

  /** A state a rollback of `rows` may be in when it died: the tree is the one
      before row k, the rows from k on are marked, row k perhaps not. */
  ghost predicate Interrupted(fs: seq<FS>, rows: seq<Op>, w: World, now: seq<Op>, k: nat, bound: nat) {
    && |now| == |rows| && k <= |rows| && History(fs, rows)
    && AllBlobsKept(w, rows) && (forall i :: 0 <= i < |fs| ==> fs[i].clock <= bound)
    && CopiesIntact(rows, |rows|, 0, {})
    && Like(w.fs, fs[k], RewrittenDown(rows, |rows|, k, {}), bound)
    && (forall i :: 0 <= i < k ==> now[i] == rows[i])
    && (forall i :: k < i < |rows| ==> now[i].rolledBack)
    && (k < |rows| ==> now[k].rolledBack || now[k] == rows[k])
  }

  /** After the last undo of a run: the starting tree, every row marked but
      perhaps the one the earlier run died on. */
  ghost predicate Finished(fs: seq<FS>, rows: seq<Op>, w: World, now: seq<Op>, k: nat, bound: nat) {
    && |now| == |rows| && |fs| > 0
    && AllBlobsKept(w, rows)
    && Like(w.fs, fs[0], RewrittenDown(rows, |rows|, 0, {}), bound)
    && (forall i :: 0 <= i < |rows| && i != k ==> now[i].rolledBack)
    && (k < |rows| ==> now[k].rolledBack || now[k] == rows[k].(result := now[k].result))
  }

  lemma {:induction false} DownSplits(rows: seq<Op>, hi: nat, mid: nat, lo: nat, after: set<Path>)
    requires lo <= mid <= hi <= |rows|
    ensures RewrittenDown(rows, hi, lo, after) == RewrittenDown(rows, mid, lo, RewrittenDown(rows, hi, mid, after))
    decreases hi
  {
    hide Rewritten;
    if hi > mid {
      DownSplits(rows, hi - 1, mid, lo, Rewritten(rows[hi - 1], after));
    }
  }

  /** Once row k has been dealt with, the rest of the run finishes. */
  lemma TailFinishes(fs: seq<FS>, rows: seq<Op>, r: Run, k: nat, bound: nat, env: nat -> Env)
    requires History(fs, rows) && k <= |rows| == |r.rows| && r.rows[..k] == rows[..k] && WritesSucceed(env)
    requires Like(r.w.fs, fs[k], RewrittenDown(rows, |rows|, k, {}), bound) && AllBlobsKept(r.w, rows)
    requires (forall i :: 0 <= i < |fs| ==> fs[i].clock <= bound) && CopiesIntact(rows, |rows|, 0, {})
    requires forall i :: k < i < |rows| ==> r.rows[i].rolledBack
    requires k < |rows| ==> r.rows[k].rolledBack || r.rows[k] == rows[k].(result := r.rows[k].result)
    ensures var f := Rollback(r, k, 0, env); Finished(fs, rows, f.w, f.rows, k, bound)
  {
    hide UndoOp, Like, Effect, Intact, Rewritten, Rollback;
    var n := |rows|;
    IntactSplits(rows, n, k, {});
    DownSplits(rows, n, k, 0, {});
    RestoresTo(fs, rows, r, k, 0, RewrittenDown(rows, n, k, {}), bound, env);
    RunFrame(r, k, 0, env);
  }

  /** A rerun from an interrupted state ends in the starting tree. */
  lemma RerunFinishes(fs: seq<FS>, rows: seq<Op>, w: World, now: seq<Op>, k: nat, bound: nat, env: nat -> Env)
    requires Interrupted(fs, rows, w, now, k, bound) && WritesSucceed(env)
    ensures var f := Rollback(Fresh(w, now), |rows|, 0, env);
            Finished(fs, rows, f.w, f.rows, k, bound)
  {
    hide UndoOp, Like, Effect, Intact, Rewritten;
    var n := |rows|;
    var r := Fresh(w, now);
    var lo := if k < n then k + 1 else k;
    RunSplits(r, n, lo, 0, env);
    SettledRowsAreLeftAlone(r, n, lo, env);
    var r1 := Rollback(r, n, lo, env);
    var r2 := r1;
    if k < n {
      r2 := UndoRow(r1, k, env(k));
      SecondLook(fs, rows, r1, k, bound, env(k));
    }
    TailFinishes(fs, rows, r2, k, bound, env);
  }

  lemma SecondLook(fs: seq<FS>, rows: seq<Op>, r: Run, k: nat, bound: nat, env: Env)
    requires Interrupted(fs, rows, r.w, r.rows, k, bound) && env.writeOk && k < |rows|
    ensures var r' := UndoRow(r, k, env);
            && Like(r'.w.fs, fs[k], RewrittenDown(rows, |rows|, k, {}), bound)
            && AllBlobsKept(r'.w, rows)
            && (r'.rows[k].rolledBack || r'.rows[k] == rows[k].(result := r'.rows[k].result))
  {
    hide UndoOp, Like, Effect, Intact, Rewritten;
    var n := |rows|;
    DownSplits(rows, n, k + 1, k, {});
    var before := RewrittenDown(rows, n, k + 1, {});
    assert RewrittenDown(rows, k + 1, k, before) == Rewritten(rows[k], before);
    assert Effect(fs[k], rows[k], fs[k + 1]);
    UndoSkips(r.w, r.rows[k], env);
    if !r.rows[k].rolledBack {
      UndoAgain(fs[k], rows[k], fs[k + 1], r.w, before, bound, env);
    }
    BlobsGrow(r, k, env, rows);
  }

  /** Nothing is half done: the rows from k on are undone and marked. */
  ghost predicate CleanCut(fs: seq<FS>, rows: seq<Op>, w: World, now: seq<Op>, k: nat, bound: nat) {
    Interrupted(fs, rows, w, now, k, bound) && forall i :: k <= i < |rows| ==> now[i].rolledBack
  }

  lemma StartIsClean(fs: seq<FS>, rows: seq<Op>, w: World)
    requires History(fs, rows) && w.fs == fs[|rows|] && Valid(w.fs) && AllBlobsKept(w, rows)
    requires CopiesIntact(rows, |rows|, 0, {})
    ensures CleanCut(fs, rows, w, rows, |rows|, w.fs.clock)
  {
    hide Effect, Intact, Rewritten;
    HistoryEnds(fs, rows);
  }

  function Lower(k: nat, j: nat): nat {
    if j < k then j else k
  }

  /** A run from such a state that is killed between two rows. */
  lemma DiesBetweenRows(fs: seq<FS>, rows: seq<Op>, w: World, now: seq<Op>, k: nat, bound: nat, j: nat,
                        env: nat -> Env)
    requires CleanCut(fs, rows, w, now, k, bound) && WritesSucceed(env) && j <= |rows|
    ensures var r := Rollback(Fresh(w, now), |rows|, j, env); CleanCut(fs, rows, r.w, r.rows, Lower(k, j), bound)
  {
    hide UndoOp, Like, Effect, Intact, Rewritten, CopiesIntact, RewrittenDown, Rollback;
    var n, r := |rows|, Fresh(w, now);
    if j >= k {
      SettledRowsAreLeftAlone(r, n, j, env);
    } else {
      RunSplits(r, n, k, j, env);
      SettledRowsAreLeftAlone(r, n, k, env);
      var r1 := Rollback(r, n, k, env);
      IntactSplits(rows, n, k, {});
      IntactSplits(rows, k, j, RewrittenDown(rows, n, k, {}));
      DownSplits(rows, n, k, j, {});
      assert r1.rows[..k] == rows[..k];
      RestoresTo(fs, rows, r1, k, j, RewrittenDown(rows, n, k, {}), bound, env);
      RunFrame(r1, k, j, env);
    }
  }

  /** One that is killed after the undo write of row j, before the row was marked. */
  lemma DiesBeforeMark(fs: seq<FS>, rows: seq<Op>, w: World, now: seq<Op>, k: nat, bound: nat, j: nat,
                       env: nat -> Env)
    requires CleanCut(fs, rows, w, now, k, bound) && WritesSucceed(env) && j < |rows|
    ensures var r := DieBeforeMark(Rollback(Fresh(w, now), |rows|, j + 1, env), j, env(j));
            Interrupted(fs, rows, r.w, r.rows, Lower(k, j), bound)
  {
    hide UndoOp, Like, Effect, Intact, Rewritten, CopiesIntact, RewrittenDown, AllBlobsKept;
    DiesBetweenRows(fs, rows, w, now, k, bound, j, env);
    DiesBetweenRows(fs, rows, w, now, k, bound, j + 1, env);
    var r := Rollback(Fresh(w, now), |rows|, j + 1, env);
    RunSplits(Fresh(w, now), |rows|, j + 1, j, env);
    assert Rollback(r, j + 1, j, env) == UndoRow(r, j, env(j));
    UndoSkips(r.w, r.rows[j], env(j));
  }

  /** What run after run leaves, run i being killed when it has dealt with row ks[i]. */
  function Killed(w: World, rows: seq<Op>, ks: seq<nat>, env: nat -> nat -> Env): Run {
    if ks == [] then Fresh(w, rows)
    else
      var n, p := |ks| - 1, Killed(w, rows, ks[..|ks| - 1], env);
      Rollback(Fresh(p.w, p.rows), |p.rows|, ks[n], env(n))
  }

  lemma {:induction false} KilledIsClean(fs: seq<FS>, rows: seq<Op>, w: World, ks: seq<nat>, env: nat -> nat -> Env)
    returns (k: nat)
    requires CleanCut(fs, rows, w, rows, |rows|, w.fs.clock) && forall i :: 0 <= i < |ks| ==> ks[i] <= |rows|
    requires forall i :: WritesSucceed(env(i))
    ensures var d := Killed(w, rows, ks, env); CleanCut(fs, rows, d.w, d.rows, k, w.fs.clock)
    decreases |ks|
  {
    hide CleanCut, Rollback;
    k := |rows|;
    if ks != [] {
      var n := |ks| - 1;
      k := KilledIsClean(fs, rows, w, ks[..n], env);
      var p := Killed(w, rows, ks[..n], env);
      CleanHasRows(fs, rows, p.w, p.rows, k, w.fs.clock);
      DiesBetweenRows(fs, rows, p.w, p.rows, k, w.fs.clock, ks[n], env(n));
      k := Lower(k, ks[n]);
    }
  }

  /** However many runs over a clean history were killed between two rows, and wherever the
      last one dies, even between a write and its mark: running it again restores the tree
      the history started from. */
  lemma CrashAndRerun(fs: seq<FS>, rows: seq<Op>, w: World, ks: seq<nat>, before: nat -> nat -> Env, j: nat,
                      marked: bool, env: nat -> Env, env': nat -> Env)
    requires History(fs, rows) && w.fs == fs[|rows|] && Valid(w.fs) && AllBlobsKept(w, rows)
    requires CopiesIntact(rows, |rows|, 0, {}) && WritesSucceed(env) && WritesSucceed(env')
    requires (forall i :: 0 <= i < |ks| ==> ks[i] <= |rows|) && forall i :: WritesSucceed(before(i))
    requires if marked then j <= |rows| else j < |rows|
    ensures var d := Killed(w, rows, ks, before);
            && |d.rows| == |rows|
            && var died := if marked then Rollback(Fresh(d.w, d.rows), |rows|, j, env)
                           else DieBeforeMark(Rollback(Fresh(d.w, d.rows), |rows|, j + 1, env), j, env(j));
               SameTree(Rollback(Fresh(died.w, died.rows), |rows|, 0, env').w.fs, fs[0])
  {
    hide UndoOp, Like, Effect, Intact, Rewritten, CopiesIntact, AllBlobsKept, Rollback, CleanCut;
    StartIsClean(fs, rows, w);
    var k := KilledIsClean(fs, rows, w, ks, before);
    var d := Killed(w, rows, ks, before);
    CleanHasRows(fs, rows, d.w, d.rows, k, w.fs.clock);
    var died := if marked then Rollback(Fresh(d.w, d.rows), |rows|, j, env)
                else DieBeforeMark(Rollback(Fresh(d.w, d.rows), |rows|, j + 1, env), j, env(j));
    if marked {
      DiesBetweenRows(fs, rows, d.w, d.rows, k, w.fs.clock, j, env);
      CleanHasRows(fs, rows, died.w, died.rows, Lower(k, j), w.fs.clock);
    } else {
      DiesBeforeMark(fs, rows, d.w, d.rows, k, w.fs.clock, j, env);
    }
    RerunFinishes(fs, rows, died.w, died.rows, Lower(k, j), w.fs.clock, env');
    var f := Rollback(Fresh(died.w, died.rows), |rows|, 0, env');
    FinishedIsSame(fs, rows, f.w, f.rows, Lower(k, j), w.fs.clock);
  }

  lemma CleanHasRows(fs: seq<FS>, rows: seq<Op>, w: World, now: seq<Op>, k: nat, bound: nat)
    requires CleanCut(fs, rows, w, now, k, bound)
    ensures |now| == |rows| && Interrupted(fs, rows, w, now, k, bound)
  {
  }

  lemma FinishedIsSame(fs: seq<FS>, rows: seq<Op>, w: World, now: seq<Op>, k: nat, bound: nat)
    requires Finished(fs, rows, w, now, k, bound)
    ensures SameTree(w.fs, fs[0])
  {
    LikeIsSame(w.fs, fs[0], RewrittenDown(rows, |rows|, 0, {}), bound);
  }

  /** The tree already looks the way the op left it, so an unmarked row would be
      undone once more. */
  ghost predicate Rearmed(op: Op, t: FS) {
    op.path != [] && match op.kind
    case Mkdir => DirAt(t, op.path) && !Populated(t, op.path)
    case Move => op.path !in t.tree && op.toPath in t.tree && DirAt(t, Parent(op.path))
    case Delete => op.path !in t.tree && DirAt(t, Parent(op.path))
    case _ =>
      && FileAt(t, op.path) && op.post == Content(t.tree[op.path].data)
      && (op.preState == WasFile ==> op.preBlob != Some(t.tree[op.path].data))
  }

  lemma LikeHas(s: FS, t: FS, rewritten: set<Path>, bound: nat, p: Path)
    requires Like(s, t, rewritten, bound)
    ensures (p in s.tree <==> p in t.tree) && (DirAt(s, p) <==> DirAt(t, p))
    ensures FileAt(t, p) ==> FileAt(s, p) && SameNode(s.tree[p], t.tree[p], p in rewritten, bound)
    ensures Populated(s, p) <==> Populated(t, p)
  {
    if p in t.tree {
      assert SameNode(s.tree[p], t.tree[p], p in rewritten, bound);
    }
    if q :| q in s.tree && p < q { assert q in t.tree && p < q; }
    if q :| q in t.tree && p < q { assert q in s.tree && p < q; }
  }

  lemma LateUndoOfTree(a: FS, op: Op, b: FS, t: FS, w: World, after: set<Path>, bound: nat, env: Env)
    requires Effect(a, op, b) && !op.rolledBack && op.kind in {Mkdir, Move, Delete}
    requires Like(w.fs, t, after, bound) && BlobsKept(w, op) && env.writeOk
    ensures SameTree(UndoOp(w, op, env).w.fs, t) <==> !Rearmed(op, t)
  {
    hide Like, SameTree, Moved;
    LikeHas(w.fs, t, after, bound, op.path);
    LikeHas(w.fs, t, after, bound, op.toPath);
    LikeHas(w.fs, t, after, bound, Parent(op.path));
    LikeIsSame(w.fs, t, after, bound);
    var u := UndoOp(w, op, env);
    if Rearmed(op, t) {
      assert op.path in u.w.fs.tree <==> op.path !in t.tree by {
        if op.kind == Move { MoveArrives(w.fs, op.toPath, op.path); }
      }
      Differs(u.w.fs, t, op.path);
    } else {
      assert u.w.fs == w.fs;
    }
  }

  lemma MoveArrives(fs: FS, from: Path, to: Path)
    requires from in fs.tree && !(from <= to) && !(to <= from)
    ensures to in Moved(fs.tree, from, to)
  {
    MovedAt(fs.tree, from, to, to);
    assert from + to[|to|..] == from;
  }

  lemma Differs(s: FS, t: FS, p: Path)
    requires p in s.tree <==> p !in t.tree
    ensures !SameTree(s, t)
  {
    assert s.tree.Keys != t.tree.Keys by {
      assert p in s.tree.Keys <==> p !in t.tree.Keys;
    }
  }

  lemma WriteDiffers(s: FS, t: FS, p: Path, data: Bytes)
    requires Valid(s) && SameTree(s, t) && p != [] && FileAt(t, p)
    ensures Write(s, p, data).Ok?
    ensures SameTree(Write(s, p, data).fs, t) <==> data == t.tree[p].data
  {
    assert DirAt(s, Parent(p));
  }

  lemma RemoveDiffers(s: FS, t: FS, p: Path)
    requires Valid(s) && p != [] && FileAt(t, p) && FileAt(s, p)
    ensures Remove(s, p, false).Ok? && !SameTree(Remove(s, p, false).fs, t)
  {
    OnlyDirsArePopulated(s, p);
    Differs(Remove(s, p, false).fs, t, p);
  }

  lemma LateUndoOfContent(a: FS, op: Op, b: FS, t: FS, w: World, after: set<Path>, bound: nat, env: Env)
    requires Effect(a, op, b) && !op.rolledBack && op.kind !in {Mkdir, Move, Delete}
    requires Valid(t) && t.clock <= a.clock && b.clock <= bound
    requires Like(w.fs, t, after, bound) && BlobsKept(w, op) && env.writeOk
    ensures SameTree(UndoOp(w, op, env).w.fs, t) <==> !Rearmed(op, t)
  {
    var u := UndoOp(w, op, env);
    var p := op.path;
    LikeHas(w.fs, t, after, bound, p);
    LikeIsSame(w.fs, t, after, bound);
    assert Changed(w.fs, op) == "" <==> FileAt(t, p) && op.post == Content(t.tree[p].data);
    assert Valid(w.fs) && Valid(b);
    hide Like, Effect, SameTree, Valid;
    if Changed(w.fs, op) != "" {
      assert u.w.fs == w.fs;
    } else if op.preState.WasFile? {
      WriteDiffers(w.fs, t, p, op.preBlob.value);
      assert u.w.fs == Write(w.fs, p, op.preBlob.value).fs;
    } else {
      RemoveDiffers(w.fs, t, p);
      assert u.w.fs == Remove(w.fs, p, false).fs;
    }
  }

  /** After a run that died before marking row k was rerun to the end, a further
      run keeps the starting tree exactly when that row was marked after all or
      the starting tree does not look like the row's after-state. */
  lemma FurtherRun(fs: seq<FS>, rows: seq<Op>, w: World, now: seq<Op>, k: nat, bound: nat, env: nat -> Env)
    requires History(fs, rows) && fs[|rows|].clock <= bound && k < |rows| && !rows[k].rolledBack
    requires Finished(fs, rows, w, now, k, bound) && WritesSucceed(env)
    ensures var f := Rollback(Fresh(w, now), |rows|, 0, env);
            SameTree(f.w.fs, fs[0]) <==> now[k].rolledBack || !Rearmed(rows[k], fs[0])
  {
    hide UndoOp, Like, Effect, SameTree, Rearmed, Valid;
    var n := |rows|;
    var r := Fresh(w, now);
    RunSplits(r, n, k + 1, 0, env);
    SettledRowsAreLeftAlone(r, n, k + 1, env);
    var r1 := Rollback(r, n, k + 1, env);
    var r2 := UndoRow(r1, k, env(k));
    SettledRowsAreLeftAlone(r2, k, 0, env);
    assert Rollback(r, n, 0, env).w == UndoOp(w, now[k], env(k)).w;
    FinishedIsSame(fs, rows, w, now, k, bound);
    UndoSkips(w, now[k], env(k));
    if !now[k].rolledBack {
      ResultIsIgnored(w, rows[k], now[k].result, env(k));
      LateUndo(fs, rows, w, k, bound, env(k));
    }
  }

  lemma ResultIsIgnored(w: World, op: Op, result: string, env: Env)
    requires !op.rolledBack
    ensures UndoOp(w, op.(result := result), env) == UndoOp(w, op, env)
  {
  }

  lemma LateUndo(fs: seq<FS>, rows: seq<Op>, w: World, k: nat, bound: nat, env: Env)
    requires History(fs, rows) && fs[|rows|].clock <= bound && k < |rows| && !rows[k].rolledBack
    requires Like(w.fs, fs[0], RewrittenDown(rows, |rows|, 0, {}), bound) && AllBlobsKept(w, rows) && env.writeOk
    ensures SameTree(UndoOp(w, rows[k], env).w.fs, fs[0]) <==> !Rearmed(rows[k], fs[0])
  {
    hide UndoOp, Like, SameTree, Rearmed, Effect;
    var after := RewrittenDown(rows, |rows|, 0, {});
    assert Effect(fs[k], rows[k], fs[k + 1]) && Effect(fs[0], rows[0], fs[1]);
    EffectValid(fs[0], rows[0], fs[1]);
    EffectValid(fs[k], rows[k], fs[k + 1]);
    ClocksGrow(fs, rows, k + 1);
    ClocksOrdered(fs, rows, k);
    if rows[k].kind in {Mkdir, Move, Delete} {
      LateUndoOfTree(fs[k], rows[k], fs[k + 1], fs[0], w, after, bound, env);
    } else {
      LateUndoOfContent(fs[k], rows[k], fs[k + 1], fs[0], w, after, bound, env);
    }
  }

  lemma EffectValid(a: FS, op: Op, b: FS)
    requires Effect(a, op, b)
    ensures Valid(a) && a.clock <= b.clock && (!op.rolledBack ==> op.path != [])
  {
  }

  lemma {:induction false} ClocksOrdered(fs: seq<FS>, rows: seq<Op>, k: nat)
    requires History(fs, rows) && k < |fs|
    ensures fs[0].clock <= fs[k].clock
  {
    hide Effect;
    if k > 0 {
      assert Effect(fs[k - 1], rows[k - 1], fs[k]);
      EffectValid(fs[k - 1], rows[k - 1], fs[k]);
      ClocksOrdered(fs, rows, k - 1);
    }
  }

  /** A file created and deleted again by the session, in a world without it. */
  ghost predicate Scratch(w: World, p: Path, c: Bytes, rows: seq<Op>, end: World) {
    && Valid(w.fs) && p != [] && p !in w.fs.tree && DirAt(w.fs, Parent(p))
    && rows == [Op(Create, p, [], Absent, None, "", Content(c), false, ""),
                Op(Delete, p, [], WasFile, Some(c), "", Incomplete, false, "")]
    && end.fs == FS(w.fs.tree, w.fs.clock + 1) && c in end.blobs
  }

  ghost function ScratchTrees(w: World, p: Path, c: Bytes): seq<FS> {
    [w.fs, FS(w.fs.tree[p := File(c, w.fs.clock)], w.fs.clock + 1), FS(w.fs.tree, w.fs.clock + 1)]
  }

  lemma ScratchIsHistory(w: World, p: Path, c: Bytes, rows: seq<Op>, end: World)
    requires Scratch(w, p, c, rows, end)
    ensures History(ScratchTrees(w, p, c), rows) && CopiesIntact(rows, 2, 0, {}) && Valid(end.fs)
  {
    var fs := ScratchTrees(w, p, c);
    assert Valid(fs[1]) by {
      forall q | q in fs[1].tree && q != [] ensures DirAt(fs[1], Parent(q)) {
        if q != p { assert DirAt(fs[0], Parent(q)); }
      }
    }
    OnlyDirsArePopulated(fs[1], p);
    assert fs[2].tree == fs[1].tree - {p};
    assert Effect(fs[0], rows[0], fs[1]) && Effect(fs[1], rows[1], fs[2]);
  }

  lemma EndKeepsBlobs(w: World, p: Path, c: Bytes, rows: seq<Op>, end: World)
    requires Scratch(w, p, c, rows, end)
    ensures AllBlobsKept(end, rows) && end.fs == ScratchTrees(w, p, c)[2]
  {
  }

  /** The delete has been undone already: the file is there. */
  lemma SecondUndoConflicts(fs: seq<FS>, rows: seq<Op>, w: World, now: seq<Op>, p: Path, c: Bytes, bound: nat, env: Env)
    requires |rows| == 2 && Interrupted(fs, rows, w, now, 1, bound) && |fs| == 3 && p in fs[1].tree
    requires rows[1] == Op(Delete, p, [], WasFile, Some(c), "", Incomplete, false, "")
    ensures UndoOp(w, rows[1], env).outcome == Conflict
  {
    hide History, CopiesIntact;
    LikeHas(w.fs, fs[1], RewrittenDown(rows, 2, 1, {}), bound, p);
  }

  /** Any scratch file: the run dies before marking the undone delete, the rerun
      restores the starting tree, and the run after that brings the file back. */
  lemma ScratchFileComesBack(w: World, p: Path, c: Bytes, rows: seq<Op>, end: World, env: nat -> Env)
    requires Scratch(w, p, c, rows, end) && WritesSucceed(env)
    ensures var died := DieBeforeMark(Rollback(Fresh(end, rows), 2, 2, env), 1, env(1));
            var again := Rollback(Fresh(died.w, died.rows), 2, 0, env);
            var third := Rollback(Fresh(again.w, again.rows), 2, 0, env);
            SameTree(again.w.fs, w.fs) && !SameTree(third.w.fs, w.fs)
  {
    hide UndoOp, Like, Effect, SameTree, Valid, CopiesIntact, RewrittenDown, Interrupted, CleanCut;
    var fs := ScratchTrees(w, p, c);
    ScratchIsHistory(w, p, c, rows, end);
    var died := DieBeforeMark(Rollback(Fresh(end, rows), 2, 2, env), 1, env(1));
    EndKeepsBlobs(w, p, c, rows, end);
    StartIsClean(fs, rows, end);
    DiesBeforeMark(fs, rows, end, rows, 2, end.fs.clock, 1, env);
    SecondUndoConflicts(fs, rows, died.w, died.rows, p, c, end.fs.clock, env(1));
    RerunFinishes(fs, rows, died.w, died.rows, 1, end.fs.clock, env);
    var again := Rollback(Fresh(died.w, died.rows), 2, 0, env);
    FinishedIsSame(fs, rows, again.w, again.rows, 1, end.fs.clock);
    RunFrame(UndoRow(Fresh(died.w, died.rows), 1, env(1)), 1, 0, env);
    FurtherRun(fs, rows, again.w, again.rows, 1, end.fs.clock, env);
  }
}
