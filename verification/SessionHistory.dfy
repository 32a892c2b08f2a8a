/** Whatever sequence of write tools an agent calls, with whatever captures and
    writes failing, the rows it records are a true history, as long as every
    needed preimage was kept. What a rollback of it then does. */
module SessionHistory {

  import opened Common
  import opened Tree
  import opened SessionLog
  import opened Undo
  import opened RollbackInverts
  import opened RollbackReplaced
  import opened RollbackLost

  /** The row keeps all that its undo needs. */
  predicate KeptRow(op: Op) {
    op.rolledBack || match op.kind
      case Mkdir => true
      case Move => true
      case Delete => if op.preState.WasDir? then op.preReason == "" else op.preBlob.Some?
      case _ => op.preState.WasFile? ==> op.preBlob.Some?
  }

  /** Every row of the session keeps all that its undo needs. */
  ghost predicate KeptSession(w: World, calls: seq<Call>, env: nat -> Env) {
    calls == [] ||
    (var n := |calls| - 1;
     && KeptSession(w, calls[..n], env)
     && KeptCall(Play(w, calls[..n], env).w, calls[n], env(n)))
  }

  predicate KeptCall(w: World, call: Call, env: Env) {
    var t := Tool(w, call, env);
    t.Some? ==> KeptRow(t.value.row)
  }

  /** The call is a move onto a path that exists, and gets as far as its target: it goes
      through, is refused because one path is inside the other, or fails halfway. */
  predicate Replacing(w: World, call: Call, env: Env) {
    && call.MovePath? && call.from in w.fs.tree && call.to in w.fs.tree && Tool(w, call, env).Some?
    && (env.writeOk || (env.halfway && call.from != call.to))
  }

  /** No call of the session was one. */
  ghost predicate ReplacesNothing(w: World, calls: seq<Call>, env: nat -> Env) {
    calls == [] ||
    (var n := |calls| - 1;
     && ReplacesNothing(w, calls[..n], env)
     && !Replacing(Play(w, calls[..n], env).w, calls[n], env(n)))
  }

  ghost predicate Recorded(w: World, a: Attempt) {
    && Effect(w.fs, a.row, a.w.fs)
    && w.blobs <= a.w.blobs && BlobsKept(a.w, a.row)
  }

  /** A recorded content write. */
  lemma ContentRecorded(w: World, kind: Kind, p: Path, data: Bytes, post: Post, env: Env)
    requires Valid(w.fs) && kind !in {Mkdir, Move, Delete}
    requires post == Content(data) || (p !in w.fs.tree && post == Version(w.fs.clock))
    requires KeptRow(RecordAndDo(w, kind, p, [], "", Write(w.fs, p, data), post, env).row)
    ensures Recorded(w, RecordAndDo(w, kind, p, [], "", Write(w.fs, p, data), post, env))
  {
    if Write(w.fs, p, data).Ok? { WriteValid(w.fs, p, data); }
  }

  lemma FailureRecorded(w: World, kind: Kind, p: Path, to: Path, reason: string, e: Err, post: Post, env: Env)
    requires Valid(w.fs) && (kind == Move ==> to !in w.fs.tree || p !in w.fs.tree)
    ensures Recorded(w, RecordAndDo(w, kind, p, to, reason, Fail(e), post, env))
  {
  }

  lemma DeleteRecorded(w: World, p: Path, recursive: bool, env: Env)
    requires Valid(w.fs) && p != []
    requires KeptRow(RecordAndDo(w, Delete, p, [], if recursive then "dir" else "", Remove(w.fs, p, recursive),
                                 Incomplete, env).row)
    ensures Recorded(w,
                     RecordAndDo(w, Delete, p, [], if recursive then "dir" else "", Remove(w.fs, p, recursive),
                                 Incomplete, env))
  {
    if Remove(w.fs, p, recursive).Ok? {
      RemoveValid(w.fs, p, recursive);
      if w.fs.tree[p].File? { OnlyDirsArePopulated(w.fs, p); }
      if !Populated(w.fs, p) { WithoutLeaf(w.fs, p); }
    }
  }

  lemma MkdirRecorded(w: World, p: Path, env: Env)
    requires Valid(w.fs) && p != []
    ensures Recorded(w, RecordAndDo(w, Mkdir, p, [], "", MakeDir(w.fs, p), Incomplete, env))
  {
    if MakeDir(w.fs, p).Ok? { MakeDirValid(w.fs, p); }
  }

  lemma MoveRecorded(w: World, from: Path, to: Path, env: Env)
    requires Valid(w.fs) && from != [] && to != [] && to !in w.fs.tree
    ensures Recorded(w, RecordAndDo(w, Move, from, to, "", Rename(w.fs, from, to), Incomplete, env))
  {
    if Rename(w.fs, from, to).Ok? { MovedValid(w.fs, from, to); }
  }

  /** A row that tells the truth about its write, whatever it replaced. */
  ghost predicate Noted(w: World, a: Attempt) {
    Told(w.fs, a.row, a.w.fs) && w.blobs <= a.w.blobs && BlobsKept(a.w, a.row)
  }

  lemma RecordedIsNoted(w: World, a: Attempt)
    requires Recorded(w, a)
    ensures Noted(w, a) && Effect(w.fs, a.row, a.w.fs)
  {
  }

  /** A move onto an existing path replaces it, whole. */
  lemma ReplacedValid(fs: FS, from: Path, to: Path)
    requires Valid(fs) && from in fs.tree && from != [] && to != [] && DirAt(fs, Parent(to)) && !(from <= to) &&
      !(to <= from)
    ensures Valid(fs.(tree := Moved(fs.tree, from, to)))
  {
    var g := fs.(tree := Moved(fs.tree, from, to));
    MovedAt(fs.tree, from, to, []);
    forall q | q in g.tree ensures q != [] ==> DirAt(g, Parent(q)) {
      if q != [] { MovedParent(fs, from, to, q); }
    }
    forall q | FileAt(g, q) ensures g.tree[q].version < g.clock {
      MovedAt(fs.tree, from, to, q);
    }
  }

  lemma MoveNoted(w: World, from: Path, to: Path, env: Env)
    requires Valid(w.fs) && from != [] && to != []
    ensures var a := RecordAndDo(w, Move, from, to, "", Rename(w.fs, from, to), Incomplete, env);
      Noted(w, a) &&
      (Effect(w.fs, a.row, a.w.fs) <==>
         !(from in w.fs.tree && to in w.fs.tree && (env.writeOk || (env.halfway && from != to))))
  {
    hide Moved, Valid;
    if to !in w.fs.tree {
      MoveRecorded(w, from, to, env);
    } else if from in w.fs.tree && from != to && (!env.writeOk || from <= to || to <= from) {
      MoveFailed(w, from, to, env);
    } else if from in w.fs.tree && from != to {
      TargetHasParent(w.fs, to);
      ReplacedValid(w.fs, from, to);
    }
  }

  lemma TargetHasParent(fs: FS, p: Path)
    requires Valid(fs) && p in fs.tree && p != []
    ensures DirAt(fs, Parent(p))
  {
  }

  /** A move that fails with its target in place has removed it or done nothing. */
  lemma MoveFailed(w: World, from: Path, to: Path, env: Env)
    requires Valid(w.fs) && from in w.fs.tree && to in w.fs.tree && to != [] && from != to
    requires !env.writeOk || from <= to || to <= from
    ensures var a := RecordAndDo(w, Move, from, to, "", Rename(w.fs, from, to), Incomplete, env);
      && a.row.rolledBack && Noted(w, a)
      && (Effect(w.fs, a.row, a.w.fs) <==> !env.writeOk && !env.halfway)
  {
    hide Moved;
    RemoveValid(w.fs, to, true);
  }

  /** Every tool call whose row keeps what its undo needs records a row that tells the
      truth about its write; it is a clean one exactly when the call replaced nothing. */
  lemma ToolRecorded(w: World, call: Call, env: Env)
    requires Valid(w.fs) && Tool(w, call, env).Some? && KeptCall(w, call, env)
    ensures var a := Tool(w, call, env).value;
      Noted(w, a) && (Effect(w.fs, a.row, a.w.fs) <==> !Replacing(w, call, env))
  {
    hide Recorded, RecordAndDo, Valid, KeptRow, Noted, Effect;
    if call.MovePath? {
      MoveNoted(w, call.from, call.to, env);
    } else {
      ToolClean(w, call, env);
      RecordedIsNoted(w, Tool(w, call, env).value);
    }
  }

  lemma ToolClean(w: World, call: Call, env: Env)
    requires Valid(w.fs) && Tool(w, call, env).Some? && KeptCall(w, call, env) && !call.MovePath?
    ensures Recorded(w, Tool(w, call, env).value)
  {
    hide Recorded, RecordAndDo, Valid, KeptRow;
    match call
    case WriteFile(mode, p, data) =>
      if mode == Append {
        var whole := if FileAt(w.fs, p) then w.fs.tree[p].data + data else data;
        AppendRecorded(w, p, data, whole, env);
      } else {
        ContentRecorded(w, mode, p, data, Content(data), env);
      }
    case EditFile(p, data) => ContentRecorded(w, Edit, p, data, Content(data), env);
    case MakeDirectory(p) => MkdirRecorded(w, p, env);
    case CopyFile(from, to) =>
      var effect := Copy(w.fs, from, to);
      if effect.Ok? {
        ContentRecorded(w, Create, to, w.fs.tree[from].data, Version(w.fs.clock), env);
      } else {
        FailureRecorded(w, Create, to, [], "", effect.err, Incomplete, env);
      }
    case DeletePath(p, recursive) => DeleteRecorded(w, p, recursive, env);
  }

  lemma AppendRecorded(w: World, p: Path, data: Bytes, whole: Bytes, env: Env)
    requires Valid(w.fs) && whole == (if FileAt(w.fs, p) then w.fs.tree[p].data + data else data)
    requires KeptRow(RecordAndDo(w, Append, p, [], "", Write(w.fs, p, whole), AppendPost(w, p, data, env.captureOk),
                                 env).row)
    ensures Recorded(w,
                     RecordAndDo(w, Append, p, [], "", Write(w.fs, p, whole), AppendPost(w, p, data, env.captureOk),
                                 env))
  {
    if Write(w.fs, p, whole).Ok? && env.writeOk {
      WriteValid(w.fs, p, whole);
    } else {
      FailureRecorded(w, Append, p, [], "", IO, AppendPost(w, p, data, env.captureOk), env);
    }
  }

  /** The trees between the recorded rows of a session. */
  ghost function Trees(w: World, calls: seq<Call>, env: nat -> Env): seq<FS> {
    if calls == [] then [w.fs]
    else
      var n := |calls| - 1;
      var t := Tool(Play(w, calls[..n], env).w, calls[n], env(n));
      if t.Some? then Trees(w, calls[..n], env) + [t.value.w.fs] else Trees(w, calls[..n], env)
  }

  lemma {:induction false} SessionIsHistory(w: World, calls: seq<Call>, env: nat -> Env)
    requires Valid(w.fs) && KeptSession(w, calls, env)
    ensures var s := Play(w, calls, env);
            var fs := Trees(w, calls, env);
            && |fs| == |s.rows| + 1 && ToldHistory(fs, s.rows) && fs[0] == w.fs && fs[|s.rows|] == s.w.fs
            && Valid(s.w.fs) && AllBlobsKept(s.w, s.rows)
            && (History(fs, s.rows) <==> ReplacesNothing(w, calls, env))
    decreases |calls|
  {
    hide Effect, Told, Tool, Valid, KeptRow, History, ToldHistory, AllBlobsKept, BlobsKept, Noted, KeptCall, Replacing;
    if calls == [] {
      EmptyHistory(w);
    } else {
      var n := |calls| - 1;
      var prev := calls[..n];
      SessionIsHistory(w, prev, env);
      var s := Play(w, prev, env);
      var t := Tool(s.w, calls[n], env(n));
      if t.Some? {
        ToolRecorded(s.w, calls[n], env(n));
        NotedValid(s.w, t.value);
        NotedGrows(Trees(w, prev, env), s, t.value);
      } else {
        RefusedReplacesNothing(s.w, calls[n], env(n));
      }
    }
  }

  lemma RefusedReplacesNothing(w: World, call: Call, env: Env)
    requires Tool(w, call, env).None?
    ensures !Replacing(w, call, env)
  {
  }

  lemma HistoryGrows(fs: seq<FS>, s: Session, a: Attempt)
    requires History(fs, s.rows) && fs[|s.rows|] == s.w.fs && AllBlobsKept(s.w, s.rows) && Recorded(s.w, a)
    ensures History(fs + [a.w.fs], s.rows + [a.row])
    ensures AllBlobsKept(a.w, s.rows + [a.row])
  {
    hide Effect;
  }

  lemma NotedGrows(fs: seq<FS>, s: Session, a: Attempt)
    requires ToldHistory(fs, s.rows) && fs[|s.rows|] == s.w.fs && AllBlobsKept(s.w, s.rows) && Noted(s.w, a)
    ensures ToldHistory(fs + [a.w.fs], s.rows + [a.row])
    ensures History(fs + [a.w.fs], s.rows + [a.row]) <==> History(fs, s.rows) && Effect(s.w.fs, a.row, a.w.fs)
    ensures AllBlobsKept(a.w, s.rows + [a.row])
  {
    hide Effect, Told;
    var fs', rows' := fs + [a.w.fs], s.rows + [a.row];
    assert fs'[|s.rows|] == s.w.fs && fs'[|s.rows| + 1] == a.w.fs && rows'[|s.rows|] == a.row;
    if History(fs', rows') {
      forall i | 0 <= i < |s.rows| ensures Effect(fs[i], s.rows[i], fs[i + 1]) {
        assert Effect(fs'[i], rows'[i], fs'[i + 1]);
      }
    }
  }

  lemma EmptyHistory(w: World)
    ensures History([w.fs], []) && ToldHistory([w.fs], []) && AllBlobsKept(w, [])
  {
  }

  lemma RecordedValid(w: World, a: Attempt)
    requires Recorded(w, a)
    ensures Valid(a.w.fs)
  {
  }

  lemma NotedValid(w: World, a: Attempt)
    requires Noted(w, a)
    ensures Valid(a.w.fs)
  {
  }

  /** For every session of tool calls whose writes are the only changes: rollback settles
      every row and restores the tree the session started from, exactly when no move, done
      or failed, got as far as a target that existed and no copied file was overwritten or
      deleted later. */
  lemma RollbackInvertsSession(w: World, calls: seq<Call>, env: nat -> Env, undoEnv: nat -> Env)
    requires Valid(w.fs) && KeptSession(w, calls, env) && WritesSucceed(undoEnv)
    ensures var s := Play(w, calls, env);
            var f := Rollback(Fresh(s.w, s.rows), |s.rows|, 0, undoEnv);
            AllSettled(f.rows) && SameTree(f.w.fs, w.fs) <==>
              ReplacesNothing(w, calls, env) && CopiesIntact(s.rows, |s.rows|, 0, {})
  {
    hide *;
    SessionIsHistory(w, calls, env);
    var s := Play(w, calls, env);
    RollbackInvertsExactly(Trees(w, calls, env), s.rows, s.w, undoEnv);
  }

  /** For every such session in which each undo that finds its object can do its work: the
      tree ends as it started, less exactly the paths that the rows say are lost. */
  lemma RollbackLosesExactlyOfSession(w: World, calls: seq<Call>, env: nat -> Env, undoEnv: nat -> Env)
    requires Valid(w.fs) && KeptSession(w, calls, env) && WritesSucceed(undoEnv)
    requires var s := Play(w, calls, env);
      |Trees(w, calls, env)| == |s.rows| + 1 && AllWork(Trees(w, calls, env), s.rows, |s.rows|, 0, {}, {})
    ensures var s := Play(w, calls, env);
            var f, lost := Rollback(Fresh(s.w, s.rows), |s.rows|, 0, undoEnv),
              LostDown(Trees(w, calls, env), s.rows, |s.rows|, 0, {});
            && SameTree(f.w.fs, Minus(w.fs, lost))
            && (SameTree(f.w.fs, w.fs) <==> lost == {})
  {
    hide *;
    SessionIsHistory(w, calls, env);
    var s := Play(w, calls, env);
    RollbackLosesExactly(Trees(w, calls, env), s.rows, s.w, undoEnv);
  }
}
