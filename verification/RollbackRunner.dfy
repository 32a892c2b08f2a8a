/** The rollback loop itself, mutating the tree, the blob store, the rows and the
    plan step by step; each method is proved to do what Undo's functions say. */
module RollbackRunner {

  import opened Common
  import opened Tree
  import opened SessionLog
  import opened Undo

  /** The write an inverse performs through the filesystem interface. */
  datatype Action = PutContent(data: Bytes) | NewDirectory | RemovePath | MoveTo(to: Path)

  function Perform(fs: FS, p: Path, a: Action): Result {
    match a
    case PutContent(data) => Write(fs, p, data)
    case NewDirectory => MakeDir(fs, p)
    case RemovePath => Remove(fs, p, false)
    case MoveTo(to) => Rename(fs, p, to)
  }

  class Runner {
    var fs: FS
    var blobs: set<Bytes>
    const limit: nat
    var rows: seq<Op>
    var log: seq<Op>
    var restored: seq<Item>
    var skipped: seq<Item>
    var conflict: seq<Item>

    constructor (w: World, rows: seq<Op>)
      ensures View() == Fresh(w, rows)
    {
      fs, blobs, limit := w.fs, w.blobs, w.limit;
      this.rows, log := rows, [];
      restored, skipped, conflict := [], [], [];
    }

    function Here(): World
      reads this
    {
      World(fs, blobs, limit)
    }

    function View(): Run
      reads this
    {
      Run(Here(), rows, log, Plan(restored, skipped, conflict))
    }

    /** Capture, record, write, then complete the row or abandon it. */
    method RecordWrite(kind: Kind, path: Path, toPath: Path, action: Action, post: Post, env: Env)
      returns (err: Option<Err>)
      modifies this`fs, this`blobs, this`log
      ensures var a := RecordAndDo(old(Here()), kind, path, toPath, "", Perform(old(fs), path, action), post, env);
              Here() == a.w && log == old(log) + [a.row] && err == a.err
    {
      hide Perform, Failed, Capture;
      var pre := Capture(Here(), path, env.captureOk);
      if pre.blob.Some? {
        blobs := blobs + {pre.blob.value};
      }
      var row := Op(kind, path, toPath, pre.state, pre.blob, if pre.state == WasDir then "" else pre.reason, Incomplete,
                    false, "");
      var effect := Perform(fs, path, action);
      if effect.Ok? && env.writeOk {
        fs := effect.fs;
        row := row.(post := post);
        err := None;
      } else {
        fs := Failed(fs, kind, path, toPath, env);
        row := row.(rolledBack := true, result := "write_failed");
        err := Some(if effect.Fail? then effect.err else IO);
      }
      log := log + [row];
    }

    method Restore(op: Op, inverse: Kind, env: Env) returns (outcome: Outcome, reason: string)
      requires op.preBlob.Some?
      modifies this`fs, this`blobs, this`log
      ensures var u := RestoreContent(old(Here()), op, inverse, env);
              Here() == u.w && log == old(log) + u.log && outcome == u.outcome && reason == u.reason
    {
      var data := op.preBlob.value;
      if data !in blobs {
        return Skipped, "not_cached";
      }
      var err := RecordWrite(inverse, op.path, [], PutContent(data), Content(data), env);
      if err.Some? {
        return Conflict, ErrText(err.value);
      }
      return Restored, "";
    }

    method UndoContentWrite(op: Op, env: Env) returns (outcome: Outcome, reason: string)
      modifies this`fs, this`blobs, this`log
      ensures var u := if op.preState.Absent? then UndoCreate(old(Here()), op, env)
                       else if op.preState.WasDir? then Undone(old(Here()), Skipped, "dir", [])
                       else UndoOverwrite(old(Here()), op, env);
              Here() == u.w && log == old(log) + u.log && outcome == u.outcome && reason == u.reason
    {
      if op.preState.WasDir? {
        return Skipped, "dir";
      }
      if op.preState.Absent? && op.path !in fs.tree {
        return Skipped, "missing";
      }
      if op.preState.WasFile? && op.preBlob.None? {
        return Skipped, if op.preReason != "" then op.preReason else "not_cached";
      }
      var changed := Changed(fs, op);
      if changed != "" {
        return Conflict, changed;
      }
      if op.preState.WasFile? {
        outcome, reason := Restore(op, Overwrite, env);
        return;
      }
      var err := RecordWrite(Delete, op.path, [], RemovePath, Incomplete, env);
      if err.Some? {
        return Conflict, ErrText(err.value);
      }
      return Restored, "";
    }

    method UndoMadeDirectory(op: Op, env: Env) returns (outcome: Outcome, reason: string)
      modifies this`fs, this`blobs, this`log
      ensures var u := UndoMkdir(old(Here()), op, env);
              Here() == u.w && log == old(log) + u.log && outcome == u.outcome && reason == u.reason
    {
      if op.path !in fs.tree {
        return Skipped, "missing";
      }
      if !fs.tree[op.path].Dir? {
        return Conflict, "modified";
      }
      var err := RecordWrite(Delete, op.path, [], RemovePath, Incomplete, env);
      if err == Some(NotEmpty) {
        return Skipped, "not_empty";
      }
      if err.Some? {
        return Conflict, ErrText(err.value);
      }
      return Restored, "";
    }

    method UndoRenamed(op: Op, env: Env) returns (outcome: Outcome, reason: string)
      modifies this`fs, this`blobs, this`log
      ensures var u := UndoMove(old(Here()), op, env);
              Here() == u.w && log == old(log) + u.log && outcome == u.outcome && reason == u.reason
    {
      if op.path in fs.tree {
        return Conflict, "from_exists";
      }
      if op.toPath !in fs.tree {
        return Conflict, "missing";
      }
      var err := RecordWrite(Move, op.toPath, op.path, MoveTo(op.path), Incomplete, env);
      if err.Some? {
        return Conflict, ErrText(err.value);
      }
      return Restored, "";
    }

    method UndoRemoved(op: Op, env: Env) returns (outcome: Outcome, reason: string)
      modifies this`fs, this`blobs, this`log
      ensures var u := UndoDelete(old(Here()), op, env);
              Here() == u.w && log == old(log) + u.log && outcome == u.outcome && reason == u.reason
    {
      if op.preState.WasDir? && op.preReason != "" {
        return Skipped, op.preReason;
      }
      if op.preState.WasFile? && op.preBlob.None? {
        return Skipped, if op.preReason != "" then op.preReason else "not_cached";
      }
      if op.preState.Absent? {
        return Skipped, "missing";
      }
      if op.path in fs.tree {
        return Conflict, "exists";
      }
      if op.preState.WasDir? {
        var err := RecordWrite(Mkdir, op.path, [], NewDirectory, Incomplete, env);
        if err.Some? {
          return Conflict, ErrText(err.value);
        }
        return Restored, "";
      }
      outcome, reason := Restore(op, Create, env);
    }

    method UndoOne(op: Op, env: Env) returns (outcome: Outcome, reason: string)
      modifies this`fs, this`blobs, this`log
      ensures var u := UndoOp(old(Here()), op, env);
              Here() == u.w && log == old(log) + u.log && outcome == u.outcome && reason == u.reason
    {
      if op.rolledBack {
        return Skipped, if op.result != "" && op.result != "restored" then op.result else "already";
      }
      match op.kind
      case Move => outcome, reason := UndoRenamed(op, env);
      case Mkdir => outcome, reason := UndoMadeDirectory(op, env);
      case Delete => outcome, reason := UndoRemoved(op, env);
      case _ => outcome, reason := UndoContentWrite(op, env);
    }

    /** Undo one row, file the outcome, settle the row. */
    method Step(i: nat, env: Env)
      requires i < |rows|
      modifies this
      ensures View() == UndoRow(old(View()), i, env)
    {
      hide UndoOp;
      var op := rows[i];
      var outcome, reason := UndoOne(op, env);
      match outcome {
        case Restored => restored := restored + [Item(i, reason)];
        case Skipped => skipped := skipped + [Item(i, reason)];
        case Conflict => conflict := conflict + [Item(i, reason)];
      }
      if !op.rolledBack {
        var result := OutcomeText(outcome);
        if reason != "" {
          result := result + (": " + reason);
        }
        rows := rows[i := op.(rolledBack := outcome == Restored, result := result)];
      }
      assert View() == UndoRow(old(View()), i, env) by {
        assert old(rows) == old(rows)[i := op];
        assert OutcomeText(outcome) + "" == OutcomeText(outcome);
      }
    }

    /** Every row, newest first. */
    method RollbackAll(env: nat -> Env)
      modifies this
      ensures View() == Rollback(old(View()), |old(rows)|, 0, env)
    {
      var i := |rows|;
      while i > 0
        invariant 0 <= i <= |rows|
        invariant Rollback(View(), i, 0, env) == Rollback(old(View()), |old(rows)|, 0, env)
      {
        i := i - 1;
        Step(i, env(i));
      }
    }
  }
}
