/** Rollback of a session: its rows undone in reverse order, each one checked
    against the tree before it is touched, every write of its own recorded in a
    log that can be rolled back in turn. */
module Undo {

  import opened Common
  import opened Tree
  import opened SessionLog

  datatype Outcome = Restored | Skipped | Conflict

  datatype Undone = Undone(w: World, outcome: Outcome, reason: string, log: seq<Op>)

  datatype Item = Item(row: nat, reason: string)

  datatype Plan = Plan(restored: seq<Item>, skipped: seq<Item>, conflict: seq<Item>)

  /** One rollback run: the world, the rows of the session being rolled back,
      the rows this run recorded, and the plan so far. */
  datatype Run = Run(w: World, rows: seq<Op>, log: seq<Op>, plan: Plan)

  const EmptyPlan := Plan([], [], [])

  function ErrText(e: Err): string {
    match e
    case NotFound => "not found"
    case Exists => "exists"
    case NotEmpty => "not empty"
    case IsDir => "is a directory"
    case NotDir => "not a directory"
    case Invalid => "invalid"
    case IO => "input/output error"
  }

  function OutcomeText(o: Outcome): string {
    match o
    case Restored => "restored"
    case Skipped => "skipped"
    case Conflict => "conflict"
  }

  /** "" when the file at op.path still holds what the op wrote, else why not. */
  function Changed(fs: FS, op: Op): string {
    if op.post.Incomplete? then "incomplete"
    else if op.path !in fs.tree then "missing"
    else if fs.tree[op.path].Dir? then "modified"
    else match op.post
      case Content(c) => if fs.tree[op.path].data == c then "" else "modified"
      case Version(v) => if fs.tree[op.path].version == v then "" else "modified"
      case Incomplete => "incomplete"
  }

  /** The result of an attempted inverse write. */
  function Settle(a: Attempt): Undone {
    match a.err
    case None => Undone(a.w, Restored, "", [a.row])
    case Some(e) => Undone(a.w, Conflict, ErrText(e), [a.row])
  }

  function RestoreContent(w: World, op: Op, inverse: Kind, env: Env): Undone
    requires op.preBlob.Some?
  {
    var data := op.preBlob.value;
    if data !in w.blobs then Undone(w, Skipped, "not_cached", [])
    else Settle(RecordAndDo(w, inverse, op.path, [], "", Write(w.fs, op.path, data), Content(data), env))
  }

  function UndoOverwrite(w: World, op: Op, env: Env): Undone {
    if op.preBlob.None? then Undone(w, Skipped, if op.preReason != "" then op.preReason else "not_cached", [])
    else if Changed(w.fs, op) != "" then Undone(w, Conflict, Changed(w.fs, op), [])
    else RestoreContent(w, op, Overwrite, env)
  }

  function UndoCreate(w: World, op: Op, env: Env): Undone {
    if op.path !in w.fs.tree then Undone(w, Skipped, "missing", [])
    else if Changed(w.fs, op) != "" then Undone(w, Conflict, Changed(w.fs, op), [])
    else Settle(RecordAndDo(w, Delete, op.path, [], "", Remove(w.fs, op.path, false), Incomplete, env))
  }

  function UndoMkdir(w: World, op: Op, env: Env): Undone {
    if op.path !in w.fs.tree then Undone(w, Skipped, "missing", [])
    else if !w.fs.tree[op.path].Dir? then Undone(w, Conflict, "modified", [])
    else
      var a := RecordAndDo(w, Delete, op.path, [], "", Remove(w.fs, op.path, false), Incomplete, env);
      if a.err == Some(NotEmpty) then Undone(a.w, Skipped, "not_empty", [a.row]) else Settle(a)
  }

  function UndoMove(w: World, op: Op, env: Env): Undone {
    if op.path in w.fs.tree then Undone(w, Conflict, "from_exists", [])
    else if op.toPath !in w.fs.tree then Undone(w, Conflict, "missing", [])
    else Settle(RecordAndDo(w, Move, op.toPath, op.path, "", Rename(w.fs, op.toPath, op.path), Incomplete, env))
  }

  function UndoDelete(w: World, op: Op, env: Env): Undone {
    if op.preState.WasDir? && op.preReason != "" then Undone(w, Skipped, op.preReason, [])
    else if op.preState.WasFile? && op.preBlob.None? then
      Undone(w, Skipped, if op.preReason != "" then op.preReason else "not_cached", [])
    else if op.preState.Absent? then Undone(w, Skipped, "missing", [])
    else if op.path in w.fs.tree then Undone(w, Conflict, "exists", [])
    else if op.preState.WasDir? then
      Settle(RecordAndDo(w, Mkdir, op.path, [], "", MakeDir(w.fs, op.path), Incomplete, env))
    else RestoreContent(w, op, Create, env)
  }

  function UndoOp(w: World, op: Op, env: Env): Undone {
    if op.rolledBack then
      Undone(w, Skipped, if op.result != "" && op.result != "restored" then op.result else "already", [])
    else match op.kind
      case Move => UndoMove(w, op, env)
      case Mkdir => UndoMkdir(w, op, env)
      case Delete => UndoDelete(w, op, env)
      case _ =>
        match op.preState
        case Absent => UndoCreate(w, op, env)
        case WasDir => Undone(w, Skipped, "dir", [])
        case WasFile => UndoOverwrite(w, op, env)
  }

  /** The row after a run looked at it; a settled row keeps its record. */
  function Marked(op: Op, u: Undone): Op {
    if op.rolledBack then op
    else op.(rolledBack := u.outcome == Restored,
             result := OutcomeText(u.outcome) + (if u.reason != "" then ": " + u.reason else ""))
  }

  function Filed(plan: Plan, u: Undone, row: nat): Plan {
    match u.outcome
    case Restored => plan.(restored := plan.restored + [Item(row, u.reason)])
    case Skipped => plan.(skipped := plan.skipped + [Item(row, u.reason)])
    case Conflict => plan.(conflict := plan.conflict + [Item(row, u.reason)])
  }

  function UndoRow(r: Run, i: nat, env: Env): Run
    requires i < |r.rows|
  {
    var u := UndoOp(r.w, r.rows[i], env);
    Run(u.w, r.rows[i := Marked(r.rows[i], u)], r.log + u.log, Filed(r.plan, u, i))
  }

  /** Rows hi-1 down to lo, newest first. */
  function Rollback(r: Run, hi: nat, lo: nat, env: nat -> Env): (f: Run)
    requires hi <= |r.rows|
    ensures |f.rows| == |r.rows|
    decreases hi
  {
    if hi <= lo then r else Rollback(UndoRow(r, hi - 1, env(hi - 1)), hi - 1, lo, env)
  }

  /** A run that dies after the undo write of row i and before its mark. */
  function DieBeforeMark(r: Run, i: nat, env: Env): Run
    requires i < |r.rows|
  {
    UndoRow(r, i, env).(rows := r.rows, plan := r.plan)
  }

  /** The next run over the same rows. */
  function Fresh(w: World, rows: seq<Op>): Run {
    Run(w, rows, [], EmptyPlan)
  }
}
