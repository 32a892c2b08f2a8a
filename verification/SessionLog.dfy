/** The write log of an agent session: what a tool captures before it writes,
    the row it records, and how the row is completed or abandoned. */
module SessionLog {

  import opened Common
  import opened Tree

  datatype PreState = Absent | WasFile | WasDir

  /** What a write left behind. SHA-256 is taken as injective, so a content hash
      is the content itself. */
  datatype Post = Incomplete | Content(of: Bytes) | Version(v: nat)

  datatype Kind = Create | Overwrite | Append | Edit | Mkdir | Move | Delete

  datatype Op = Op(kind: Kind, path: Path, toPath: Path,
                   preState: PreState, preBlob: Option<Bytes>, preReason: string,
                   post: Post, rolledBack: bool, result: string)

  /** The filesystem, the preimage blobs on disk, and the largest file a
      preimage is kept for. */
  datatype World = World(fs: FS, blobs: set<Bytes>, limit: nat)

  /** Whether the reads behind one capture and the write itself succeed, and whether a
      move that fails does so after it removed its target. */
  datatype Env = Env(captureOk: bool, writeOk: bool, halfway: bool)

  datatype Pre = Pre(state: PreState, blob: Option<Bytes>, reason: string)

  datatype Attempt = Attempt(w: World, row: Op, err: Option<Err>)

  function Capture(w: World, p: Path, ok: bool): Pre {
    if p !in w.fs.tree then Pre(Absent, None, "")
    else match w.fs.tree[p]
      case Dir => Pre(WasDir, None, "")
      case File(data, _) =>
        if |data| > w.limit then Pre(WasFile, None, "too_large")
        else if !ok then Pre(WasFile, None, "not_cached")
        else Pre(WasFile, Some(data), "")
  }

  function Kept(blobs: set<Bytes>, pre: Pre): set<Bytes> {
    if pre.blob.Some? then blobs + {pre.blob.value} else blobs
  }

  /** What a failing write leaves behind. A move that nothing outside stops, and that is
      refused for what it asks, has removed its target by then. */
  function Failed(fs: FS, kind: Kind, from: Path, to: Path, env: Env): FS {
    if kind == Move && (env.writeOk || env.halfway) then Cleared(fs, from, to) else fs
  }

  /** Capture, record the row, write, then complete the row or abandon it. */
  function RecordAndDo(w: World, kind: Kind, path: Path, toPath: Path, dirReason: string,
                       effect: Result, post: Post, env: Env): Attempt
  {
    var pre := Capture(w, path, env.captureOk);
    var reason := if pre.state == WasDir then dirReason else pre.reason;
    var row := Op(kind, path, toPath, pre.state, pre.blob, reason, Incomplete, false, "");
    var w' := w.(blobs := Kept(w.blobs, pre));
    if effect.Ok? && env.writeOk then
      Attempt(w'.(fs := effect.fs), row.(post := post), None)
    else
      Attempt(w'.(fs := Failed(w.fs, kind, path, toPath, env)), row.(rolledBack := true, result := "write_failed"),
              Some(if effect.Fail? then effect.err else IO))
  }

  /** The write tools an agent may call. */
  datatype Call =
    | WriteFile(mode: Kind, path: Path, data: Bytes)
    | EditFile(path: Path, data: Bytes)
    | MakeDirectory(path: Path)
    | MovePath(from: Path, to: Path)
    | CopyFile(from: Path, to: Path)
    | DeletePath(path: Path, recursive: bool)

  datatype Session = Session(w: World, rows: seq<Op>)

  function AppendPost(w: World, p: Path, data: Bytes, ok: bool): Post {
    var pre := Capture(w, p, ok);
    if pre.state == Absent then Content(data)
    else if pre.blob.Some? then Content(pre.blob.value + data)
    else Incomplete
  }

  /** The row a call records and the world it leaves; refused calls leave none. */
  function Tool(w: World, call: Call, env: Env): Option<Attempt> {
    match call
    case WriteFile(mode, p, data) =>
      if mode !in {Create, Overwrite, Append} then None
      else if mode == Create && p in w.fs.tree then None
      else if mode == Append then
        var whole := if FileAt(w.fs, p) then w.fs.tree[p].data + data else data;
        Some(RecordAndDo(w, mode, p, [], "", Write(w.fs, p, whole), AppendPost(w, p, data, env.captureOk), env))
      else
        Some(RecordAndDo(w, mode, p, [], "", Write(w.fs, p, data), Content(data), env))
    case EditFile(p, data) =>
      if !FileAt(w.fs, p) then None
      else Some(RecordAndDo(w, Edit, p, [], "", Write(w.fs, p, data), Content(data), env))
    case MakeDirectory(p) =>
      if p in w.fs.tree || p == [] || !DirAt(w.fs, Parent(p)) then None
      else Some(RecordAndDo(w, Mkdir, p, [], "", MakeDir(w.fs, p), Incomplete, env))
    case MovePath(from, to) =>
      if from == [] || to == [] || Parent(from) !in w.fs.tree || Parent(to) !in w.fs.tree then None
      else Some(RecordAndDo(w, Move, from, to, "", Rename(w.fs, from, to), Incomplete, env))
    case CopyFile(from, to) =>
      var effect := Copy(w.fs, from, to);
      var post := if effect.Ok? then Version(w.fs.clock) else Incomplete;
      Some(RecordAndDo(w, Create, to, [], "", effect, post, env))
    case DeletePath(p, recursive) =>
      if p == [] || Parent(p) !in w.fs.tree then None
      else Some(RecordAndDo(w, Delete, p, [], if recursive then "dir" else "",
                            Remove(w.fs, p, recursive), Incomplete, env))
  }

  function Apply(s: Session, call: Call, env: Env): Session {
    match Tool(s.w, call, env)
    case None => s
    case Some(a) => Session(a.w, s.rows + [a.row])
  }

  /** A whole session: `env(i)` is what happens around call i. */
  function Play(w: World, calls: seq<Call>, env: nat -> Env): Session {
    if calls == [] then Session(w, [])
    else Apply(Play(w, calls[..|calls| - 1], env), calls[|calls| - 1], env(|calls| - 1))
  }
}
