/** The steps of the cache: when each may happen and what it does. */
module CacheSteps {

  import opened Common
  import opened Geometry
  import opened Ranges
  import opened CacheModel
  import opened CacheInvariant

  /** Calls that take the admission lock, evict under it, and leave it. */
  datatype Admission =
    | AskBlock(id: BlockId, n: nat, size: nat)
    | AskRange(id: BlockId, off: nat, n: nat, size: nat)
    | AskPart(id: BlockId, n: nat, size: nat)
    | AskHydrate(key: FileKey)
    | AskPutWhole(key: FileKey, size: nat)
    | AskLink(key: FileKey, inode: nat, size: nat, pinned: bool)
    | AskSweep
    | Evicts(victim: Victim)
    | Grant
    | Unlock

  /** What is stored once the room is granted. */
  datatype Commit =
    | CommitPut(data: Bytes, now: int)
    | CommitAsync(data: Bytes, now: int)
    | CommitRange(data: Bytes, now: int)
    | CommitRangeSync(data: Bytes, now: int)
    | CommitPart(data: Bytes, now: int)
    | CommitReserve
    | CommitLink(data: Bytes, now: int)

  /** Write-behind, installs in flight, leases, pins and lookups. */
  datatype Work =
    | BeginFlush(id: BlockId)
    | EndFlush(tag: nat, ok: bool)
    | EnsurePart(tag: nat, now: int)
    | DropHanded(tag: nat)
    | NoteHanded(tag: nat, now: int)
    | FlushPartial(id: BlockId, ok: bool)
    | AdoptBlock(id: BlockId, now: int)
    | Publish(key: FileKey, inode: nat, now: int)
    | CopyNext(token: nat)
    | FinishHydrate(token: nat, inode: nat, now: int)
    | FinishPutWhole(token: nat, inode: nat, data: Bytes, now: int)
    | AbortInstall(token: nat)
    | ForgetFile(key: FileKey)
    | SetPin(key: FileKey, pinned: bool, user: bool)
    | Lease(key: FileKey, now: int)
    | Unlease(inode: nat)
    | LookUp(key: FileKey, index: nat, now: int)
    | CloseCache

  datatype Action = Admit(admission: Admission) | Store(commit: Commit) | Do(work: Work)

  /** blockRoom: bytes and entries a request is short of, given what it replaces. */
  ghost function Room(s: State, r: Request): (nat, nat) {
    match r
    case BlockReq(id, n, _) =>
      if id !in s.blocks || Flushing(s, id) then (n, 1)
        else (if n > s.blocks[id].size then n - s.blocks[id].size else 0, 0)
    case RangeReq(id, off, n, size) =>
      if id !in s.blocks then (n, 1)
      else if s.blocks[id].bits.None? then (0, 0)
      else
        var L := BlockLen(s.cfg, id.index, size);
        (Covered(s.cfg.subSize, L, Missing(s.cfg, s.blocks, id, off, n), PieceCount(s.cfg.subSize, L)), 0)
    case PartReq(id, n, _, _, _) => (n, if id.file in s.parts then 0 else 1)
    case InstallReq(_, i) => (i.size, 1)
    case LinkReq(_, o, size, pinned) => if o in s.objects || pinned then (0, 0) else (size, 1)
    case SweepReq => (0, 0)
  }

  /** A request whose room is nothing skips the search for it. */
  ghost function Asked(s: State, r: Request): State {
    var room := Room(s, r);
    s.(lock := if (r.RangeReq? || r.LinkReq?) && room == (0, 0) then Granted(r) else Asking(r, room.0, room.1))
  }

  ghost predicate CapsHold(s: State, need: nat, entries: nat) {
    && (s.cfg.maxBytes > 0 ==> Charge(s) + need <= s.cfg.maxBytes)
    && (s.cfg.maxBlocks > 0 ==> Entries(s) + entries <= s.cfg.maxBlocks)
  }

  predicate AnyInMemory(s: State, k: FileKey) {
    exists id :: id in s.blocks && id.file == k && s.blocks[id].mem.Some?
  }

  function NewInstall(s: State, k: FileKey, hydrate: bool, size: nat): Install {
    Install(hydrate, k, FileOf(s, k).tag, FileOf(s, k).generation, size, 0, [])
  }

  /** The file is kept busy by a new token. */
  function Hold(s: State, k: FileKey): State {
    SetFile(s, k, FileOf(s, k).(holds := FileOf(s, k).holds + {s.nextTag})).(nextTag := s.nextTag + 1)
  }

  /** The hold a request took on its file is let go. */
  function WithoutHold(s: State, r: Request): State {
    match r
    case PartReq(id, _, _, token, fileTag) => ReleaseHold(s, id.file, fileTag, token)
    case InstallReq(token, i) => ReleaseHold(s, i.key, i.fileTag, token)
    case _ => s
  }

  function Freed(s: State): State {
    if s.lock.Free? then s else WithoutHold(s, s.lock.req).(lock := Free)
  }

  ghost predicate CanAdmit(s: State, a: Admission) {
    match a
    case AskBlock(_, _, _) => s.lock.Free?
    case AskRange(id, off, n, size) => s.lock.Free? && Aligned(s.cfg.subSize, off, n, BlockLen(s.cfg, id.index, size))
    case AskPart(id, n, size) =>
      && s.lock.Free? && WholeLayout(s.cfg, size) && n == BlockLen(s.cfg, id.index, size) && n > 0
      && !(id.file in s.parts && id.index in s.parts[id.file].bits)
    case AskHydrate(k) =>
      && s.lock.Free? && !s.closed && k in s.files && s.files[k].whole.None? && s.files[k].holds == {} && k !in s.parts
      && !AnyInMemory(s, k) && s.files[k].size > 0 &&
         |s.files[k].present| == PieceCount(s.cfg.blockSize, s.files[k].size)
    case AskPutWhole(_, _) => s.lock.Free? && !s.closed
    case AskLink(_, _, _, _) => s.lock.Free?
    case AskSweep => s.lock.Free?
    case Evicts(v) => s.lock.Asking? && Evictable(s, v, Excluded(s.lock))
    case Grant => s.lock.Asking? && CapsHold(s, s.lock.need, s.lock.entries)
    case Unlock => !s.lock.Free?
  }

  ghost function Admitted(s: State, a: Admission): State
    requires CanAdmit(s, a)
  {
    match a
    case AskBlock(id, n, size) => Asked(s, BlockReq(id, n, size))
    case AskRange(id, off, n, size) => Asked(s, RangeReq(id, off, n, size))
    case AskPart(id, n, size) =>
      var s1 := Known(s, id.file);
      var s2 := Hold(SetFile(s1, id.file, FileOf(s1, id.file).(size := size)), id.file);
      Asked(s2, PartReq(id, n, size, s1.nextTag, FileOf(s1, id.file).tag))
    case AskHydrate(k) => Asked(Hold(s, k), InstallReq(s.nextTag, NewInstall(s, k, true, s.files[k].size)))
    case AskPutWhole(k, size) =>
      var s1 := Known(s, k);
      Asked(Hold(s1, k), InstallReq(s1.nextTag, NewInstall(s1, k, false, size)))
    case AskLink(k, o, size, pinned) => Asked(s, LinkReq(k, o, size, pinned))
    case AskSweep => Asked(s, SweepReq)
    case Evicts(v) => Evict(s, v)
    case Grant => s.(lock := Granted(s.lock.req))
    case Unlock => Freed(s)
  }

  ghost predicate CanStore(s: State, a: Commit) {
    match a
    case CommitPut(data, _) => s.lock.Granted? && s.lock.req.BlockReq? && |data| == s.lock.req.n &&
      !WholeLayout(s.cfg, s.lock.req.size)
    case CommitAsync(data, _) => s.lock.Granted? && s.lock.req.BlockReq? && |data| == s.lock.req.n
    case CommitRange(data, _) => s.lock.Granted? && s.lock.req.RangeReq? && |data| == s.lock.req.n
    case CommitRangeSync(data, _) => s.lock.Granted? && s.lock.req.RangeReq? && |data| == s.lock.req.n
    case CommitPart(data, _) => s.lock.Granted? && s.lock.req.PartReq? && |data| == s.lock.req.n
    case CommitReserve => s.lock.Granted? && s.lock.req.InstallReq?
    case CommitLink(data, _) => s.lock.Granted? && s.lock.req.LinkReq? && |data| == s.lock.req.size
  }

  ghost function Stored(s: State, a: Commit): State
    requires CanStore(s, a)
  {
    match a
    case CommitPut(data, now) => PutBlock(s, s.lock.req.id, data, s.lock.req.size, false, now)
    case CommitAsync(data, now) => PutBlock(s, s.lock.req.id, data, s.lock.req.size, true, now)
    case CommitRange(data, now) => PutRange(s, s.lock.req.id, s.lock.req.off, data, s.lock.req.size, now)
    case CommitRangeSync(data, now) => PutRangeSync(s, s.lock.req.id, s.lock.req.off, data, s.lock.req.size, now)
    case CommitPart(data, now) => PutPart(s, s.lock.req.id, data, s.lock.req.size, s.lock.req.token, s.lock.req.fileTag,
                                          now)
    case CommitReserve => s.(installs := s.installs[s.lock.req.token := s.lock.req.install], lock := Free)
    case CommitLink(data, now) =>
      Installed(Known(s, s.lock.req.key).(lock := Free), s.lock.req.key, s.lock.req.inode, data, s.lock.req.pinned, now)
  }

  ghost predicate CanDo(s: State, a: Work) {
    match a
    case BeginFlush(id) => s.lock.Free? && id in s.blocks && s.blocks[id].mem.Some? && !Flushing(s, id)
    case EndFlush(u, ok) => u in s.flushes && (s.flushes[u].sparse ==> !ok)
    case EnsurePart(u, _) =>
      && u in s.flushes && s.flushes[u].sparse && s.flushes[u].part.None?
      && |s.flushes[u].data| == BlockLen(s.cfg, s.flushes[u].id.index, s.flushes[u].size)
      && (s.flushes[u].id.file in s.parts ==> s.parts[s.flushes[u].id.file].size == s.flushes[u].size)
    case DropHanded(u) => u in s.flushes && s.flushes[u].sparse && s.flushes[u].part.Some? && Owns(s, u)
    case NoteHanded(u, _) => u in s.notes
    case FlushPartial(id, _) => s.lock.Free? && id in s.blocks && s.blocks[id].bits.Some?
    case AdoptBlock(id, _) =>
      && s.lock.Free? && id in s.blocks && s.blocks[id].bits.None? && s.blocks[id].mem.None? && id in s.blockFile
      && WholeLayout(s.cfg, FileOf(s, id.file).size)
      && |s.blockFile[id]| == BlockLen(s.cfg, id.index, FileOf(s, id.file).size) > 0
    case Publish(k, o, _) =>
      && s.lock.Free? && k in s.parts && k in s.partFile && k in s.files && o !in s.objects
      && |s.parts[k].bits| == PieceCount(s.cfg.blockSize, s.parts[k].size) && |s.partFile[k]| == s.parts[k].size
    case CopyNext(u) =>
      && u in s.installs && s.installs[u].hydrate &&
         s.installs[u].next < PieceCount(s.cfg.blockSize, s.installs[u].size)
      && BlockId(s.installs[u].key, s.installs[u].next) in s.blockFile
      && |s.blockFile[BlockId(s.installs[u].key, s.installs[u].next)]| ==
         BlockLen(s.cfg, s.installs[u].next, s.installs[u].size)
    case FinishHydrate(u, o, _) =>
      && s.lock.Free? && !s.closed && u in s.installs && s.installs[u].hydrate && Current(s, s.installs[u]) &&
         o !in s.objects
      && s.installs[u].next == PieceCount(s.cfg.blockSize, s.installs[u].size)
    case FinishPutWhole(u, o, data, _) =>
      && s.lock.Free? && !s.closed && u in s.installs && !s.installs[u].hydrate && Current(s, s.installs[u]) &&
         o !in s.objects
      && |data| == s.installs[u].size
    case AbortInstall(u) => u in s.installs
    case ForgetFile(_) => s.lock.Free?
    case SetPin(_, _, _) => true
    case Lease(k, _) => k in s.files && s.files[k].whole.Some? && s.files[k].whole.value in s.objects
    case Unlease(o) => o in s.objects && s.objects[o].readers > 0
    case LookUp(_, _, _) => true
    case CloseCache => true
  }

  ghost function Done(s: State, a: Work): State
    requires CanDo(s, a)
  {
    match a
    case BeginFlush(id) => FlushBegin(s, id)
    case EndFlush(u, ok) => FlushFinish(s, u, ok)
    case EnsurePart(u, now) => HandEnsure(s, u, now)
    case DropHanded(u) => HandDrop(s, u)
    case NoteHanded(u, now) => HandNote(s, u, now)
    case FlushPartial(id, ok) => FlushSubs(s, id, ok)
    case AdoptBlock(id, now) => Adopt(s, id, now)
    case Publish(k, o, now) => PublishPart(s, k, o, now)
    case CopyNext(u) => HydrateCopy(s, u)
    case FinishHydrate(u, o, now) => HydrateFinish(s, u, o, now)
    case FinishPutWhole(u, o, data, now) => PutWholeFinish(s, u, o, data, now)
    case AbortInstall(u) => EndInstall(s, u)
    case ForgetFile(k) => Forget(s, k)
    case SetPin(k, pinned, user) => Pinned(s, k, pinned, user)
    case Lease(k, now) => OpenWhole(s, k, now)
    case Unlease(o) => CloseWhole(s, o)
    case LookUp(k, idx, now) => TouchWhole(TouchBlock(s, k, idx, now), k, now)
    case CloseCache => s.(closed := true)
  }

  ghost predicate Enabled(s: State, a: Action) {
    match a
    case Admit(x) => CanAdmit(s, x)
    case Store(x) => CanStore(s, x)
    case Do(x) => CanDo(s, x)
  }

  ghost function Next(s: State, a: Action): State
    requires Enabled(s, a)
  {
    match a
    case Admit(x) => Admitted(s, x)
    case Store(x) => Stored(s, x)
    case Do(x) => Done(s, x)
  }

  /** What is asked for is a part of the file that there is. */
  ghost predicate HonestAsk(s: State, t: Truth, a: Admission) {
    match a
    case AskBlock(id, n, size) => size == |t(id.file)| && id.index < BlockTotal(s.cfg, t, id.file) &&
      n == |BlockTruth(s.cfg, t, id)|
    case AskRange(id, off, n, size) => size == |t(id.file)| && id.index < BlockTotal(s.cfg, t, id.file)
    case AskPart(id, n, size) => size == |t(id.file)|
    case AskPutWhole(k, size) => size == |t(k)|
    case AskLink(k, o, size, _) => size == |t(k)| && (o in s.objects ==> o in s.inodes && s.inodes[o] == t(k))
    case _ => true
  }

  /** The bytes stored are those of the file's real content at that place. */
  ghost predicate HonestData(s: State, t: Truth, a: Commit) {
    match a
    case CommitPut(data, _) => s.lock.Granted? && s.lock.req.BlockReq? && data == BlockTruth(s.cfg, t, s.lock.req.id)
    case CommitAsync(data, _) => s.lock.Granted? && s.lock.req.BlockReq? && data == BlockTruth(s.cfg, t, s.lock.req.id)
    case CommitRange(data, _) => s.lock.Granted? && s.lock.req.RangeReq? &&
      data == Cut(BlockTruth(s.cfg, t, s.lock.req.id), s.lock.req.off, s.lock.req.n)
    case CommitRangeSync(data, _) => s.lock.Granted? && s.lock.req.RangeReq? &&
      data == Cut(BlockTruth(s.cfg, t, s.lock.req.id), s.lock.req.off, s.lock.req.n)
    case CommitPart(data, _) => s.lock.Granted? && s.lock.req.PartReq? && data == BlockTruth(s.cfg, t, s.lock.req.id)
    case CommitLink(data, _) => s.lock.Granted? && s.lock.req.LinkReq? && data == t(s.lock.req.key)
    case _ => true
  }

  /** Every caller puts slices of the file's real content where they belong. */
  ghost predicate Honest(s: State, t: Truth, a: Action) {
    match a
    case Admit(x) => HonestAsk(s, t, x)
    case Store(x) => HonestData(s, t, x)
    case Do(FinishPutWhole(u, _, data, _)) => u in s.installs && data == t(s.installs[u].key)
    case Do(_) => true
  }
}
