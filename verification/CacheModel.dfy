/** The block cache as a state machine. One state holds the index, what is in
    memory, what is on disk and which calls are in flight; every step is one
    critical section of the code. The ledger's counters are not part of the state:
    they are sums over it. */
module CacheModel {

  import opened Common
  import opened Geometry
  import opened Ranges
  import opened Sums

  datatype FileKey = FileKey(remote: string, remoteId: string, version: string)

  datatype BlockId = BlockId(file: FileKey, index: nat)

  /** maxBytes and maxBlocks of 0 mean unlimited. */
  datatype Options = Options(blockSize: nat, subSize: nat, maxBytes: nat, maxBlocks: nat, wholeMin: int)

  /** Options as the cache uses them: sub-blocks divide blocks. */
  type Config = c: Options | c.blockSize > 0 && c.subSize > 0 && c.blockSize % c.subSize == 0
    witness Options(1, 1, 0, 0, 0)

  /** `tag` is the identity of the entry. `bits` names the sub-blocks present while
      the block is partial; `subs` those of them still in memory; `mem` the bytes of
      a whole block not yet on disk. */
  datatype Block = Block(tag: nat, size: nat, mem: Option<Bytes>, bits: Option<set<nat>>, subs: map<nat, Bytes>,
                         open: bool, lastAccess: int, hot: bool, pinned: bool)

  /** `whole` is the inode of the hydrated file. `holds` are the calls that keep the
      file busy. */
  datatype FileState = FileState(tag: nat, size: nat, present: set<nat>, pinned: bool, userPinned: bool,
                                 whole: Option<nat>, holds: set<nat>, generation: nat)

  /** A sparse whole file being filled, with the blocks that are real in it. `tag` tells it
      from another one made later for the same file. */
  datatype Part = Part(tag: nat, unit: nat, size: nat, bits: set<nat>, lastAccess: int, hot: bool)

  datatype Object = Object(size: nat, refs: set<FileKey>, readers: nat, lastAccess: int, hot: bool)

  /** A write-behind flush in flight, by the tag of the entry it writes. Detached
      once that entry has been dropped. One that goes into a sparse file has the size of
      the file, and the sparse file it writes to once it has found or made one. */
  datatype Flush = Flush(id: BlockId, data: Bytes, size: nat, sparse: bool, part: Option<nat>, detached: bool)

  /** A flushed block that has left the index and has still to be noted in the sparse file
      it was written to. */
  datatype Note = Note(id: BlockId, data: Bytes, part: nat)

  /** A Hydrate or PutWhole in flight, with its reservation. */
  datatype Install = Install(hydrate: bool, key: FileKey, fileTag: nat, generation: nat, size: nat, next: nat,
                             temp: Bytes)

  /** What an admission was asked for. */
  datatype Request =
    | BlockReq(id: BlockId, n: nat, size: nat)
    | RangeReq(id: BlockId, off: nat, n: nat, size: nat)
    | PartReq(id: BlockId, n: nat, size: nat, token: nat, fileTag: nat)
    | InstallReq(token: nat, install: Install)
    | LinkReq(key: FileKey, inode: nat, size: nat, pinned: bool)
    | SweepReq

  /** The admission lock: free, held while evicting for a request, or held with the
      room granted. */
  datatype Lock = Free | Asking(req: Request, need: nat, entries: nat) | Granted(req: Request)

  datatype State = State(cfg: Config,
                         blocks: map<BlockId, Block>, files: map<FileKey, FileState>, parts: map<FileKey, Part>,
                         objects: map<nat, Object>, temps: map<string, nat>,
                         flushes: map<nat, Flush>, notes: map<nat, Note>, installs: map<nat, Install>,
                         lock: Lock, closed: bool, nextTag: nat,
                         blockFile: map<BlockId, Bytes>, partFile: map<FileKey, Bytes>, inodes: map<nat, Bytes>)

  const MAX_OPEN_PARTIALS := 256
  const DEFAULT_WHOLE_MIN := 67108864

  // What is charged to the budget.

  function BlockBytes(b: Block): nat { b.size }

  function ObjectBytes(o: Object): nat { o.size }

  function PartBytes(p: Part): nat {
    if p.unit == 0 then 0 else Covered(p.unit, p.size, p.bits, PieceCount(p.unit, p.size))
  }

  function TempBytes(n: nat): nat { n }

  function InstallBytes(i: Install): nat { i.size }

  function DetachedBytes(f: Flush): nat { if f.detached then |f.data| else 0 }

  function DetachedOne(f: Flush): nat { if f.detached then 1 else 0 }

  function OpenOne(b: Block): nat { if b.open then 1 else 0 }

  function Length(b: Bytes): nat { |b| }

  /** Bytes of a block held in memory. */
  ghost function MemoryBytes(b: Block): nat {
    (if b.mem.Some? then |b.mem.value| else 0) + Sum(b.subs, Length)
  }

  ghost function Charge(s: State): nat {
    Sum(s.blocks, BlockBytes) + Sum(s.objects, ObjectBytes) + Sum(s.parts, PartBytes) +
    Sum(s.temps, TempBytes) + Sum(s.installs, InstallBytes) + Sum(s.flushes, DetachedBytes)
  }

  ghost function Entries(s: State): nat {
    |s.blocks| + |s.objects| + |s.parts| + |s.temps| + |s.installs| + Sum(s.flushes, DetachedOne)
  }

  // Layout.

  function BlockLen(c: Config, idx: nat, size: nat): nat {
    PieceLen(c.blockSize, idx, size)
  }

  predicate WholeLayout(c: Config, size: nat) {
    c.wholeMin >= 0 && size > 0 && size >= (if c.wholeMin == 0 then DEFAULT_WHOLE_MIN else c.wholeMin)
  }

  /** Files are kept in a sparse file from a length on: 64 MiB unless another one is set, and
      never with a negative one. */
  lemma LayoutFrom(c: Config, size: nat)
    ensures c.wholeMin < 0 ==> !WholeLayout(c, size)
    ensures c.wholeMin == 0 ==> (WholeLayout(c, size) <==> size >= 64 * 1024 * 1024)
    ensures c.wholeMin > 0 ==> (WholeLayout(c, size) <==> size >= c.wholeMin)
  {
  }

  function BlocksOf(s: State, k: FileKey): set<BlockId> {
    set id | id in s.blocks && id.file == k
  }

  function Lookup<K, V>(m: map<K, V>, k: K): Option<V> {
    if k in m then Some(m[k]) else None
  }

  // Building blocks of the steps.

  /** Drop entries from the index; a flush writing one of them is detached. */
  function DropAll(s: State, ids: set<BlockId>): State {
    s.(blocks := s.blocks - ids,
       flushes := map t | t in s.flushes :: if s.flushes[t].id in ids then s.flushes[t].(detached := true)
         else s.flushes[t])
  }

  function FileOf(s: State, k: FileKey): FileState {
    if k in s.files then s.files[k] else FileState(0, 0, {}, false, false, None, {}, 0)
  }

  function ObjectOf(s: State, o: nat): Object {
    if o in s.objects then s.objects[o] else Object(0, {}, 0, 0, false)
  }

  function BitsOf(b: Block): set<nat> {
    if b.bits.Some? then b.bits.value else {}
  }

  function SetFile(s: State, k: FileKey, f: FileState): State {
    s.(files := s.files[k := f])
  }

  /** The file's record, made on first use. */
  function Known(s: State, k: FileKey): State {
    if k in s.files then s
    else s.(files := s.files[k := FileState(s.nextTag, 0, {}, false, false, None, {}, 0)], nextTag := s.nextTag + 1)
  }

  lemma KnownFields(s: State, k: FileKey)
    ensures var s' := Known(s, k);
      && k in s'.files && s'.cfg == s.cfg && s'.lock == s.lock && s'.blocks == s.blocks && s'.blockFile == s.blockFile
      && s'.parts == s.parts && s'.objects == s.objects && s'.inodes == s.inodes && s'.installs == s.installs
      && s'.flushes == s.flushes && s'.notes == s.notes && s'.temps == s.temps
  {
    if k in s.files { assert Known(s, k) == s; }
  }

  function Unmark(files: map<FileKey, FileState>, k: FileKey, gone: set<nat>): map<FileKey, FileState> {
    if k in files then files[k := files[k].(present := files[k].present - gone)] else files
  }

  /** The file no longer claims the block. */
  function Unmarked(s: State, k: FileKey, idx: nat): State {
    s.(files := Unmark(s.files, k, {idx}))
  }

  /** An entry and its files gone, as eviction leaves it. */
  function DropBlock(s: State, id: BlockId): State {
    Unmarked(DropAll(s, {id}), id.file, id.index).(blockFile := s.blockFile - {id})
  }

  /** An inode without names or readers is freed. */
  function Released(s: State, o: nat): State {
    if o in s.objects && s.objects[o].refs == {} && s.objects[o].readers == 0 then
      s.(objects := s.objects - {o}, inodes := s.inodes - {o})
    else s
  }

  function Detach(s: State, k: FileKey): State {
    var f := FileOf(s, k);
    if f.whole.None? then s
    else
      var o := f.whole.value;
      var ob := ObjectOf(s, o);
      Released(s.(files := s.files[k := f.(whole := None)], objects := s.objects[o := ob.(refs := ob.refs - {k})]), o)
  }

  /** The published inode becomes the file's content. */
  function Attach(s: State, k: FileKey, o: nat, data: Bytes, now: int): State {
    var s1 := if FileOf(s, k).whole == Some(o) then s else Detach(s, k);
    var unseen := o !in s1.objects;
    var ob := if unseen then Object(|data|, {}, 0, now, false) else s1.objects[o];
    s1.(objects := s1.objects[o := ob.(refs := ob.refs + {k}, lastAccess := now)],
        inodes := if unseen then s1.inodes[o := data] else s1.inodes,
        files := s1.files[k := FileOf(s1, k).(whole := Some(o), size := |data|)])
  }

  /** A sparse file and the blocks it held are forgotten. */
  function ForgetPart(s: State, k: FileKey): State {
    if k !in s.parts then s
    else s.(parts := s.parts - {k}, partFile := s.partFile - {k}, files := Unmark(s.files, k, s.parts[k].bits))
  }

  /** A complete file supersedes the sparse one and the blocks. */
  function RemoveFileBlocks(s: State, k: FileKey): State {
    var ids := BlocksOf(s, k);
    var s1 := DropAll(s, ids);
    s1.(blockFile := s.blockFile - ids, parts := s.parts - {k}, partFile := s.partFile - {k},
        files := s.files[k := FileOf(s, k).(present := {})])
  }

  /** The sparse file of k, made full-length on first use. */
  function PartBefore(s: State, k: FileKey, size: nat, now: int): (Part, Bytes) {
    if k in s.parts then (s.parts[k], if k in s.partFile then s.partFile[k] else [])
    else (Part(s.nextTag, s.cfg.blockSize, size, {}, now, false),
          Sized(if k in s.partFile then s.partFile[k] else [], size))
  }

  /** The sparse file with block idx written at its real offset. */
  function WithBlock(c: Config, file: Bytes, idx: nat, data: Bytes): Bytes {
    WriteAt(file, idx * c.blockSize, data)
  }

  /** ensurePart and notePartBlock: block idx is written into the sparse file and noted. */
  function FillPart(s: State, k: FileKey, size: nat, idx: nat, data: Bytes, now: int): State {
    var (p, file) := PartBefore(s, k, size, now);
    var f := FileOf(s, k);
    s.(files := s.files[k := f.(size := p.size, present := f.present + {idx}, generation := f.generation + 1)],
       parts := s.parts[k := p.(bits := p.bits + {idx}, lastAccess := now)],
       partFile := s.partFile[k := WithBlock(s.cfg, file, idx, data)], nextTag := s.nextTag + 1)
  }

  lemma FillFields(s: State, k: FileKey, size: nat, idx: nat, data: Bytes, now: int)
    ensures var s', p := FillPart(s, k, size, idx, data, now), PartBefore(s, k, size, now).0;
      && s'.cfg == s.cfg && s'.lock == s.lock && s'.blocks == s.blocks && s'.objects == s.objects
      && s'.flushes == s.flushes && s'.notes == s.notes && s'.nextTag == s.nextTag + 1
      && s'.parts == s.parts[k := p.(bits := p.bits + {idx}, lastAccess := now)]
  {
    hide PartBefore, WithBlock;
  }

  /** A block handed over to the sparse file, its own entry gone. */
  function HandOver(s: State, id: BlockId, data: Bytes, now: int): State {
    FillPart(DropAll(s, {id}), id.file, FileOf(s, id.file).size, id.index, data, now)
  }

  function ReleaseHold(s: State, k: FileKey, fileTag: nat, token: nat): State {
    if k in s.files && s.files[k].tag == fileTag then SetFile(s, k, s.files[k].(holds := s.files[k].holds - {token}))
      else s
  }

  /** What installTemp does once the file is renamed into place. */
  function Installed(s: State, k: FileKey, o: nat, data: Bytes, pinned: bool, now: int): State {
    var s1 := Attach(s, k, o, data, now);
    var f := FileOf(s1, k);
    RemoveFileBlocks(SetFile(s1, k, f.(pinned := f.pinned || pinned, generation := f.generation + 1)), k)
  }

  // Admission.

  /** The request's own block, which eviction leaves alone. */
  function Excluded(l: Lock): Option<BlockId> {
    if l.Asking? && l.req.BlockReq? then Some(l.req.id)
    else if l.Asking? && l.req.RangeReq? then Some(l.req.id)
    else None
  }

  /** The sub-blocks [off, off+n) names that the entry does not have. */
  function Missing(c: Config, blocks: map<BlockId, Block>, id: BlockId, off: nat, n: nat): set<nat> {
    var have := if id in blocks then BitsOf(blocks[id]) else {};
    set i | off / c.subSize <= i < off / c.subSize + PieceCount(c.subSize, n) && i !in have
  }

  predicate Flushing(s: State, id: BlockId) {
    id in s.blocks && s.blocks[id].tag in s.flushes
  }

  /** How much the commit of a request will add to the bytes charged. */
  ghost function GrowthBytes(s: State, r: Request): int {
    match r
    case BlockReq(id, n, _) => if id in s.blocks && !Flushing(s, id) then n - s.blocks[id].size else n
    case RangeReq(id, off, n, size) =>
      if id in s.blocks && s.blocks[id].bits.None? then 0
      else
        var L := BlockLen(s.cfg, id.index, size);
        Covered(s.cfg.subSize, L, Missing(s.cfg, s.blocks, id, off, n), PieceCount(s.cfg.subSize, L))
    case PartReq(id, n, _, _, _) => if id.file in s.parts && id.index in s.parts[id.file].bits then 0 else n
    case InstallReq(_, i) => i.size
    case LinkReq(_, o, size, _) => if o in s.objects then 0 else size
    case SweepReq => 0
  }

  /** How many entries the commit will add. */
  ghost function GrowthEntries(s: State, r: Request): int {
    match r
    case BlockReq(id, _, _) => if id in s.blocks && !Flushing(s, id) then 0 else 1
    case RangeReq(id, _, _, _) => if id in s.blocks then 0 else 1
    case PartReq(id, _, _, _, _) => if id.file in s.parts then 0 else 1
    case InstallReq(_, _) => 1
    case LinkReq(_, o, _, _) => if o in s.objects then 0 else 1
    case SweepReq => 0
  }

  // Commits, with the admission lock held and the room granted.

  function NewBlock(s: State, k: FileKey, size: nat, mem: Option<Bytes>, now: int): Block {
    Block(s.nextTag, size, mem, None, map[], false, now, false, FileOf(s, k).pinned || FileOf(s, k).userPinned)
  }

  /** A whole block replaces what was there: on disk, or in memory until flushed. */
  function ReplaceBlock(s: State, id: BlockId, data: Bytes, size: nat, async: bool, now: int): State {
    var f := FileOf(s, id.file);
    DropAll(s, {id}).(
      blocks := s.blocks[id := NewBlock(s, id.file, |data|, if async then Some(data) else None, now)],
      files := s.files[id.file := f.(size := size, present := f.present + {id.index}, generation := f.generation + 1)],
      nextTag := s.nextTag + 1, blockFile := if async then s.blockFile else s.blockFile[id := data])
  }

  /** Put and PutAsync. */
  function PutBlock(s: State, id: BlockId, data: Bytes, size: nat, async: bool, now: int): State {
    ReplaceBlock(Known(s, id.file).(lock := Free), id, data, size, async, now)
  }

  /** The entry a range lands in: the partial one there, or a new one. */
  function RangeBlock(s: State, id: BlockId, now: int): Block {
    if id in s.blocks then s.blocks[id] else Block(s.nextTag, 0, None, Some({}), map[], false, now, false, false)
  }

  /** The block with the missing sub-blocks of a range added, in memory or on disk. */
  function Extended(c: Config, b: Block, added: set<nat>, off: nat, data: Bytes, L: nat, inMemory: bool, pinned: bool,
                    now: int): Block
  {
    var bits := BitsOf(b) + added;
    b.(bits := Some(bits),
       subs := if inMemory then b.subs + map i | i in added ::
         Cut(data, if i * c.subSize >= off then i * c.subSize - off else 0, PieceLen(c.subSize, i, L)) else b.subs,
       size := Covered(c.subSize, L, bits, PieceCount(c.subSize, L)),
       pinned := b.pinned || pinned, lastAccess := now)
  }

  function RangeFile(s: State, k: FileKey, size: nat): FileState {
    FileOf(s, k).(size := size, generation := FileOf(s, k).generation + 1)
  }

  function AddRange(s: State, id: BlockId, off: nat, data: Bytes, size: nat, now: int): State {
    var f := RangeFile(s, id.file, size);
    var b := Extended(s.cfg, RangeBlock(s, id, now), Missing(s.cfg, s.blocks, id, off, |data|), off, data,
                      BlockLen(s.cfg, id.index, size), true, f.pinned || f.userPinned, now);
    s.(blocks := s.blocks[id := b], files := s.files[id.file := f], nextTag := s.nextTag + 1)
  }

  /** PutRange held in memory. */
  function PutRange(s: State, id: BlockId, off: nat, data: Bytes, size: nat, now: int): State {
    if id in s.blocks && s.blocks[id].bits.None? then s.(lock := Free)
    else AddRange(Known(s, id.file).(lock := Free), id, off, data, size, now)
  }

  ghost function OpenCount(blocks: map<BlockId, Block>): nat {
    Sum(blocks, OpenOne)
  }

  /** A partial block with every sub-block is promoted to a whole one. */
  ghost function Settled(c: Config, open: nat, b: Block, L: nat): Block {
    if |BitsOf(b)| == PieceCount(c.subSize, L) then b.(bits := None, open := false)
    else b.(open := b.open || open < MAX_OPEN_PARTIALS)
  }

  function BaseFile(s: State, id: BlockId, L: nat): Bytes {
    Sized(if id in s.blockFile then s.blockFile[id] else [], L)
  }

  /** A synchronous range that completes a block some of whose sub-blocks are only
      in memory: the block is promoted without them. */
  predicate LeavesHole(c: Config, blocks: map<BlockId, Block>, id: BlockId, off: nat, n: nat, size: nat) {
    && id in blocks && blocks[id].bits.Some?
    && |blocks[id].bits.value + Missing(c, blocks, id, off, n)| == PieceCount(c.subSize, BlockLen(c, id.index, size))
    && exists i :: i in blocks[id].subs && !Named(c.subSize, off, n, i)
  }

  ghost function AddRangeSync(s: State, id: BlockId, off: nat, data: Bytes, size: nat, now: int): State {
    var L := BlockLen(s.cfg, id.index, size);
    var f := RangeFile(s, id.file, size);
    var b := Extended(s.cfg, RangeBlock(s, id, now), Missing(s.cfg, s.blocks, id, off, |data|), off, data, L, false,
                      f.pinned || f.userPinned, now);
    var b' := Settled(s.cfg, OpenCount(s.blocks), b, L);
    s.(blocks := s.blocks[id := b'],
       files := s.files[id.file := if b'.bits.None? then f.(present := f.present + {id.index}) else f],
       nextTag := s.nextTag + 1, blockFile := s.blockFile[id := WriteAt(BaseFile(s, id, L), off, data)])
  }

  lemma AddRangeFields(s: State, id: BlockId, off: nat, data: Bytes, size: nat, now: int)
    ensures var s' := AddRange(s, id, off, data, size, now);
      s'.cfg == s.cfg && s'.lock == s.lock && s'.notes == s.notes && s'.parts == s.parts
    ensures var s' := AddRangeSync(s, id, off, data, size, now);
      s'.cfg == s.cfg && s'.lock == s.lock && s'.notes == s.notes && s'.parts == s.parts
  {
    hide Extended, Settled, WriteAt, RangeBlock, RangeFile, Missing;
  }

  /** PutRange written straight to the block file. */
  ghost function PutRangeSync(s: State, id: BlockId, off: nat, data: Bytes, size: nat, now: int): State {
    if id in s.blocks && s.blocks[id].bits.None? then
      s.(blockFile := s.blockFile[id := WriteAt(BaseFile(s, id, BlockLen(s.cfg, id.index, size)), off, data)],
         lock := Free)
    else AddRangeSync(Known(s, id.file).(lock := Free), id, off, data, size, now)
  }

  /** putPart: one whole block into the sparse file; refused when the sparse file
      was made for another size. */
  function PutPart(s: State, id: BlockId, data: Bytes, size: nat, token: nat, fileTag: nat, now: int): State
  {
    var s1 := ReleaseHold(s, id.file, fileTag, token).(lock := Free);
    if id.file in s.parts && (id.index in s.parts[id.file].bits || s.parts[id.file].size != size) then s1
    else FillPart(s1, id.file, size, id.index, data, now)
  }

  // Write-behind.

  function FlushBegin(s: State, id: BlockId): State
    requires id in s.blocks && s.blocks[id].mem.Some?
  {
    var b := s.blocks[id];
    var size := FileOf(s, id.file).size;
    s.(flushes := s.flushes[b.tag := Flush(id, b.mem.value, size, WholeLayout(s.cfg, size), None, false)])
  }

  /** The entry is still the one the flush took its bytes from. */
  predicate Owns(s: State, t: nat)
    requires t in s.flushes
  {
    var id := s.flushes[t].id;
    id in s.blocks && s.blocks[id].tag == t && s.blocks[id].mem.Some?
  }

  /** The end of a flush: publish the bytes if the entry is still the one that was
      flushed, drop the entry if the write failed, and give the charge back. One that goes
      into a sparse file ends here only when it fails. */
  function FlushFinish(s: State, t: nat, ok: bool): State
    requires t in s.flushes
  {
    var f := s.flushes[t];
    var s1 := s.(flushes := s.flushes - {t});
    if !Owns(s, t) then s1
    else if !ok || f.sparse then Unmarked(s1.(blocks := s.blocks - {f.id}), f.id.file, f.id.index)
    else s1.(blocks := s.blocks[f.id := s.blocks[f.id].(mem := None)], blockFile := s.blockFile[f.id := f.data])
  }

  lemma FinishIs(s: State, t: nat, ok: bool)
    requires t in s.flushes
    ensures var s' := FlushFinish(s, t, ok);
      s' == s.(flushes := s.flushes - {t}, blocks := s'.blocks, files := s'.files, blockFile := s'.blockFile)
  {
    if Owns(s, t) {
      if !ok || s.flushes[t].sparse {
        LostIs(s, t, ok);
      }
    }
  }

  lemma LostIs(s: State, t: nat, ok: bool)
    requires t in s.flushes && Owns(s, t) && (!ok || s.flushes[t].sparse)
    ensures var id := s.flushes[t].id;
      FlushFinish(s, t, ok) ==
        s.(flushes := s.flushes - {t}, blocks := s.blocks - {id}, files := Unmark(s.files, id.file, {id.index}))
  {
  }

  // A block handed over to the sparse file, in three critical sections.

  /** A sparse file with nothing in it yet. */
  function MadePart(s: State, k: FileKey, size: nat, now: int): State {
    var (p, file) := PartBefore(s, k, size, now);
    s.(files := s.files[k := FileOf(s, k).(size := size)], parts := s.parts[k := p], partFile := s.partFile[k := file],
       nextTag := s.nextTag + 1)
  }

  lemma MadeFields(s: State, k: FileKey, size: nat, now: int)
    ensures var s' := MadePart(s, k, size, now);
      && s'.cfg == s.cfg && s'.lock == s.lock && s'.blocks == s.blocks && s'.objects == s.objects
      && s'.flushes == s.flushes && s'.notes == s.notes && s'.nextTag == s.nextTag + 1
      && s'.parts == s.parts[k := PartBefore(s, k, size, now).0]
      && s'.files == s.files[k := FileOf(s, k).(size := size)]
  {
    hide PartBefore;
  }

  /** ensurePart: the sparse file of k, made on first use. */
  function WithPart(s: State, k: FileKey, size: nat, now: int): State {
    if k in s.parts then s else MadePart(Known(s, k), k, size, now)
  }

  /** The flush finds the sparse file it will write to, or makes one. */
  function HandEnsure(s: State, t: nat, now: int): State
    requires t in s.flushes
  {
    var f := s.flushes[t];
    var s1 := WithPart(s, f.id.file, f.size, now);
    s1.(flushes := s.flushes[t := f.(part := Some(s1.parts[f.id.file].tag))])
  }

  /** The sparse file the block was written to is still the one there. */
  predicate Live(s: State, n: Note) {
    n.id.file in s.parts && s.parts[n.id.file].tag == n.part
  }

  /** The bytes written to the sparse file a flush found; if that is gone, they went with it. */
  function HandWritten(s: State, n: Note): map<FileKey, Bytes> {
    var k := n.id.file;
    if Live(s, n) && k in s.partFile then s.partFile[k := WithBlock(s.cfg, s.partFile[k], n.id.index, n.data)]
    else s.partFile
  }

  /** The bytes are written: the block leaves the index and the flush ends. */
  function HandDrop(s: State, t: nat): State
    requires t in s.flushes && s.flushes[t].part.Some?
  {
    var f := s.flushes[t];
    var n := Note(f.id, f.data, f.part.value);
    s.(blocks := s.blocks - {f.id}, flushes := s.flushes - {t}, notes := s.notes[t := n], partFile := HandWritten(s, n))
  }

  /** notePartBlock: the block counts from now on, unless its sparse file is gone. Nothing
      is written any more. */
  function HandNote(s: State, t: nat, now: int): State
    requires t in s.notes
  {
    var n := s.notes[t];
    var s1 := s.(notes := s.notes - {t});
    if Live(s, n) then
      FillPart(s1, n.id.file, s.parts[n.id.file].size, n.id.index, n.data, now).(partFile := s.partFile)
    else s1
  }

  lemma NotedIs(s: State, t: nat, now: int)
    requires t in s.notes && Live(s, s.notes[t])
    ensures var n := s.notes[t];
      HandNote(s, t, now) ==
        FillPart(s.(notes := s.notes - {t}), n.id.file, s.parts[n.id.file].size, n.id.index, n.data, now).(
          partFile := s.partFile)
  {
    hide FillPart;
  }

  /** The sub-blocks in memory go to the block file; a complete block is promoted. */
  ghost function FlushSubs(s: State, id: BlockId, ok: bool): State
    requires id in s.blocks
  {
    var b := s.blocks[id];
    var f := FileOf(s, id.file);
    var L := BlockLen(s.cfg, id.index, f.size);
    if b.subs == map[] then s
    else if !ok then DropAll(s, {id}).(blockFile := s.blockFile - {id})
    else
      var b' := Settled(s.cfg, OpenCount(s.blocks), b.(subs := map[]), L);
      s.(blocks := s.blocks[id := b'],
         blockFile := s.blockFile[id := Overlay(BaseFile(s, id, L), b.subs, s.cfg.subSize)],
         files := if b'.bits.None? then s.files[id.file := f.(present := f.present + {id.index})] else s.files)
  }

  /** A promoted block of a large file joins its sparse file. */
  function Adopt(s: State, id: BlockId, now: int): State
    requires id in s.blockFile
  {
    HandOver(s.(blockFile := s.blockFile - {id}), id, s.blockFile[id], now)
  }

  /** A full sparse file is renamed to its hydrated name; no block is copied. */
  function PublishPart(s: State, k: FileKey, o: nat, now: int): State
    requires k in s.partFile
  {
    Installed(s, k, o, s.partFile[k], false, now)
  }

  // Installs of complete files.

  function HydrateCopy(s: State, t: nat): State
    requires t in s.installs && BlockId(s.installs[t].key, s.installs[t].next) in s.blockFile
  {
    var i := s.installs[t];
    s.(installs := s.installs[t := i.(next := i.next + 1, temp := i.temp + s.blockFile[BlockId(i.key, i.next)])])
  }

  function EndInstall(s: State, t: nat): State
    requires t in s.installs
  {
    var i := s.installs[t];
    ReleaseHold(s, i.key, i.fileTag, t).(installs := s.installs - {t})
  }

  function HydrateFinish(s: State, t: nat, o: nat, now: int): State
    requires t in s.installs
  {
    var i := s.installs[t];
    RemoveFileBlocks(Attach(EndInstall(s, t), i.key, o, i.temp, now), i.key)
  }

  function PutWholeFinish(s: State, t: nat, o: nat, data: Bytes, now: int): State
    requires t in s.installs
  {
    Installed(EndInstall(s, t), s.installs[t].key, o, data, false, now)
  }

  // Forgetting, leases and pins.

  /** Everything known about a file dropped; a lease keeps the inode alive. */
  function Forget(s: State, k: FileKey): State {
    if k !in s.files then s
    else
      var s1 := Detach(s, k);
      var ids := BlocksOf(s, k);
      DropAll(s1, ids).(blockFile := s.blockFile - ids, parts := s.parts - {k}, partFile := s.partFile - {k},
                        files := s1.files - {k})
  }

  function OpenWhole(s: State, k: FileKey, now: int): State
    requires k in s.files && s.files[k].whole.Some? && s.files[k].whole.value in s.objects
  {
    var o := s.files[k].whole.value;
    s.(objects := s.objects[o := s.objects[o].(readers := s.objects[o].readers + 1, lastAccess := now, hot := true)])
  }

  function CloseWhole(s: State, o: nat): State
    requires o in s.objects && s.objects[o].readers > 0
  {
    Released(s.(objects := s.objects[o := s.objects[o].(readers := s.objects[o].readers - 1)]), o)
  }

  /** The file's blocks carry its protection. */
  function Repinned(blocks: map<BlockId, Block>, k: FileKey, pinned: bool): map<BlockId, Block> {
    map id | id in blocks :: if id.file == k then blocks[id].(pinned := pinned) else blocks[id]
  }

  /** Pin (the temporary protection) and SetUserPin (the persistent policy). */
  function Pinned(s: State, k: FileKey, pinned: bool, user: bool): State {
    if user && FileOf(s, k).userPinned == pinned then s
    else
      var s1 := Known(s, k);
      var f := if user then FileOf(s1, k).(userPinned := pinned) else FileOf(s1, k).(pinned := pinned);
      SetFile(s1, k, f).(blocks := Repinned(s1.blocks, k, f.pinned || f.userPinned))
  }

  // Eviction.

  predicate FileProtected(s: State, k: FileKey) {
    k in s.files && (s.files[k].pinned || s.files[k].userPinned || s.files[k].holds != {})
  }

  predicate BlockProtected(s: State, id: BlockId, exclude: Option<BlockId>)
    requires id in s.blocks
  {
    s.blocks[id].pinned || (id.file in s.files && s.files[id.file].holds != {}) || exclude == Some(id)
  }

  predicate ObjectProtected(s: State, o: nat)
    requires o in s.objects
  {
    s.objects[o].readers > 0 || exists k :: k in s.objects[o].refs && FileProtected(s, k)
  }

  function Unlinked(files: map<FileKey, FileState>, refs: set<FileKey>): map<FileKey, FileState> {
    map k | k in files :: if k in refs then files[k].(whole := None) else files[k]
  }

  /** Every name of the inode removed. */
  function EvictObject(s: State, o: nat): State
    requires o in s.objects
  {
    var refs := s.objects[o].refs;
    if refs == {} then s
    else Released(s.(files := Unlinked(s.files, refs), objects := s.objects[o := s.objects[o].(refs := {})]), o)
  }

  datatype Victim = TempVictim(name: string) | BlockVictim(id: BlockId) | ObjectVictim(inode: nat) |
    PartVictim(key: FileKey)

  /** The victim exists and nothing protects it. */
  predicate Evictable(s: State, v: Victim, exclude: Option<BlockId>) {
    match v
    case TempVictim(p) => p in s.temps
    case BlockVictim(id) => id in s.blocks && !BlockProtected(s, id, exclude)
    case ObjectVictim(o) => o in s.objects && s.objects[o].refs != {} && !ObjectProtected(s, o)
    case PartVictim(k) => k in s.parts && !FileProtected(s, k)
  }

  function Evict(s: State, v: Victim): State
    requires Evictable(s, v, None)
  {
    match v
    case TempVictim(p) => s.(temps := s.temps - {p})
    case BlockVictim(id) => DropBlock(s, id)
    case ObjectVictim(o) => EvictObject(s, o)
    case PartVictim(k) => ForgetPart(s, k)
  }

  // Reads.

  /** The length of the block when [off, off+n) of it can be served locally. */
  function Locate(s: State, k: FileKey, idx: nat, off: nat, n: nat): Option<nat> {
    var id := BlockId(k, idx);
    var size := if k in s.files then s.files[k].size else 0;
    var sparse := k in s.parts && idx in s.parts[k].bits;
    var L := BlockLen(s.cfg, idx, size);
    if id in s.blocks && !sparse then
      if s.blocks[id].bits.None? then Some(s.blocks[id].size)
      else if n > 0 && exists b :: off <= b < off + n && b / s.cfg.subSize !in s.blocks[id].bits.value then None
      else Some(if L == 0 then off + n else L)
    else if !sparse && !(k in s.files && s.files[k].whole.Some?) then None
    else if L == 0 then None
    else Some(L)
  }

  /** The bytes a read of [off, off+n) of the block fetches, None when it fails. */
  function ReadBlock(s: State, k: FileKey, idx: nat, off: nat, n: nat): Option<Bytes> {
    var id := BlockId(k, idx);
    var at := idx * s.cfg.blockSize + off;
    if n == 0 then Some([])
    else if k in s.parts && idx in s.parts[k].bits then
      if k in s.partFile then Some(Cut(s.partFile[k], at, n)) else None
    else if id in s.blocks then
      var b := s.blocks[id];
      if b.bits.Some? && b.subs != map[] then
        if id !in s.blockFile && exists x :: off <= x < off + n && x / s.cfg.subSize !in b.subs then None
        else
          var L := BlockLen(s.cfg, idx, if k in s.files then s.files[k].size else 0);
          Some(Cut(Overlay(BaseFile(s, id, L), b.subs, s.cfg.subSize), off, n))
      else if b.mem.Some? then Some(Cut(b.mem.value, off, n))
      else if id in s.blockFile then Some(Cut(s.blockFile[id], off, n))
      else None
    else if k in s.files && s.files[k].whole.Some? && s.files[k].whole.value in s.inodes then
      Some(Cut(s.inodes[s.files[k].whole.value], at, n))
    else None
  }

  /** ReadAt: None is a miss, Some the bytes of a hit. */
  function ReadAt(s: State, k: FileKey, idx: nat, off: nat, n: nat): Option<Bytes> {
    var at := Locate(s, k, idx, off, n);
    if at.None? then None
    else if off >= at.value then Some([])
    else ReadBlock(s, k, idx, off, if n > at.value - off then at.value - off else n)
  }

  /** A lookup marks what it finds as used: the sparse file or else the block, */
  function TouchBlock(s: State, k: FileKey, idx: nat, now: int): State {
    var id, sparse := BlockId(k, idx), k in s.parts && idx in s.parts[k].bits;
    s.(parts := if sparse then s.parts[k := s.parts[k].(lastAccess := now, hot := true)] else s.parts,
       blocks := if !sparse && id in s.blocks then s.blocks[id := s.blocks[id].(lastAccess := now, hot := true)]
         else s.blocks)
  }

  /** and the complete file. */
  function TouchWhole(s: State, k: FileKey, now: int): State {
    if k in s.files && s.files[k].whole.Some? && s.files[k].whole.value in s.objects then
      var o := s.files[k].whole.value;
      s.(objects := s.objects[o := s.objects[o].(lastAccess := now, hot := true)])
    else s
  }
}
