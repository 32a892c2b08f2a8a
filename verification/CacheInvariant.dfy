/** What every reachable cache state satisfies when all puts for a key carry slices
    of one fixed content, the remote's. */
module CacheInvariant {

  import opened Common
  import opened Bitmap
  import opened Geometry
  import opened Ranges
  import opened CacheModel

  /** The content of every file version. */
  type Truth = FileKey -> Bytes

  function BlockTruth(c: Config, t: Truth, id: BlockId): Bytes {
    Piece(t(id.file), c.blockSize, id.index)
  }

  function BlockTotal(c: Config, t: Truth, k: FileKey): nat {
    PieceCount(c.blockSize, |t(k)|)
  }

  /** A whole block holds the real bytes, in memory or on disk. */
  ghost predicate WholeOk(b: Block, file: Option<Bytes>, T: Bytes) {
    && b.bits.None? && !b.open && b.size == |T|
    && (if b.mem.Some? then b.mem.value == T else file == Some(T))
  }

  /** Sub-block i is real in memory, or real in the block's full-length file. */
  ghost predicate SubOk(c: Config, b: Block, file: Option<Bytes>, T: Bytes, i: nat) {
    if i in b.subs then b.subs[i] == Piece(T, c.subSize, i)
    else file.Some? && |file.value| == |T| && Piece(file.value, c.subSize, i) == Piece(T, c.subSize, i)
  }

  ghost predicate PartialOk(c: Config, b: Block, file: Option<Bytes>, T: Bytes) {
    && b.bits.Some? && b.mem.None?
    && b.subs.Keys <= b.bits.value <= Range(PieceCount(c.subSize, |T|))
    && b.size == Covered(c.subSize, |T|, b.bits.value, PieceCount(c.subSize, |T|))
    && forall i :: i in b.bits.value ==> SubOk(c, b, file, T, i)
  }

  ghost predicate BlockOk(c: Config, b: Block, file: Option<Bytes>, T: Bytes) {
    WholeOk(b, file, T) || PartialOk(c, b, file, T)
  }

  /** The file's size is known and is the real one. */
  predicate SizeKnown(s: State, t: Truth, k: FileKey) {
    k in s.files && s.files[k].size == |t(k)|
  }

  ghost predicate BlockAt(s: State, t: Truth, id: BlockId)
    requires id in s.blocks
  {
    && SizeKnown(s, t, id.file) && id.index < BlockTotal(s.cfg, t, id.file)
    && BlockOk(s.cfg, s.blocks[id], Lookup(s.blockFile, id), BlockTruth(s.cfg, t, id))
  }

  ghost predicate PartOk(c: Config, p: Part, file: Option<Bytes>, data: Bytes) {
    && p.unit == c.blockSize && p.size == |data| && p.size > 0
    && p.bits <= Range(PieceCount(c.blockSize, |data|))
    && file.Some? && |file.value| == |data|
    && forall i :: i in p.bits ==> Piece(file.value, c.blockSize, i) == Piece(data, c.blockSize, i)
  }

  ghost predicate PartAt(s: State, t: Truth, k: FileKey)
    requires k in s.parts
  {
    SizeKnown(s, t, k) && PartOk(s.cfg, s.parts[k], Lookup(s.partFile, k), t(k))
  }

  /** Block i of the file is whole somewhere. */
  predicate Backed(s: State, k: FileKey, i: nat) {
    || (BlockId(k, i) in s.blocks && s.blocks[BlockId(k, i)].bits.None?)
    || (k in s.parts && i in s.parts[k].bits)
  }

  /** Every block the file claims is. */
  predicate AllBacked(s: State, k: FileKey) {
    forall i :: k in s.files && i in s.files[k].present ==> Backed(s, k, i)
  }

  /** The presence map claims only blocks that are whole somewhere, or of a file that is
      kept in a sparse one. */
  ghost predicate PresentAt(s: State, t: Truth, k: FileKey)
    requires k in s.files
  {
    && s.files[k].tag < s.nextTag
    && s.files[k].present <= Range(BlockTotal(s.cfg, t, k))
    && (s.files[k].present != {} ==> s.files[k].size == |t(k)|)
    && forall i :: i in s.files[k].present ==> Backed(s, k, i) || WholeLayout(s.cfg, |t(k)|)
  }

  /** A hydrated file is the real content. */
  ghost predicate WholeAt(s: State, t: Truth, k: FileKey)
    requires k in s.files
  {
    s.files[k].whole.Some? ==>
      var o := s.files[k].whole.value;
      o in s.objects && k in s.objects[o].refs && o in s.inodes && s.inodes[o] == t(k) && s.files[k].size == |t(k)|
  }

  ghost predicate ObjectAt(s: State, o: nat)
    requires o in s.objects
  {
    && o in s.inodes && s.objects[o].size == |s.inodes[o]|
    && (s.objects[o].refs != {} || s.objects[o].readers > 0)
    && forall k :: k in s.objects[o].refs ==> k in s.files && s.files[k].whole == Some(o)
  }

  /** A flush in flight writes the current bytes of its entry, or is detached from
      an entry that is gone. */
  ghost predicate FlushAt(s: State, u: nat)
    requires u in s.flushes
  {
    var f := s.flushes[u];
    && u < s.nextTag
    && if f.detached then Gone(s, u)
       else f.id in s.blocks && s.blocks[f.id].tag == u && s.blocks[f.id].mem == Some(f.data)
  }

  /** Nothing has touched the file since the install began. */
  predicate Current(s: State, i: Install) {
    i.key in s.files && s.files[i.key].tag == i.fileTag && s.files[i.key].generation == i.generation
  }

  /** Every block of the file is whole on disk. */
  ghost predicate SourceOk(s: State, t: Truth, k: FileKey) {
    forall j :: 0 <= j < BlockTotal(s.cfg, t, k) ==>
      BlockId(k, j) in s.blocks && s.blocks[BlockId(k, j)].bits.None? && s.blocks[BlockId(k, j)].mem.None?
  }

  /** The temporary file is the real content up to the next block. */
  ghost predicate Copied(c: Config, i: Install, data: Bytes) {
    i.next <= PieceCount(c.blockSize, |data|) && i.temp == Cut(data, 0, i.next * c.blockSize)
  }

  /** Two hydrations of one file record. */
  predicate SameSource(i: Install, j: Install) {
    i.hydrate && j.hydrate && i.key == j.key && i.fileTag == j.fileTag
  }

  ghost predicate InstallOk(s: State, t: Truth, u: nat, i: Install) {
    && u < s.nextTag && i.size == |t(i.key)|
    && (i.key in s.files && s.files[i.key].tag == i.fileTag ==>
          u in s.files[i.key].holds && i.generation <= s.files[i.key].generation)
    && i.fileTag < s.nextTag
    && (i.hydrate && Current(s, i) ==> SourceOk(s, t, i.key) && Copied(s.cfg, i, t(i.key)))
  }

  ghost predicate RequestOk(s: State, t: Truth, r: Request) {
    match r
    case BlockReq(id, n, size) =>
      size == |t(id.file)| && id.index < BlockTotal(s.cfg, t, id.file) && n == |BlockTruth(s.cfg, t, id)|
    case RangeReq(id, off, n, size) =>
      size == |t(id.file)| && id.index < BlockTotal(s.cfg, t, id.file) &&
        Aligned(s.cfg.subSize, off, n, |BlockTruth(s.cfg, t, id)|)
    case PartReq(id, n, size, token, fileTag) =>
      && size == |t(id.file)| && id.index < BlockTotal(s.cfg, t, id.file) && n == |BlockTruth(s.cfg, t, id)|
      && SizeKnown(s, t, id.file) && s.files[id.file].tag == fileTag && token in s.files[id.file].holds &&
         token !in s.installs
    case InstallReq(token, i) =>
      && token !in s.installs && InstallOk(s, t, token, i) && i.key in s.files && s.files[i.key].tag == i.fileTag
      && i.next == 0 && i.temp == [] && (i.hydrate ==> s.files[i.key].holds == {token})
    case LinkReq(k, o, size, _) => size == |t(k)| && (o in s.objects ==> o in s.inodes && s.inodes[o] == t(k))
    case SweepReq => true
  }

  /** A range put waits for room only while its block is not whole, a link only
      while its inode is not charged. */
  predicate Waiting(s: State, r: Request) {
    && (r.RangeReq? ==> !(r.id in s.blocks && s.blocks[r.id].bits.None?))
    && (r.LinkReq? ==> r.inode !in s.objects)
  }

  ghost predicate LockOk(s: State, t: Truth) {
    match s.lock
    case Free => true
    case Asking(r, need, entries) =>
      RequestOk(s, t, r) && Waiting(s, r) && GrowthBytes(s, r) <= need && GrowthEntries(s, r) <= entries
    case Granted(r) => RequestOk(s, t, r)
  }

  /** Everything the cache holds for one file is real. */
  ghost predicate KeyOk(s: State, t: Truth, k: FileKey) {
    && (forall id :: id in s.blocks && id.file == k ==> BlockAt(s, t, id))
    && (k in s.parts ==> PartAt(s, t, k))
    && (k in s.files ==> PresentAt(s, t, k))
  }

  ghost predicate KeysInv(s: State, t: Truth) {
    forall k :: KeyOk(s, t, k)
  }

  /** Entries are told apart by their tags. */
  ghost predicate TagsInv(s: State) {
    && (forall id :: id in s.blocks ==> s.blocks[id].tag < s.nextTag)
    && (forall x, y :: x in s.blocks && y in s.blocks && s.blocks[x].tag == s.blocks[y].tag ==> x == y)
  }

  ghost predicate WholeInv(s: State, t: Truth) {
    && (forall k :: k in s.files ==> WholeAt(s, t, k))
    && (forall o :: o in s.objects ==> ObjectAt(s, o))
  }

  ghost predicate FlushInv(s: State) {
    forall u :: u in s.flushes ==> FlushAt(s, u)
  }

  ghost predicate InstallInv(s: State, t: Truth) {
    && (forall u :: u in s.installs ==> InstallOk(s, t, u, s.installs[u]))
    && (forall u, v :: u in s.installs && v in s.installs && SameSource(s.installs[u], s.installs[v]) ==> u == v)
  }

  /** A flush that goes into a sparse file knows the file's size. */
  ghost predicate SparseAt(c: Config, t: Truth, f: Flush) {
    f.sparse ==> f.size == |t(f.id.file)| && WholeLayout(c, f.size)
  }

  /** A block on its way into a sparse file is real. */
  ghost predicate NoteAt(c: Config, t: Truth, n: Note) {
    && n.id.index < BlockTotal(c, t, n.id.file) && n.data == BlockTruth(c, t, n.id)
    && WholeLayout(c, |t(n.id.file)|)
  }

  /** Its bytes are in the sparse file it is noted in, if that is still there. */
  predicate Landed(s: State, n: Note) {
    Live(s, n) ==> n.id.file in s.partFile && Piece(s.partFile[n.id.file], s.cfg.blockSize, n.id.index) == n.data
  }

  /** No entry has that tag any more. */
  predicate Gone(s: State, u: nat) {
    u < s.nextTag && forall id :: id in s.blocks ==> s.blocks[id].tag != u
  }

  /** The sparse file a flush found was made before. */
  predicate FoundBefore(s: State, f: Flush) {
    f.part.Some? ==> f.part.value < s.nextTag
  }

  ghost predicate HandInv(s: State, t: Truth) {
    && (forall u :: u in s.flushes ==> SparseAt(s.cfg, t, s.flushes[u]) && FoundBefore(s, s.flushes[u]))
    && (forall u :: u in s.notes ==>
          NoteAt(s.cfg, t, s.notes[u]) && Gone(s, u) && s.notes[u].part < s.nextTag && Landed(s, s.notes[u]))
    && (forall k :: k in s.parts ==> s.parts[k].tag < s.nextTag)
  }

  ghost predicate Inv(s: State, t: Truth) {
    KeysInv(s, t) && TagsInv(s) && WholeInv(s, t) && FlushInv(s) && InstallInv(s, t) && HandInv(s, t) && LockOk(s, t)
  }
}
