/** Partial blocks filled on disk, the sparse file filled block by block, and files
    forgotten, on the index. */
module CacheFills {

  import opened Common
  import opened Geometry
  import opened Ranges
  import opened Sums
  import opened CacheModel
  import opened CacheInvariant
  import opened CacheIndex
  import opened CachePuts
  import opened CacheInstalls
  import opened CacheFlushes

  // An entry changed in place.

  /** The state with entry id changed, and what changes on disk and in the records. */
  function Changed(s: State, id: BlockId, b: Block, next: nat, files: map<FileKey, FileState>,
                   onDisk: map<BlockId, Bytes>): State {
    s.(blocks := s.blocks[id := b], nextTag := next, files := files, blockFile := onDisk)
  }

  lemma ChangedOld(s: State, id: BlockId, b: Block, next: nat, files: map<FileKey, FileState>,
                   onDisk: map<BlockId, Bytes>)
    requires Tidy(s) && id in s.blocks && b.tag == s.blocks[id].tag && b.mem == s.blocks[id].mem && s.nextTag <= next
    ensures var s', x, was := Changed(s, id, b, next, files, onDisk), Exact(s), s.blocks[id];
      && Tidy(s')
      && Exact(s') == x.(bytes := x.bytes - was.size + b.size,
                         pending := x.pending - Sum(was.subs, Length) + Sum(b.subs, Length),
                         openPartials := x.openPartials - OpenOne(was) + OpenOne(b))
  {
    hide Tidy, Exact, OpenOne;
    ChangeTotals(s, id, b, next);
    TidyKeep(s, id, b, next);
    var s1 := s.(blocks := s.blocks[id := b], nextTag := next);
    SameTotals(s1, Changed(s, id, b, next, files, onDisk));
  }

  lemma ChangedNew(s: State, id: BlockId, b: Block, files: map<FileKey, FileState>, onDisk: map<BlockId, Bytes>)
    requires Tidy(s) && id !in s.blocks && b.tag == s.nextTag && b.mem.None? && b.subs == map[]
    ensures var s', x := Changed(s, id, b, s.nextTag + 1, files, onDisk), Exact(s);
      Tidy(s') && Exact(s') == x.(bytes := x.bytes + b.size, openPartials := x.openPartials + OpenOne(b))
  {
    hide Tidy, Exact, OpenOne;
    AddTotals(s, id, b);
    TidyAdd(s, id, b);
    var s1 := s.(blocks := s.blocks[id := b], nextTag := s.nextTag + 1);
    SameTotals(s1, Changed(s, id, b, s.nextTag + 1, files, onDisk));
  }

  /** A block that is complete is promoted and its descriptor closed; another keeps one
      open while there are few. */
  method Settle(c: Cache, b: Block, L: nat) returns (r: Block)
    requires c.Valid() && b.bits.Some?
    ensures r == Settled(c.st.cfg, OpenCount(c.st.blocks), b, L)
  {
    if |b.bits.value| == PieceCount(c.st.cfg.subSize, L) {
      r := b.(bits := None, open := false);
    } else {
      r := b.(open := b.open || c.totals.openPartials < MAX_OPEN_PARTIALS);
    }
  }

  lemma SettledKeeps(c: Config, open: nat, b: Block, L: nat)
    ensures var r := Settled(c, open, b, L);
      r.tag == b.tag && r.mem == b.mem && r.subs == b.subs && r.size == b.size
  {
  }

  /** flushSubs: the sub-blocks in memory reach the file and leave the write-behind
      total; a block whose flush failed goes with its file. */
  method FlushPartial(c: Cache, id: BlockId, ok: bool)
    requires c.Valid() && id in c.st.blocks && c.st.blocks[id].bits.Some?
    modifies c
    ensures c.Valid() && c.st == FlushSubs(old(c.st), id, ok)
  {
    hide Tidy, Exact, DropAll, Settled, Overlay, BaseFile, PieceCount, BlockLen, MemoryBytes;
    ghost var s := c.st;
    var m := c.st.blocks[id];
    if m.subs == map[] { return; }
    if !ok {
      c.DropBlock(id);
      DropFile(s, {id});
      SameTotals(c.st, c.st.(blockFile := c.st.blockFile - {id}));
      c.st := c.st.(blockFile := c.st.blockFile - {id});
      return;
    }
    var f := FileOf(c.st, id.file);
    var L := BlockLen(c.st.cfg, id.index, f.size);
    var left := WithoutMemory(m.(mem := None), c.totals.pending);
    MemoryOf(m.(mem := None));
    var b := Settle(c, m.(subs := map[]), L);
    SettledKeeps(c.st.cfg, OpenCount(c.st.blocks), m.(subs := map[]), L);
    var files := if b.bits.None? then c.st.files[id.file := f.(present := f.present + {id.index})] else c.st.files;
    var onDisk := c.st.blockFile[id := Overlay(BaseFile(c.st, id, L), m.subs, c.st.cfg.subSize)];
    ChangedOld(s, id, b, s.nextTag, files, onDisk);
    var open := c.totals.openPartials - OpenOne(m) + OpenOne(b);
    c.st, c.totals := Changed(c.st, id, b, c.st.nextTag, files, onDisk),
      c.totals.(pending := left, openPartials := open);
  }

  // putRangeSync.

  /** The bitmap with the range's sub-blocks set, and how large the entry then is. */
  method Mark(sub: nat, b: Block, off: nat, n: nat, L: nat) returns (bits: set<nat>, size: nat)
    requires sub > 0 && Aligned(sub, off, n, L) && b.bits.Some?
    requires b.size == Covered(sub, L, b.bits.value, PieceCount(sub, L))
    ensures bits == b.bits.value + Gap(b.bits.value, off / sub, off / sub + PieceCount(sub, n))
    ensures size == Covered(sub, L, bits, PieceCount(sub, L))
  {
    hide Covered, PieceLen, Aligned, Named, PieceCount, Gap;
    var have, first, last := b.bits.value, off / sub, (off + n - 1) / sub;
    bits, size := have, b.size;
    LastNamed(sub, off, n, L);
    NoGapAt(have, first);
    var i := first;
    while i <= last
      invariant first <= i <= last + 1 && bits == have + Gap(have, first, i) &&
        size == Covered(sub, L, bits, PieceCount(sub, L))
    {
      GapNext(have, first, i);
      if i !in bits {
        NamedHere(sub, off, n, L, i);
        CoveredAdd(sub, L, bits, PieceCount(sub, L), i);
        var more := SubLength(sub, i, L);
        bits, size := bits + {i}, size + more;
      }
      i := i + 1;
    }
  }

  lemma NoGapAt(have: set<nat>, first: nat)
    ensures Gap(have, first, first) == {}
  {
  }

  /** A whole sub-block, or what is left of the block. */
  method SubLength(sub: nat, i: nat, L: nat) returns (n: nat)
    requires sub > 0 && i < PieceCount(sub, L)
    ensures n == PieceLen(sub, i, L)
  {
    PieceInRange(sub, i, L);
    assert (i + 1) * sub == i * sub + sub;
    n := if (i + 1) * sub > L then L - i * sub else sub;
  }

  /** The marked entry is the machine's. */
  lemma MarkedIs(c: Config, blocks: map<BlockId, Block>, id: BlockId, b: Block, off: nat, data: Bytes, L: nat,
                 pinned: bool, now: int)
    requires b.bits.Some? && (if id in blocks then blocks[id] == b else b.bits.value == {})
    ensures var gap := Gap(b.bits.value, off / c.subSize, off / c.subSize + PieceCount(c.subSize, |data|));
      && gap == Missing(c, blocks, id, off, |data|)
      && Extended(c, b, gap, off, data, L, false, pinned, now) ==
           b.(bits := Some(b.bits.value + gap),
              size := Covered(c.subSize, L, b.bits.value + gap, PieceCount(c.subSize, L)),
              pinned := b.pinned || pinned, lastAccess := now)
  {
    hide Covered, PieceCount, PieceLen, Cut;
  }

  /** putRangeSync: the range goes straight to the file; the entry counts the sub-blocks
      it did not have. */
  method PutRangeSync(c: Cache, id: BlockId, off: nat, data: Bytes, size: nat, now: int)
    requires c.Valid() && Aligned(c.st.cfg.subSize, off, |data|, BlockLen(c.st.cfg, id.index, size)) &&
      Counted(c.st, id, size)
    modifies c
    ensures c.Valid() && c.st == CacheModel.PutRangeSync(old(c.st), id, off, data, size, now)
  {
    hide Tidy, Exact, Known, Aligned, Extended, Covered, PieceCount, Missing, BaseFile, WriteAt, BlockLen;
    if id in c.st.blocks && c.st.blocks[id].bits.None? {
      var onDisk := c.st.blockFile[id := WriteAt(BaseFile(c.st, id, BlockLen(c.st.cfg, id.index, size)), off, data)];
      SameTotals(c.st, c.st.(blockFile := onDisk, lock := Free));
      c.st := c.st.(blockFile := onDisk, lock := Free);
      return;
    }
    KnownTotals(c.st, id.file);
    KnownFields(c.st, id.file);
    c.st := Known(c.st, id.file).(lock := Free);
    Written(c, id, off, data, size, now);
  }

  method Written(c: Cache, id: BlockId, off: nat, data: Bytes, size: nat, now: int)
    requires c.Valid() && Aligned(c.st.cfg.subSize, off, |data|, BlockLen(c.st.cfg, id.index, size)) &&
      Counted(c.st, id, size)
    requires !(id in c.st.blocks && c.st.blocks[id].bits.None?)
    modifies c
    ensures c.Valid() && c.st == AddRangeSync(old(c.st), id, off, data, size, now)
  {
    hide Tidy, Exact, Aligned, Extended, Covered, PieceCount, Missing, Gap, RangeBlock, RangeFile, BlockLen, Settled,
         BaseFile, WriteAt, Changed, AddRangeSync,
      OpenCount;
    ghost var s := c.st;
    var L := BlockLen(c.st.cfg, id.index, size);
    var b := RangeBlock(c.st, id, now);
    RangeBlockIs(c.st, id, size, now);
    var bits, grown := Mark(c.st.cfg.subSize, b, off, |data|, L);
    var f := RangeFile(c.st, id.file, size);
    MarkedIs(s.cfg, s.blocks, id, b, off, data, L, f.pinned || f.userPinned, now);
    var b1 := b.(bits := Some(bits), size := grown, pinned := b.pinned || (f.pinned || f.userPinned),
                 lastAccess := now);
    var b' := Settle(c, b1, L);
    SettledKeeps(s.cfg, OpenCount(s.blocks), b1, L);
    var files := c.st.files[id.file := if b'.bits.None? then f.(present := f.present + {id.index}) else f];
    var onDisk := c.st.blockFile[id := WriteAt(BaseFile(c.st, id, L), off, data)];
    if id in c.st.blocks {
      ChangedOld(s, id, b', s.nextTag + 1, files, onDisk);
    } else {
      ChangedNew(s, id, b', files, onDisk);
    }
    AddRangeSyncIs(s, id, off, data, size, now, b', f, files, onDisk);
    var t := c.totals.(bytes := c.totals.bytes + (grown - b.size), openPartials := c.totals.openPartials - OpenOne(b) +
                       OpenOne(b'));
    c.st, c.totals := Changed(c.st, id, b', c.st.nextTag + 1, files, onDisk), t;
  }

  lemma AddRangeSyncIs(s: State, id: BlockId, off: nat, data: Bytes, size: nat, now: int, b: Block, f: FileState,
                       files: map<FileKey, FileState>,
                       onDisk: map<BlockId, Bytes>)
    requires f == RangeFile(s, id.file, size)
    requires var L := BlockLen(s.cfg, id.index, size);
      && b == Settled(s.cfg, OpenCount(s.blocks),
                      Extended(s.cfg, RangeBlock(s, id, now), Missing(s.cfg, s.blocks, id, off, |data|), off, data, L,
                               false, f.pinned || f.userPinned, now), L)
      && files == s.files[id.file := if b.bits.None? then f.(present := f.present + {id.index}) else f]
      && onDisk == s.blockFile[id := WriteAt(BaseFile(s, id, L), off, data)]
    ensures AddRangeSync(s, id, off, data, size, now) == Changed(s, id, b, s.nextTag + 1, files, onDisk)
  {
    hide Extended, Missing, RangeBlock, RangeFile, Settled, BlockLen, BaseFile, WriteAt, OpenCount;
  }

  // The sparse file.

  lemma HoldTotals(s: State, k: FileKey, fileTag: nat, token: nat)
    ensures var s' := ReleaseHold(s, k, fileTag, token).(lock := Free);
      Exact(s') == Exact(s) && (Tidy(s) ==> Tidy(s')) && s'.parts == s.parts && s'.cfg == s.cfg
  {
    hide Tidy, Exact;
    SameTotals(s, ReleaseHold(s, k, fileTag, token).(lock := Free));
  }

  /** putPart: the hold ends, and the block is noted unless the sparse file has it or
      was made for another size. */
  method PutPart(c: Cache, id: BlockId, data: Bytes, size: nat, token: nat, fileTag: nat, now: int)
    requires c.Valid() && id.index < PieceCount(c.st.cfg.blockSize, size) &&
      |data| == BlockLen(c.st.cfg, id.index, size)
    requires id.file in c.st.parts ==> c.st.parts[id.file].unit == c.st.cfg.blockSize
    modifies c
    ensures c.Valid() && c.st == CacheModel.PutPart(old(c.st), id, data, size, token, fileTag, now)
  {
    hide Tidy, Exact, FillPart, ReleaseHold, PieceCount, BlockLen;
    HoldTotals(c.st, id.file, fileTag, token);
    var known := id.file in c.st.parts && (id.index in c.st.parts[id.file].bits || c.st.parts[id.file].size != size);
    c.st := ReleaseHold(c.st, id.file, fileTag, token).(lock := Free);
    if !known { NoteBlock(c, id.file, size, id.index, data, now, false); }
  }

  /** adoptBlockIntoPart: the block's bytes are charged to the sparse file instead. */
  method AdoptBlock(c: Cache, id: BlockId, now: int)
    requires c.Valid() && id in c.st.blocks && id in c.st.blockFile && c.st.blocks[id].mem.None?
    requires Fits(c.st, id.file, FileOf(c.st, id.file).size, id.index, c.st.blockFile[id])
    modifies c
    ensures c.Valid() && c.st == Adopt(old(c.st), id, now)
    ensures id !in c.st.blocks && id.file in c.st.parts && id.index in c.st.parts[id.file].bits
  {
    hide Tidy, Exact, HandOver, Fits, FileOf;
    ghost var s := c.st;
    var data, size := c.st.blockFile[id], FileOf(c.st, id.file).size;
    SameTotals(c.st, c.st.(blockFile := c.st.blockFile - {id}));
    c.st := c.st.(blockFile := c.st.blockFile - {id});
    SameFile(s, c.st, id.file);
    FitsStill(s, c.st, id.file, size, id.index, data);
    HandedOver(c.st, id, data, now);
    HandBlock(c, id, data, now);
  }

  // Forgetting and leases.

  lemma ReleasedIndex(s: State, o: nat)
    ensures var s' := Released(s, o);
      s'.blocks == s.blocks && s'.blockFile == s.blockFile && s'.parts == s.parts && s'.partFile == s.partFile
  {
  }

  lemma DetachIndex(s: State, k: FileKey)
    ensures var s' := Detach(s, k);
      s'.blocks == s.blocks && s'.blockFile == s.blockFile && s'.parts == s.parts && s'.partFile == s.partFile
  {
    hide Released;
    var f := FileOf(s, k);
    if f.whole.Some? {
      var o := f.whole.value;
      var ob := ObjectOf(s, o);
      ReleasedIndex(s.(files := s.files[k := f.(whole := None)], objects := s.objects[o := ob.(refs := ob.refs - {k})]),
                    o);
    }
  }

  lemma ForgetPartly(s: State, k: FileKey)
    requires k in s.files
    ensures var s2 := Partly(Detach(s, k), BlocksOf(s, k));
      Forget(s, k) == s2.(parts := s2.parts - {k}, partFile := s2.partFile - {k}, files := s2.files - {k})
  {
    hide Detach, DropAll;
    DetachIndex(s, k);
    DropParts(Detach(s, k), BlocksOf(s, k));
  }

  /** forgetFile: the inode is let go, the blocks and the sparse file go, and then the
      record itself. */
  method ForgetFile(c: Cache, k: FileKey)
    requires c.Valid() && (k in c.st.files ==> Charged(c.st, k))
    modifies c
    ensures c.Valid() && c.st == Forget(old(c.st), k)
  {
    hide Tidy, Exact, Detach, DropAll, Partly, PartBytes;
    if k !in c.st.files { return; }
    ghost var s := c.st;
    ForgetPartly(s, k);
    DetachIndex(s, k);
    c.DetachWhole(k);
    DropBlocks(c, k);
    PartGone(c.st, k);
    if k in c.st.parts { c.totals := c.totals.(part := c.totals.part - PartBytes(c.st.parts[k])); }
    c.st := c.st.(parts := c.st.parts - {k}, partFile := c.st.partFile - {k});
    SameTotals(c.st, c.st.(files := c.st.files - {k}));
    c.st := c.st.(files := c.st.files - {k});
  }

  /** WholeFile.Close: the last lease on an inode without names gives its charge back. */
  method EndLease(c: Cache, o: nat)
    requires c.Valid() && o in c.st.objects && c.st.objects[o].readers > 0
    modifies c
    ensures c.Valid() && c.st == CloseWhole(old(c.st), o)
  {
    hide Tidy, Exact;
    var ob := c.st.objects[o].(readers := c.st.objects[o].readers - 1);
    ObjectTotals(c.st, o, ob, c.st.files);
    if ob.refs == {} && ob.readers == 0 {
      c.st, c.totals := c.st.(objects := c.st.objects[o := ob] - {o}, inodes := c.st.inodes - {o}),
        c.totals.(whole := c.totals.whole - ob.size);
    } else {
      c.st := c.st.(objects := c.st.objects[o := ob]);
    }
  }

  /** What these methods ask of the state holds in every state of every lawful run: a
      partial entry counts its sub-blocks, a file's inode is charged, and a sparse file
      has the file's size and the cache's block size. */
  lemma InvMeets(s: State, t: Truth, id: BlockId)
    requires Inv(s, t)
    ensures Counted(s, id, |t(id.file)|) && (id.file in s.files ==> Charged(s, id.file))
    ensures id.file in s.parts ==> s.parts[id.file].unit == s.cfg.blockSize && s.parts[id.file].size == |t(id.file)|
  {
    hide TagsInv, FlushInv, InstallInv, LockOk, Piece, Covered;
    assert KeyOk(s, t, id.file);
    if id in s.blocks { assert BlockAt(s, t, id); }
    if id.file in s.parts { assert PartAt(s, t, id.file); }
    if id.file in s.files { assert WholeAt(s, t, id.file); }
  }
}
