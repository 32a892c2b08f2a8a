/** Putting, flushing and evicting blocks keeps the invariant. */
module CacheKeepsBlocks {

  import opened Common
  import opened Geometry
  import opened Ranges
  import opened CacheModel
  import opened CacheInvariant
  import opened CacheFrames
  import opened CacheEdits
  import opened CacheLocks
  import opened BlockContents

  /** A new file record, of which nothing is claimed. */
  lemma NewRecordFrame(s: State, t: Truth, k: FileKey)
    requires k !in s.files && KeyOk(s, t, k)
    ensures FileFrame(s, Known(s, k), t, k, BlockId(k, 0)) && KeyOk(Known(s, k), t, k)
  {
    var s' := Known(s, k);
    assert OthersSame(s, s', k);
    assert TagsKept(s, s', BlockId(k, 0));
    assert FlushesKept(s, s');
    assert InstallsKept(s, s', t, k);
    assert forall x :: x in s.blocks && x.file == k ==> BlockAt(s, t, x);
  }

  lemma KnownKeeps(s: State, t: Truth, k: FileKey)
    requires Inv(s, t)
    ensures Inv(Known(s, k).(lock := Free), t)
  {
    hide TagsInv, WholeInv, FlushInv, InstallInv, KeyOk, FileFrame;
    if k in s.files {
      LockApart(s, t, Free);
    } else {
      NewRecordFrame(s, t, k);
      StepOnFile(s, Known(s, k), t, k, BlockId(k, 0), Free);
    }
  }

  // Put and PutAsync.

  ghost predicate Slice(c: Config, t: Truth, id: BlockId, data: Bytes, size: nat) {
    size == |t(id.file)| && id.index < BlockTotal(c, t, id.file) && data == BlockTruth(c, t, id)
  }

  function PutBlockEdit(s: State, id: BlockId, data: Bytes, size: nat, async: bool, now: int): Edit {
    var f := FileOf(s, id.file);
    Kept(s, id).(block := Some(NewBlock(s, id.file, |data|, if async then Some(data) else None, now)),
                 onDisk := if async then Lookup(s.blockFile, id) else Some(data),
                 file := f.(size := size, present := f.present + {id.index}, generation := f.generation + 1))
  }

  lemma PutBlockIsEdit(s: State, id: BlockId, data: Bytes, size: nat, async: bool, now: int)
    requires id.file in s.files
    ensures ReplaceBlock(s, id, data, size, async, now) ==
      Edited(s, PutBlockEdit(s, id, data, size, async, now), true, {}, 1)
  {
    PutSame(s.blockFile, id);
    PutSame(s.parts, id.file);
    PutSame(s.partFile, id.file);
  }

  lemma PutBlockReal(s: State, t: Truth, id: BlockId, data: Bytes, size: nat, async: bool, now: int)
    requires KeyOk(s, t, id.file) && id.file in s.files && Slice(s.cfg, t, id, data, size)
    ensures Real(s, t, PutBlockEdit(s, id, data, size, async, now))
  {
    hide PartialOk, PartOk, Piece;
    var e := PutBlockEdit(s, id, data, size, async, now);
    assert WholeOk(e.block.value, e.onDisk, data);
    assert PresentAt(s, t, id.file);
  }

  lemma ReplaceBlockKeeps(s: State, t: Truth, id: BlockId, data: Bytes, size: nat, async: bool, now: int)
    requires Inv(s, t) && s.lock.Free? && id.file in s.files && Slice(s.cfg, t, id, data, size)
    ensures Inv(ReplaceBlock(s, id, data, size, async, now), t)
  {
    hide KeyOk, TagsInv, WholeInv, FlushInv, InstallInv, Real, ReplaceBlock;
    PutBlockIsEdit(s, id, data, size, async, now);
    PutBlockReal(s, t, id, data, size, async, now);
    EditKeeps(s, t, PutBlockEdit(s, id, data, size, async, now), true, {}, 1, Free);
  }

  lemma PutBlockKeeps(s: State, t: Truth, id: BlockId, data: Bytes, size: nat, async: bool, now: int)
    requires Inv(s, t) && Slice(s.cfg, t, id, data, size)
    ensures Inv(PutBlock(s, id, data, size, async, now), t)
  {
    hide Inv, Known, ReplaceBlock, Slice;
    KnownKeeps(s, t, id.file);
    KnownFields(s, id.file);
    ReplaceBlockKeeps(Known(s, id.file).(lock := Free), t, id, data, size, async, now);
  }

  // PutRange, in memory and on disk.

  function RangeEdit(s: State, id: BlockId, off: nat, data: Bytes, size: nat, inMemory: bool, now: int): Edit {
    var f := RangeFile(s, id.file, size);
    Kept(s, id).(
      block := Some(Extended(s.cfg, RangeBlock(s, id, now), Missing(s.cfg, s.blocks, id, off, |data|), off, data,
                             BlockLen(s.cfg, id.index, size), inMemory, f.pinned || f.userPinned, now)),
      file := f)
  }

  ghost function SyncEdit(s: State, id: BlockId, off: nat, data: Bytes, size: nat, now: int): Edit {
    var L := BlockLen(s.cfg, id.index, size);
    var e := RangeEdit(s, id, off, data, size, false, now);
    var b := Settled(s.cfg, OpenCount(s.blocks), e.block.value, L);
    e.(block := Some(b), onDisk := Some(WriteAt(BaseFile(s, id, L), off, data)),
       file := if b.bits.None? then e.file.(present := e.file.present + {id.index}) else e.file)
  }

  lemma PutRangeIsEdit(s: State, id: BlockId, off: nat, data: Bytes, size: nat, now: int)
    ensures AddRange(s, id, off, data, size, now) ==
      Edited(s, RangeEdit(s, id, off, data, size, true, now), false, {}, 1)
  {
    hide Extended, Missing, BlockLen;
    PutSame(s.blockFile, id);
    PutSame(s.parts, id.file);
    PutSame(s.partFile, id.file);
  }

  lemma PutRangeSyncIsEdit(s: State, id: BlockId, off: nat, data: Bytes, size: nat, now: int)
    ensures AddRangeSync(s, id, off, data, size, now) == Edited(s, SyncEdit(s, id, off, data, size, now), false, {}, 1)
  {
    hide Extended, Missing, BlockLen, Settled, BaseFile, WriteAt;
    PutSame(s.parts, id.file);
    PutSame(s.partFile, id.file);
  }

  /** The entry a range extends is a sound partial block. */
  lemma RangeBlockOk(s: State, t: Truth, id: BlockId, off: nat, n: nat, now: int)
    requires KeyOk(s, t, id.file) && !(id in s.blocks && s.blocks[id].bits.None?)
    ensures PartialOk(s.cfg, RangeBlock(s, id, now), Lookup(s.blockFile, id), BlockTruth(s.cfg, t, id))
    ensures Adds(s.cfg, RangeBlock(s, id, now), off, n, Missing(s.cfg, s.blocks, id, off, n))
  {
    hide PartialOk, PartOk, Piece;
    if id in s.blocks {
      assert BlockAt(s, t, id);
    } else {
      EmptyPartial(s.cfg, RangeBlock(s, id, now), Lookup(s.blockFile, id), BlockTruth(s.cfg, t, id));
    }
  }

  /** The put is a slice of the block's real content. */
  ghost predicate RangeSlice(c: Config, t: Truth, id: BlockId, off: nat, data: Bytes, size: nat) {
    && size == |t(id.file)| && id.index < BlockTotal(c, t, id.file)
    && Aligned(c.subSize, off, |data|, |BlockTruth(c, t, id)|) && data == Cut(BlockTruth(c, t, id), off, |data|)
  }

  /** A range moves the file record on without claiming presence. */
  lemma RangeRecord(s: State, t: Truth, e: Edit, size: nat)
    requires KeyOk(s, t, e.id.file) && e.id.file in s.files && size == |t(e.id.file)|
    requires e.part == Lookup(s.parts, e.id.file) && e.partOnDisk == Lookup(s.partFile, e.id.file)
    requires e.block.Some? && e.id.index < BlockTotal(s.cfg, t, e.id.file) &&
      BlockOk(s.cfg, e.block.value, e.onDisk, BlockTruth(s.cfg, t, e.id))
    requires !(e.id in s.blocks && s.blocks[e.id].bits.None?)
    requires var f := RangeFile(s, e.id.file, size);
      e.file == if e.block.value.bits.None? then f.(present := f.present + {e.id.index}) else f
    ensures Real(s, t, e)
  {
    hide BlockOk, PartOk;
    assert PresentAt(s, t, e.id.file);
    if !WholeLayout(s.cfg, |t(e.id.file)|) {
      forall i | i in e.file.present
        ensures Backs(e, i) ||
          (i != e.id.index && i in s.files[e.id.file].present &&
           !(e.id.file in s.parts && i in s.parts[e.id.file].bits))
      {
        if i in s.files[e.id.file].present { assert Backed(s, e.id.file, i); }
      }
    }
  }

  lemma PutRangeReal(s: State, t: Truth, id: BlockId, off: nat, data: Bytes, size: nat, now: int)
    requires KeyOk(s, t, id.file) && id.file in s.files && !(id in s.blocks && s.blocks[id].bits.None?)
    requires RangeSlice(s.cfg, t, id, off, data, size)
    ensures Real(s, t, RangeEdit(s, id, off, data, size, true, now))
  {
    hide KeyOk, PartialOk, Real;
    var e := RangeEdit(s, id, off, data, size, true, now);
    RangeBlockOk(s, t, id, off, |data|, now);
    ExtendedInMemory(s.cfg, RangeBlock(s, id, now), Lookup(s.blockFile, id), BlockTruth(s.cfg, t, id), off, |data|,
                     Missing(s.cfg, s.blocks, id, off, |data|), e.file.pinned || e.file.userPinned, now);
    RangeRecord(s, t, e, size);
  }

  lemma AddRangeKeeps(s: State, t: Truth, id: BlockId, off: nat, data: Bytes, size: nat, now: int)
    requires Inv(s, t) && s.lock.Free? && id.file in s.files && !(id in s.blocks && s.blocks[id].bits.None?)
    requires RangeSlice(s.cfg, t, id, off, data, size)
    ensures Inv(AddRange(s, id, off, data, size, now), t)
  {
    hide KeyOk, TagsInv, WholeInv, FlushInv, InstallInv, Real, RangeSlice, Missing, AddRange;
    PutRangeIsEdit(s, id, off, data, size, now);
    PutRangeReal(s, t, id, off, data, size, now);
    EditKeeps(s, t, RangeEdit(s, id, off, data, size, true, now), false, {}, 1, Free);
  }

  lemma PutRangeKeeps(s: State, t: Truth, id: BlockId, off: nat, data: Bytes, size: nat, now: int)
    requires Inv(s, t) && RangeSlice(s.cfg, t, id, off, data, size)
    ensures Inv(PutRange(s, id, off, data, size, now), t)
  {
    hide KeysInv, TagsInv, WholeInv, FlushInv, InstallInv, RangeSlice, AddRange, Known;
    if id in s.blocks && s.blocks[id].bits.None? {
      LockApart(s, t, Free);
    } else {
      KnownKeeps(s, t, id.file);
      KnownFields(s, id.file);
      AddRangeKeeps(Known(s, id.file).(lock := Free), t, id, off, data, size, now);
    }
  }

  /** A redundant synchronous range over a whole block. */
  function RewriteEdit(s: State, id: BlockId, off: nat, data: Bytes, size: nat): Edit {
    Kept(s, id).(onDisk := Some(WriteAt(BaseFile(s, id, BlockLen(s.cfg, id.index, size)), off, data)))
  }

  lemma RewriteIsEdit(s: State, id: BlockId, off: nat, data: Bytes, size: nat, now: int)
    requires id in s.blocks && s.blocks[id].bits.None? && id.file in s.files
    ensures PutRangeSync(s, id, off, data, size, now) ==
      Edited(s, RewriteEdit(s, id, off, data, size), false, {}, 0).(lock := Free)
  {
    hide BaseFile, WriteAt;
    PutSame(s.blocks, id);
    PutSame(s.parts, id.file);
    PutSame(s.partFile, id.file);
    assert s.files[id.file := FileOf(s, id.file)] == s.files;
    assert s.flushes - {} == s.flushes;
  }

  /** An edit that keeps the file record and everything claimed. */
  lemma SameRecordReal(s: State, t: Truth, e: Edit)
    requires KeyOk(s, t, e.id.file) && e.id in s.blocks && e.file == FileOf(s, e.id.file)
    requires e.part == Lookup(s.parts, e.id.file) && e.partOnDisk == Lookup(s.partFile, e.id.file)
    requires e.block.Some? ==> BlockOk(s.cfg, e.block.value, e.onDisk, BlockTruth(s.cfg, t, e.id))
    requires s.blocks[e.id].bits.None? ==> e.block.Some? && e.block.value.bits.None?
    ensures Real(s, t, e)
  {
    hide BlockOk, PartOk;
    assert BlockAt(s, t, e.id) && PresentAt(s, t, e.id.file);
    if !WholeLayout(s.cfg, |t(e.id.file)|) {
      forall i | i in e.file.present ensures Backs(e, i) || i != e.id.index {
        assert Backed(s, e.id.file, i);
      }
    }
  }

  lemma RewriteReal(s: State, t: Truth, id: BlockId, off: nat, data: Bytes, size: nat)
    requires KeyOk(s, t, id.file) && id in s.blocks && s.blocks[id].bits.None? &&
      RangeSlice(s.cfg, t, id, off, data, size)
    ensures Real(s, t, RewriteEdit(s, id, off, data, size))
  {
    hide Real, PartOk, PartialOk, WriteAt, Aligned, Piece, Cut, Sized;
    var T := BlockTruth(s.cfg, t, id);
    assert BlockAt(s, t, id);
    ByBits(s.cfg, s.blocks[id], Lookup(s.blockFile, id), T);
    if s.blocks[id].mem.None? {
      WriteOwn(T, s.cfg.subSize, off, |data|);
      assert BaseFile(s, id, |T|) == Sized(T, |T|);
    }
    assert WholeOk(s.blocks[id], RewriteEdit(s, id, off, data, size).onDisk, T);
    SameRecordReal(s, t, RewriteEdit(s, id, off, data, size));
  }

  /** The put promotes a block while a sub-block outside the range is only in memory and
      the block's file has something else in its place. */
  ghost predicate Spoils(s: State, t: Truth, id: BlockId, off: nat, n: nat, size: nat) {
    LeavesHole(s.cfg, s.blocks, id, off, n, size) && exists i :: Stale(s, t, id, off, n, i)
  }

  ghost predicate Stale(s: State, t: Truth, id: BlockId, off: nat, n: nat, i: nat) {
    var T := BlockTruth(s.cfg, t, id);
    && id in s.blocks && i in s.blocks[id].subs && !Named(s.cfg.subSize, off, n, i)
    && Piece(BaseFile(s, id, |T|), s.cfg.subSize, i) != Piece(T, s.cfg.subSize, i)
  }

  lemma SyncReal(s: State, t: Truth, id: BlockId, off: nat, data: Bytes, size: nat, now: int)
    requires KeyOk(s, t, id.file) && id.file in s.files && !(id in s.blocks && s.blocks[id].bits.None?)
    requires RangeSlice(s.cfg, t, id, off, data, size) && !Spoils(s, t, id, off, |data|, size)
    ensures Real(s, t, SyncEdit(s, id, off, data, size, now))
  {
    hide KeyOk, PartialOk, Real, WriteAt, Cut, Missing, Named, Piece;
    var T, e0, e := BlockTruth(s.cfg, t, id), RangeEdit(s, id, off, data, size, false, now),
      SyncEdit(s, id, off, data, size, now);
    RangeBlockOk(s, t, id, off, |data|, now);
    var base := BaseFile(s, id, |T|);
    ExtendedOnDisk(s.cfg, RangeBlock(s, id, now), Lookup(s.blockFile, id), T, off, |data|,
                   Missing(s.cfg, s.blocks, id, off, |data|), e0.file.pinned || e0.file.userPinned, now);
    var b, file := e0.block.value, WriteAt(base, off, data);
    WriteRange(T, base, s.cfg.subSize, off, |data|, 0);
    if |b.bits.value| == PieceCount(s.cfg.subSize, |T|) {
      forall i | i in b.subs ensures Piece(file, s.cfg.subSize, i) == Piece(T, s.cfg.subSize, i) {
        WriteRange(T, base, s.cfg.subSize, off, |data|, i);
        assert !Stale(s, t, id, off, |data|, i);
      }
    }
    SettledOk(s.cfg, OpenCount(s.blocks), b, file, T);
    RangeRecord(s, t, e, size);
  }

  lemma KnownSpoils(s: State, t: Truth, id: BlockId, off: nat, n: nat, size: nat)
    ensures Spoils(Known(s, id.file).(lock := Free), t, id, off, n, size) <==> Spoils(s, t, id, off, n, size)
  {
    hide LeavesHole, Known, Named;
    var s' := Known(s, id.file).(lock := Free);
    KnownFields(s, id.file);
    forall i ensures Stale(s', t, id, off, n, i) <==> Stale(s, t, id, off, n, i) {
    }
  }

  lemma AddRangeSyncKeeps(s: State, t: Truth, id: BlockId, off: nat, data: Bytes, size: nat, now: int)
    requires Inv(s, t) && s.lock.Free? && id.file in s.files && !(id in s.blocks && s.blocks[id].bits.None?)
    requires RangeSlice(s.cfg, t, id, off, data, size) && !Spoils(s, t, id, off, |data|, size)
    ensures Inv(AddRangeSync(s, id, off, data, size, now), t)
  {
    hide KeyOk, TagsInv, WholeInv, FlushInv, InstallInv, Real, RangeSlice, Spoils, AddRangeSync, Missing, WriteAt;
    PutRangeSyncIsEdit(s, id, off, data, size, now);
    SyncReal(s, t, id, off, data, size, now);
    EditKeeps(s, t, SyncEdit(s, id, off, data, size, now), false, {}, 1, Free);
  }

  /** A synchronous range keeps the invariant unless it spoils the block. */
  lemma PutRangeSyncKeeps(s: State, t: Truth, id: BlockId, off: nat, data: Bytes, size: nat, now: int)
    requires Inv(s, t) && RangeSlice(s.cfg, t, id, off, data, size) && !Spoils(s, t, id, off, |data|, size)
    ensures Inv(PutRangeSync(s, id, off, data, size, now), t)
  {
    hide TagsInv, WholeInv, FlushInv, InstallInv, Real, Edited, RangeSlice, Spoils, AddRangeSync, WriteAt, Known,
         BlockOk, PartOk;
    if id in s.blocks && s.blocks[id].bits.None? {
      assert KeyOk(s, t, id.file) && BlockAt(s, t, id);
      RewriteIsEdit(s, id, off, data, size, now);
      RewriteReal(s, t, id, off, data, size);
      EditKeeps(s, t, RewriteEdit(s, id, off, data, size), false, {}, 0, Free);
    } else {
      KnownKeeps(s, t, id.file);
      KnownFields(s, id.file);
      KnownSpoils(s, t, id, off, |data|, size);
      AddRangeSyncKeeps(Known(s, id.file).(lock := Free), t, id, off, data, size, now);
    }
  }

  // Write-behind of sub-blocks.

  ghost function SubsEdit(s: State, id: BlockId): Edit
    requires id in s.blocks
  {
    var L := BlockLen(s.cfg, id.index, FileOf(s, id.file).size);
    var b, f := Settled(s.cfg, OpenCount(s.blocks), s.blocks[id].(subs := map[]), L), FileOf(s, id.file);
    Kept(s, id).(block := Some(b), onDisk := Some(Overlay(BaseFile(s, id, L), s.blocks[id].subs, s.cfg.subSize)),
                 file := if b.bits.None? then f.(present := f.present + {id.index}) else f)
  }

  lemma FlushSubsIsEdit(s: State, id: BlockId)
    requires id in s.blocks && id.file in s.files && s.blocks[id].subs != map[]
    ensures FlushSubs(s, id, true) == Edited(s, SubsEdit(s, id), false, {}, 0)
    ensures FlushSubs(s, id, false) == Edited(s, Kept(s, id).(block := None, onDisk := None), true, {}, 0)
  {
    hide Settled, BaseFile, Overlay;
    PutSame(s.parts, id.file);
    PutSame(s.partFile, id.file);
    assert s.files[id.file := FileOf(s, id.file)] == s.files;
    assert s.flushes - {} == s.flushes;
    assert DropAll(s, {id}).flushes - {} == DropAll(s, {id}).flushes;
  }

  lemma SubsReal(s: State, t: Truth, id: BlockId)
    requires KeyOk(s, t, id.file) && id in s.blocks && s.blocks[id].bits.Some?
    ensures Real(s, t, SubsEdit(s, id))
  {
    hide PartOk, Overlay, Settled, Piece, PartialOk;
    assert BlockAt(s, t, id) && PresentAt(s, t, id.file);
    var T, e, b := BlockTruth(s.cfg, t, id), SubsEdit(s, id), s.blocks[id].(subs := map[]);
    FlushedSubs(s.cfg, s.blocks[id], Lookup(s.blockFile, id), T);
    assert PartialOk(s.cfg, b, e.onDisk, T);
    SettledOk(s.cfg, OpenCount(s.blocks), b, e.onDisk.value, T);
    if !WholeLayout(s.cfg, |t(id.file)|) {
      forall i | i in e.file.present ensures Backs(e, i) || i != id.index {
        if i in s.files[id.file].present { assert Backed(s, id.file, i); }
      }
    }
  }

  lemma FlushSubsKeeps(s: State, t: Truth, id: BlockId, ok: bool)
    requires Inv(s, t) && s.lock.Free? && id in s.blocks && s.blocks[id].bits.Some?
    ensures Inv(FlushSubs(s, id, ok), t)
  {
    hide TagsInv, WholeInv, FlushInv, InstallInv, Real, Edited, BlockOk, PartOk, FlushSubs, LockOk;
    assert KeyOk(s, t, id.file) && BlockAt(s, t, id);
    if s.blocks[id].subs == map[] {
      NothingToFlush(s, id, ok);
    } else {
      FlushSubsIsEdit(s, id);
      if ok {
        SubsReal(s, t, id);
        EditUnderLock(s, t, SubsEdit(s, id), false, {}, 0);
      } else {
        var e := Kept(s, id).(block := None, onDisk := None);
        SameRecordReal(s, t, e);
        EditUnderLock(s, t, e, true, {}, 0);
      }
    }
  }

  lemma NothingToFlush(s: State, id: BlockId, ok: bool)
    requires id in s.blocks && s.blocks[id].subs == map[]
    ensures FlushSubs(s, id, ok) == s
  {
  }

  // The end of a flush.

  lemma SameKey(s: State, s': State, t: Truth, k: FileKey)
    requires KeyOk(s, t, k) && s'.cfg == s.cfg && s'.blocks == s.blocks && s'.files == s.files && s'.parts == s.parts
    requires s'.blockFile == s.blockFile && s'.partFile == s.partFile && s.nextTag <= s'.nextTag
    ensures KeyOk(s', t, k)
  {
    hide BlockOk, PartOk;
    forall x | x in s'.blocks && x.file == k ensures BlockAt(s', t, x) { assert BlockAt(s, t, x); }
    if k in s.files {
      assert PresentAt(s, t, k);
      forall i | i in s'.files[k].present ensures Backed(s', k, i) || WholeLayout(s'.cfg, |t(k)|) {
        assert Backed(s, k, i) || WholeLayout(s.cfg, |t(k)|);
      }
    }
  }

  lemma FlushOverFrame(s: State, t: Truth, u: nat)
    requires u in s.flushes
    ensures FileFrame(s, s.(flushes := s.flushes - {u}), t, s.flushes[u].id.file, s.flushes[u].id)
  {
  }

  lemma FlushOver(s: State, t: Truth, u: nat)
    requires Inv(s, t) && u in s.flushes
    ensures Inv(s.(flushes := s.flushes - {u}), t)
  {
    hide KeyOk, TagsInv, WholeInv, FlushInv, InstallInv, LockOk, FileFrame;
    var id, s' := s.flushes[u].id, s.(flushes := s.flushes - {u});
    FlushOverFrame(s, t, u);
    SameKey(s, s', t, id.file);
    LockMoves(s, s', t, id.file, id);
    assert s'.(lock := s.lock) == s';
    StepOnFile(s, s', t, id.file, id, s.lock);
  }

  // The block reaches its own file.

  function FlushedEdit(s: State, u: nat): Edit
    requires u in s.flushes && s.flushes[u].id in s.blocks
  {
    var f := s.flushes[u];
    Kept(s, f.id).(block := Some(s.blocks[f.id].(mem := None)), onDisk := Some(f.data))
  }

  function LostEdit(s: State, u: nat): Edit
    requires u in s.flushes
  {
    var f := s.flushes[u];
    var r := FileOf(s, f.id.file);
    Kept(s, f.id).(block := None, file := r.(present := r.present - {f.id.index}))
  }

  lemma FlushIsEdit(s: State, u: nat, ok: bool)
    requires u in s.flushes && Owns(s, u) && s.flushes[u].id.file in s.files
    ensures FlushFinish(s, u, ok) ==
      Edited(s, if ok && !s.flushes[u].sparse then FlushedEdit(s, u) else LostEdit(s, u), false, {u}, 0)
  {
    var id := s.flushes[u].id;
    PutSame(s.blockFile, id);
    PutSame(s.parts, id.file);
    PutSame(s.partFile, id.file);
    assert s.files[id.file := FileOf(s, id.file)] == s.files;
  }

  /** A flush in flight carries the block's real bytes. */
  lemma FlushIsReal(s: State, t: Truth, u: nat)
    requires Inv(s, t) && u in s.flushes && !s.flushes[u].detached
    ensures var f := s.flushes[u];
      && Owns(s, u) && s.blocks[f.id].bits.None?
      && f.data == BlockTruth(s.cfg, t, f.id) && SizeKnown(s, t, f.id.file) &&
         f.id.index < BlockTotal(s.cfg, t, f.id.file)
      && BlockOk(s.cfg, s.blocks[f.id].(mem := None), Some(f.data), BlockTruth(s.cfg, t, f.id))
  {
    hide TagsInv, WholeInv, InstallInv, LockOk, Piece, Covered;
    assert FlushAt(s, u);
    var id := s.flushes[u].id;
    assert KeyOk(s, t, id.file) && BlockAt(s, t, id);
  }

  /** A flush is detached exactly when its entry is no longer the one it took its bytes
      from. */
  lemma OwnsExactly(s: State, u: nat)
    requires FlushInv(s) && u in s.flushes
    ensures Owns(s, u) <==> !s.flushes[u].detached
  {
    assert FlushAt(s, u);
  }

  lemma LostReal(s: State, t: Truth, u: nat)
    requires u in s.flushes && s.flushes[u].id in s.blocks && KeyOk(s, t, s.flushes[u].id.file)
    ensures Real(s, t, LostEdit(s, u))
  {
    hide BlockOk, PartOk;
    var id := s.flushes[u].id;
    assert BlockAt(s, t, id) && PresentAt(s, t, id.file);
  }

  /** The end of a flush promises the waiting request no more. */
  lemma FlushGrowth(s: State, e: Edit, detach: bool, u: nat, r: Request)
    requires TagsInv(s) && e.id in s.blocks && s.blocks[e.id].tag == u && u in s.flushes && s.blocks[e.id].bits.None?
    requires e.block.Some? ==>
      e.block.value.tag == u && e.block.value.bits.None? && e.block.value.size == s.blocks[e.id].size
    requires e.id.file in s.parts ==> e.part.Some? && s.parts[e.id.file].bits <= e.part.value.bits
    ensures GrowthShrinks(s, Edited(s, e, detach, {u}, 0), r)
  {
    hide Covered, PieceCount, PieceLen, Edited;
    var s' := Edited(s, e, detach, {u}, 0);
    EditFields(s, e, detach, {u}, 0);
    EditFlushKeys(s, e, detach, {u}, 0);
    match r {
      case BlockReq(id, _, _) => if id != e.id { assert Flushing(s', id) == Flushing(s, id); }
      case RangeReq(id, off, n, _) => if id != e.id { assert Missing(s'.cfg, s'.blocks, id, off, n) ==
        Missing(s.cfg, s.blocks, id, off, n); }
      case _ =>
    }
  }

  lemma StaleIs(s: State, u: nat, ok: bool)
    requires u in s.flushes && !Owns(s, u)
    ensures FlushFinish(s, u, ok) == s.(flushes := s.flushes - {u})
  {
  }

  /** A flush that ends in a block file, or in nothing. */
  lemma FlushFinishKeeps(s: State, t: Truth, u: nat, ok: bool)
    requires Inv(s, t) && u in s.flushes
    ensures Inv(FlushFinish(s, u, ok), t)
  {
    hide TagsInv, WholeInv, FlushInv, InstallInv, HandInv, LockOk, Real, Edited, BlockOk, PartOk, FlushFinish,
         GrowthShrinks, KeyOk;
    OwnsExactly(s, u);
    if s.flushes[u].detached {
      StaleIs(s, u, ok);
      FlushOver(s, t, u);
      return;
    }
    FlushIsReal(s, t, u);
    FlushIsEdit(s, u, ok);
    if ok && !s.flushes[u].sparse {
      SameRecordReal(s, t, FlushedEdit(s, u));
      if s.lock.Asking? { FlushGrowth(s, FlushedEdit(s, u), false, u, s.lock.req); }
      EditUnderLock(s, t, FlushedEdit(s, u), false, {u}, 0);
    } else {
      LostReal(s, t, u);
      if s.lock.Asking? { FlushGrowth(s, LostEdit(s, u), false, u, s.lock.req); }
      EditUnderLock(s, t, LostEdit(s, u), false, {u}, 0);
    }
  }

  // Eviction of a block.

  function EvictEdit(s: State, id: BlockId): Edit {
    var r := FileOf(s, id.file);
    Kept(s, id).(block := None, onDisk := None, file := r.(present := r.present - {id.index}))
  }

  lemma DropBlockIsEdit(s: State, id: BlockId)
    requires id.file in s.files
    ensures DropBlock(s, id) == Edited(s, EvictEdit(s, id), true, {}, 0)
  {
    PutSame(s.parts, id.file);
    PutSame(s.partFile, id.file);
    assert DropAll(s, {id}).flushes - {} == DropAll(s, {id}).flushes;
  }

  lemma EvictReal(s: State, t: Truth, id: BlockId)
    requires id in s.blocks && KeyOk(s, t, id.file)
    ensures Real(s, t, EvictEdit(s, id))
  {
    hide BlockOk, PartOk;
    assert BlockAt(s, t, id) && PresentAt(s, t, id.file);
  }

  lemma EvictGrowth(s: State, id: BlockId, r: Request)
    requires Excluded(Asking(r, 0, 0)) != Some(id) && TagsInv(s) && FlushInv(s)
    ensures GrowthShrinks(s, Edited(s, EvictEdit(s, id), true, {}, 0), r)
  {
    hide Covered, PieceCount, PieceLen, Edited;
    var s' := Edited(s, EvictEdit(s, id), true, {}, 0);
    EditFields(s, EvictEdit(s, id), true, {}, 0);
    EditFlushKeys(s, EvictEdit(s, id), true, {}, 0);
    assert s'.parts == s.parts by { PutSame(s.parts, id.file); }
    match r {
      case BlockReq(x, _, _) => if x != id { assert Flushing(s', x) == Flushing(s, x); }
      case RangeReq(x, off, n, _) => if x != id { assert Missing(s'.cfg, s'.blocks, x, off, n) ==
        Missing(s.cfg, s.blocks, x, off, n); }
      case _ =>
    }
  }

  lemma EvictBlockKeeps(s: State, t: Truth, id: BlockId)
    requires Inv(s, t) && s.lock.Asking? && id in s.blocks && !BlockProtected(s, id, Excluded(s.lock))
    ensures Inv(DropBlock(s, id), t)
  {
    hide TagsInv, WholeInv, FlushInv, InstallInv, LockOk, Real, Edited, BlockOk, PartOk, DropBlock, GrowthShrinks;
    assert KeyOk(s, t, id.file) && BlockAt(s, t, id);
    DropBlockIsEdit(s, id);
    EvictReal(s, t, id);
    EvictGrowth(s, id, s.lock.req);
    EditUnderLock(s, t, EvictEdit(s, id), true, {}, 0);
  }
}
