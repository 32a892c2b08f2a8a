/** The budget: an admission never asks for less than its commit adds, nothing else
    adds to the charge, and so the caps hold after every step. */
module CacheBudget {

  import opened Common
  import opened Geometry
  import opened CacheModel
  import opened CacheInvariant
  import opened CacheEdits
  import opened CacheCharge
  import opened CacheKeepsBlocks
  import opened CacheKeepsParts

  // Commits add exactly what was admitted.

  lemma ReplaceWeight(s: State, t: Truth, id: BlockId, data: Bytes, size: nat, async: bool, now: int)
    requires Inv(s, t) && id.file in s.files
    ensures var s' := ReplaceBlock(s, id, data, size, async, now); var r := BlockReq(id, |data|, size);
      Charge(s') == Charge(s) + GrowthBytes(s, r) && Entries(s') == Entries(s) + GrowthEntries(s, r)
  {
    hide Inv, Edited, ReplaceBlock, Weight, Charge, Entries;
    var s', e := ReplaceBlock(s, id, data, size, async, now), PutBlockEdit(s, id, data, size, async, now);
    PutBlockIsEdit(s, id, data, size, async, now);
    Ledger(s);
    Ledger(s');
    EditWeightInv(s, t, e, true, 1, InBytes());
    EditWeightInv(s, t, e, true, 1, InEntries());
    if Flushing(s, id) { FlushedSize(s, t, id); }
  }

  lemma EditWeightInv(s: State, t: Truth, e: Edit, detach: bool, tags: nat, w: Weights)
    requires Inv(s, t) && Ours(w)
    ensures Weight(Edited(s, e, detach, {}, tags), w) ==
      Weight(s, w) - OptWeight(Lookup(s.blocks, e.id), w.block) + OptWeight(e.block, w.block)
                   - OptWeight(Lookup(s.parts, e.id.file), w.part) + OptWeight(e.part, w.part)
                   + (if detach then DetachCost(s, e.id, w) else 0)
  {
    hide KeysInv, WholeInv, InstallInv, LockOk, FlushInv, TagsInv, Weight, Edited, DetachCost;
    InvFair(s, t, w);
    EditWeight(s, e, detach, tags, w);
  }

  /** A block being flushed is as long as its bytes. */
  lemma FlushedSize(s: State, t: Truth, id: BlockId)
    requires Inv(s, t) && Flushing(s, id)
    ensures var f := s.flushes[s.blocks[id].tag]; !f.detached && f.id == id && |f.data| == s.blocks[id].size
  {
    hide WholeInv, InstallInv, LockOk, PartOk, Covered, Piece, PieceCount;
    assert FlushAt(s, s.blocks[id].tag);
    assert KeyOk(s, t, id.file) && BlockAt(s, t, id);
  }

  /** The same things are charged. */
  predicate ChargedSame(s: State, s': State) {
    && s'.cfg == s.cfg && s'.blocks == s.blocks && s'.objects == s.objects && s'.parts == s.parts
    && s'.temps == s.temps && s'.installs == s.installs && s'.flushes == s.flushes && s'.notes == s.notes
  }

  lemma SameLedger(s: State, s': State, r: Request)
    requires ChargedSame(s, s')
    ensures Charge(s') == Charge(s) && Entries(s') == Entries(s)
    ensures GrowthBytes(s', r) == GrowthBytes(s, r) && GrowthEntries(s', r) == GrowthEntries(s, r)
  {
    hide Covered, PieceCount;
  }

  lemma KnownCharged(s: State, k: FileKey)
    ensures ChargedSame(s, Known(s, k).(lock := Free))
  {
    if k in s.files {
      assert Known(s, k) == s;
    } else {
      assert Known(s, k) == s.(files := Known(s, k).files, nextTag := s.nextTag + 1);
    }
  }

  /** Put and PutAsync add the block's bytes less what it replaces, all of it when the
      replaced copy is still being flushed. */
  lemma PutBlockCharge(s: State, t: Truth, id: BlockId, data: Bytes, size: nat, async: bool, now: int)
    requires Inv(s, t)
    ensures var s' := PutBlock(s, id, data, size, async, now); var r := BlockReq(id, |data|, size);
      Charge(s') == Charge(s) + GrowthBytes(s, r) && Entries(s') == Entries(s) + GrowthEntries(s, r)
  {
    hide Inv, Known, ReplaceBlock, Charge, Entries, GrowthBytes, GrowthEntries;
    KnownKeeps(s, t, id.file);
    KnownFields(s, id.file);
    KnownCharged(s, id.file);
    SameLedger(s, Known(s, id.file).(lock := Free), BlockReq(id, |data|, size));
    ReplaceWeight(Known(s, id.file).(lock := Free), t, id, data, size, async, now);
  }

  /** A range adds the lengths of the sub-blocks that were missing. */
  lemma ExtendedSize(s: State, t: Truth, id: BlockId, off: nat, data: Bytes, size: nat, inMemory: bool, now: int)
    requires KeyOk(s, t, id.file) && !(id in s.blocks && s.blocks[id].bits.None?) && size == |t(id.file)|
    ensures var r := RangeReq(id, off, |data|, size);
      RangeEdit(s, id, off, data, size, inMemory, now).block.value.size ==
        (if id in s.blocks then s.blocks[id].size else 0) + GrowthBytes(s, r)
  {
    hide PartOk, Piece, WholeOk;
    var L, miss := BlockLen(s.cfg, id.index, size), Missing(s.cfg, s.blocks, id, off, |data|);
    var n := PieceCount(s.cfg.subSize, L);
    CoveredUnion(s.cfg.subSize, L, BitsOf(RangeBlock(s, id, now)), miss, n);
    NothingCovered(s.cfg.subSize, L, n);
    if id in s.blocks { PartialSize(s, t, id); }
  }

  lemma PartialSize(s: State, t: Truth, id: BlockId)
    requires KeyOk(s, t, id.file) && id in s.blocks && s.blocks[id].bits.Some?
    ensures var L := |BlockTruth(s.cfg, t, id)|;
      s.blocks[id].size == Covered(s.cfg.subSize, L, s.blocks[id].bits.value, PieceCount(s.cfg.subSize, L))
  {
    hide PartOk, Piece, Covered;
    assert BlockAt(s, t, id);
  }

  lemma RangeEditCharge(s: State, t: Truth, e: Edit, off: nat, n: nat, size: nat)
    requires Inv(s, t) && !(e.id in s.blocks && s.blocks[e.id].bits.None?) && e.block.Some? &&
      e.part == Lookup(s.parts, e.id.file)
    requires e.block.value.size == (if e.id in s.blocks then s.blocks[e.id].size else 0) +
      GrowthBytes(s, RangeReq(e.id, off, n, size))
    ensures var s', r := Edited(s, e, false, {}, 1), RangeReq(e.id, off, n, size);
      Charge(s') == Charge(s) + GrowthBytes(s, r) && Entries(s') == Entries(s) + GrowthEntries(s, r)
  {
    hide Inv, Edited, Weight, Charge, Entries, GrowthBytes;
    var s' := Edited(s, e, false, {}, 1);
    Ledger(s);
    Ledger(s');
    EditWeightInv(s, t, e, false, 1, InBytes());
    EditWeightInv(s, t, e, false, 1, InEntries());
  }

  lemma AddRangeCharge(s: State, t: Truth, id: BlockId, off: nat, data: Bytes, size: nat, now: int)
    requires Inv(s, t) && !(id in s.blocks && s.blocks[id].bits.None?) && size == |t(id.file)|
    ensures var s', r := AddRange(s, id, off, data, size, now), RangeReq(id, off, |data|, size);
      Charge(s') == Charge(s) + GrowthBytes(s, r) && Entries(s') == Entries(s) + GrowthEntries(s, r)
    ensures var s', r := AddRangeSync(s, id, off, data, size, now), RangeReq(id, off, |data|, size);
      Charge(s') == Charge(s) + GrowthBytes(s, r) && Entries(s') == Entries(s) + GrowthEntries(s, r)
  {
    hide KeyOk, TagsInv, WholeInv, FlushInv, InstallInv, LockOk, Edited, AddRange, AddRangeSync, Charge, Entries,
         GrowthBytes, GrowthEntries, Extended, Missing, WriteAt;
    PutRangeIsEdit(s, id, off, data, size, now);
    PutRangeSyncIsEdit(s, id, off, data, size, now);
    ExtendedSize(s, t, id, off, data, size, true, now);
    ExtendedSize(s, t, id, off, data, size, false, now);
    RangeEditCharge(s, t, RangeEdit(s, id, off, data, size, true, now), off, |data|, size);
    RangeEditCharge(s, t, SyncEdit(s, id, off, data, size, now), off, |data|, size);
  }

  lemma RedundantRangeCharge(s: State, id: BlockId, off: nat, data: Bytes, size: nat, now: int)
    requires id in s.blocks && s.blocks[id].bits.None?
    ensures ChargedSame(s, PutRange(s, id, off, data, size, now)) &&
      ChargedSame(s, PutRangeSync(s, id, off, data, size, now))
  {
    hide WriteAt, BaseFile;
  }

  lemma PutRangeIs(s: State, id: BlockId, off: nat, data: Bytes, size: nat, now: int)
    requires !(id in s.blocks && s.blocks[id].bits.None?)
    ensures PutRange(s, id, off, data, size, now) ==
      AddRange(Known(s, id.file).(lock := Free), id, off, data, size, now)
    ensures PutRangeSync(s, id, off, data, size, now) ==
      AddRangeSync(Known(s, id.file).(lock := Free), id, off, data, size, now)
  {
    hide Known, AddRange, AddRangeSync;
  }

  /** PutRange, in memory or on disk, adds the bytes of the sub-blocks that were
      missing, and nothing over a whole block. */
  lemma PutRangeCharge(s: State, t: Truth, id: BlockId, off: nat, data: Bytes, size: nat, sync: bool, now: int)
    requires Inv(s, t) && size == |t(id.file)|
    ensures var r := RangeReq(id, off, |data|, size);
      var s' := if sync then PutRangeSync(s, id, off, data, size, now) else PutRange(s, id, off, data, size, now);
      Charge(s') == Charge(s) + GrowthBytes(s, r) && Entries(s') == Entries(s) + GrowthEntries(s, r)
  {
    hide Inv, Known, AddRange, AddRangeSync, Charge, Entries, PutRange, PutRangeSync, ChargedSame, Covered, PieceCount,
         Missing;
    var r := RangeReq(id, off, |data|, size);
    if id in s.blocks && s.blocks[id].bits.None? {
      RedundantRangeCharge(s, id, off, data, size, now);
      SameLedger(s, PutRangeSync(s, id, off, data, size, now), r);
      SameLedger(s, PutRange(s, id, off, data, size, now), r);
    } else {
      var s1 := Known(s, id.file).(lock := Free);
      KnownKeeps(s, t, id.file);
      KnownFields(s, id.file);
      KnownCharged(s, id.file);
      SameLedger(s, s1, r);
      PutRangeIs(s, id, off, data, size, now);
      AddRangeCharge(s1, t, id, off, data, size, now);
    }
  }

  /** putPart adds the block once. */
  lemma PutPartCharge(s: State, t: Truth, id: BlockId, data: Bytes, size: nat, token: nat, fileTag: nat, now: int)
    requires Inv(s, t) && SizeKnown(s, t, id.file) && s.files[id.file].tag == fileTag && Slice(s.cfg, t, id, data, size)
    ensures var s', r := PutPart(s, id, data, size, token, fileTag, now), PartReq(id, |data|, size, token, fileTag);
      Charge(s') == Charge(s) + GrowthBytes(s, r) && Entries(s') == Entries(s) + GrowthEntries(s, r)
  {
    hide TagsInv, WholeInv, FlushInv, InstallInv, LockOk, Edited, PutPart, Charge, Entries, Weight, WithBlock, BlockOk,
         Piece;
    var r := PartReq(id, |data|, size, token, fileTag);
    var s' := PutPart(s, id, data, size, token, fileTag, now);
    var holds := s.files[id.file].holds - {token};
    assert KeyOk(s, t, id.file);
    if Refused(s, id, size) {
      assert PartAt(s, t, id.file);
      RefusedIsEdit(s, id, data, size, token, now);
      WeighEdit(s, t, Kept(s, id).(file := s.files[id.file].(holds := holds)), false, 0);
    } else {
      PutPartIsEdit(s, id, data, size, token, now);
      FilledBytes(s, t, id, data, size, now);
      WeighEdit(s, t, FillEdit(s, id, data, size, holds, false, false, now), false, 1);
    }
  }

  lemma FilledBytes(s: State, t: Truth, id: BlockId, data: Bytes, size: nat, now: int)
    requires KeyOk(s, t, id.file) && Slice(s.cfg, t, id, data, size)
    ensures var p := PartBefore(s, id.file, size, now).0;
      && PartBytes(p.(bits := p.bits + {id.index}, lastAccess := now)) ==
         PartBytes(p) + (if id.index in p.bits then 0 else |data|)
      && (id.file !in s.parts ==> PartBytes(p) == 0)
  {
    hide BlockOk, PartialOk;
    var p := PartBefore(s, id.file, size, now).0;
    if id.file in s.parts { assert PartAt(s, t, id.file); }
    if id.index in p.bits {
      assert p.bits + {id.index} == p.bits;
    } else {
      CoveredAdd(p.unit, p.size, p.bits, PieceCount(p.unit, p.size), id.index);
    }
    NothingCovered(s.cfg.blockSize, size, PieceCount(s.cfg.blockSize, size));
  }

  /** Both totals after an edit. */
  lemma WeighEdit(s: State, t: Truth, e: Edit, detach: bool, tags: nat)
    requires Inv(s, t)
    ensures var s' := Edited(s, e, detach, {}, tags).(lock := Free);
      && Charge(s') == Charge(s) - OptWeight(Lookup(s.blocks, e.id), BlockBytes) + OptWeight(e.block, BlockBytes)
                       - OptWeight(Lookup(s.parts, e.id.file), PartBytes) + OptWeight(e.part, PartBytes)
                       + (if detach then DetachCost(s, e.id, InBytes()) else 0)
      && Entries(s') == Entries(s) - (if e.id in s.blocks then 1 else 0) + (if e.block.Some? then 1 else 0)
                        - (if e.id.file in s.parts then 1 else 0) + (if e.part.Some? then 1 else 0)
                        + (if detach then DetachCost(s, e.id, InEntries()) else 0)
  {
    hide Inv, Edited, Weight, Charge, Entries, PartBytes, DetachCost;
    var s' := Edited(s, e, detach, {}, tags);
    Ledger(s);
    Ledger(s');
    SameLedger(s', s'.(lock := Free), SweepReq);
    EditWeightInv(s, t, e, detach, tags, InBytes());
    EditWeightInv(s, t, e, detach, tags, InEntries());
  }
}
