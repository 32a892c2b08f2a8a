/** Filling, evicting and publishing sparse files keeps the invariant. */
module CacheKeepsParts {

  import opened Common
  import opened Geometry
  import opened CacheModel
  import opened CacheInvariant
  import opened CacheFrames
  import opened CacheLocks
  import opened CacheEdits
  import opened CacheKeepsBlocks

  /** Writing one real block into the sparse file. */
  lemma FilledOk(c: Config, p: Part, file: Bytes, T: Bytes, idx: nat, now: int)
    requires idx < PieceCount(c.blockSize, |T|) && PartOk(c, p, Some(file), T)
    ensures PartOk(c, p.(bits := p.bits + {idx}, lastAccess := now),
                   Some(WithBlock(c, file, idx, Piece(T, c.blockSize, idx))), T)
  {
    hide Overwrite, PieceCount;
    var d := Piece(T, c.blockSize, idx);
    PieceInRange(c.blockSize, idx, |T|);
    assert Sized(file, |file|) == file;
    assert WithBlock(c, file, idx, d) == Overwrite(file, idx * c.blockSize, d);
    forall i | i in p.bits + {idx}
      ensures Piece(WithBlock(c, file, idx, d), c.blockSize, i) == Piece(T, c.blockSize, i)
    {
      WritePiece(file, c.blockSize, idx, d, i);
    }
  }

  /** And leaving every other block of the file as it is. */
  lemma FilledKeeps(c: Config, file: Bytes, T: Bytes, idx: nat)
    requires c.blockSize > 0 && idx < PieceCount(c.blockSize, |T|) && |file| == |T|
    ensures PiecesKept(c.blockSize, Some(file), Some(WithBlock(c, file, idx, Piece(T, c.blockSize, idx))), T)
    ensures Piece(WithBlock(c, file, idx, Piece(T, c.blockSize, idx)), c.blockSize, idx) == Piece(T, c.blockSize, idx)
  {
    hide Overwrite, PieceCount, Piece;
    var d := Piece(T, c.blockSize, idx);
    PieceInRange(c.blockSize, idx, |T|);
    assert Sized(file, |file|) == file;
    assert WithBlock(c, file, idx, d) == Overwrite(file, idx * c.blockSize, d);
    forall i: nat ensures Piece(WithBlock(c, file, idx, d), c.blockSize, i) ==
      if i == idx then d else Piece(file, c.blockSize, i)
    {
      WritePiece(file, c.blockSize, idx, d, i);
    }
  }

  lemma PartBeforeSame(s: State, s': State, k: FileKey, size: nat, now: int)
    requires s'.cfg == s.cfg && s'.parts == s.parts && s'.partFile == s.partFile && s'.nextTag == s.nextTag
    ensures PartBefore(s', k, size, now) == PartBefore(s, k, size, now)
  {
  }

  lemma PartBeforeOk(s: State, t: Truth, k: FileKey, size: nat, now: int)
    requires KeyOk(s, t, k) && size == |t(k)| > 0
    ensures var p := PartBefore(s, k, size, now); PartOk(s.cfg, p.0, Some(p.1), t(k))
  {
    hide BlockOk, Piece;
    if k in s.parts { assert PartAt(s, t, k); }
  }

  /** Block `id` into the sparse file; with `gone` its own entry and file go. */
  function FillEdit(s: State, id: BlockId, data: Bytes, size: nat, holds: set<nat>, gone: bool, unlink: bool,
                    now: int): Edit {
    var (p, file) := PartBefore(s, id.file, size, now);
    var f := FileOf(s, id.file);
    Kept(s, id).(block := if gone then None else Lookup(s.blocks, id),
                 onDisk := if unlink then None else Lookup(s.blockFile, id),
                 file := f.(size := p.size, present := f.present + {id.index}, generation := f.generation + 1,
                            holds := holds),
                 part := Some(p.(bits := p.bits + {id.index}, lastAccess := now)),
                 partOnDisk := Some(WithBlock(s.cfg, file, id.index, data)))
  }

  lemma BlockInFile(c: Config, t: Truth, id: BlockId)
    requires id.index < BlockTotal(c, t, id.file)
    ensures |t(id.file)| > 0 && id.index < PieceCount(c.blockSize, |t(id.file)|)
  {
  }

  lemma FillPartOk(s: State, t: Truth, id: BlockId, data: Bytes, size: nat, holds: set<nat>, gone: bool, unlink: bool,
                   now: int)
    requires KeyOk(s, t, id.file) && Slice(s.cfg, t, id, data, size)
    ensures var e := FillEdit(s, id, data, size, holds, gone, unlink, now);
      PartOk(s.cfg, e.part.value, e.partOnDisk, t(id.file)) && e.file.size == size
    ensures id.file in s.parts ==>
      PiecesKept(s.cfg.blockSize, Lookup(s.partFile, id.file),
                 FillEdit(s, id, data, size, holds, gone, unlink, now).partOnDisk, t(id.file))
  {
    hide KeyOk, Piece, WithBlock, BlockTotal, PieceCount, PiecesKept;
    BlockInFile(s.cfg, t, id);
    PartBeforeOk(s, t, id.file, size, now);
    var p := PartBefore(s, id.file, size, now);
    FilledOk(s.cfg, p.0, p.1, t(id.file), id.index, now);
    FilledKeeps(s.cfg, p.1, t(id.file), id.index);
    if id.file !in s.partFile { NoFile(s.cfg.blockSize, t(id.file)); }
  }

  lemma NoFile(unit: nat, data: Bytes)
    ensures forall f :: PiecesKept(unit, None, f, data)
  {
  }

  lemma FillReal(s: State, t: Truth, id: BlockId, data: Bytes, size: nat, holds: set<nat>, gone: bool, unlink: bool,
                 now: int)
    requires KeyOk(s, t, id.file) && SizeKnown(s, t, id.file) && Slice(s.cfg, t, id, data, size) && (unlink ==> gone)
    requires forall u :: u in s.files[id.file].holds && u in s.installs ==> u in holds
    ensures Real(s, t, FillEdit(s, id, data, size, holds, gone, unlink, now))
  {
    hide BlockOk, Piece, WithBlock, PartOk, PieceCount, PiecesKept;
    var e := FillEdit(s, id, data, size, holds, gone, unlink, now);
    FillPartOk(s, t, id, data, size, holds, gone, unlink, now);
    assert PresentAt(s, t, id.file);
    if id in s.blocks { assert BlockAt(s, t, id); }
    if !WholeLayout(s.cfg, |t(id.file)|) { assert PresenceOk(s, e); }
  }

  // putPart.

  predicate Refused(s: State, id: BlockId, size: nat) {
    id.file in s.parts && (id.index in s.parts[id.file].bits || s.parts[id.file].size != size)
  }

  lemma RefusedIsEdit(s: State, id: BlockId, data: Bytes, size: nat, token: nat, now: int)
    requires id.file in s.files && Refused(s, id, size)
    ensures var f := s.files[id.file];
      PutPart(s, id, data, size, token, f.tag, now) ==
        Edited(s, Kept(s, id).(file := f.(holds := f.holds - {token})), false, {}, 0).(lock := Free)
  {
    PutSame(s.blocks, id);
    PutSame(s.blockFile, id);
    PutSame(s.parts, id.file);
    PutSame(s.partFile, id.file);
    assert s.flushes - {} == s.flushes;
  }

  lemma PutPartIsEdit(s: State, id: BlockId, data: Bytes, size: nat, token: nat, now: int)
    requires id.file in s.files && !Refused(s, id, size)
    ensures var f := s.files[id.file];
      PutPart(s, id, data, size, token, f.tag, now) ==
        Edited(s, FillEdit(s, id, data, size, f.holds - {token}, false, false, now), false, {}, 1).(lock := Free)
  {
    hide WithBlock, PartBefore;
    PutSame(s.blocks, id);
    PutSame(s.blockFile, id);
    assert s.flushes - {} == s.flushes;
    PartBeforeSame(s, ReleaseHold(s, id.file, s.files[id.file].tag, token).(lock := Free), id.file, size, now);
    var f, g := s.files[id.file], FillEdit(s, id, data, size, s.files[id.file].holds - {token}, false, false, now).file;
    assert s.files[id.file := f.(holds := f.holds - {token})][id.file := g] == s.files[id.file := g];
  }

  lemma PutPartKeeps(s: State, t: Truth, id: BlockId, data: Bytes, size: nat, token: nat, fileTag: nat, now: int)
    requires Inv(s, t) && SizeKnown(s, t, id.file) && s.files[id.file].tag == fileTag && token !in s.installs
    requires Slice(s.cfg, t, id, data, size)
    ensures Inv(PutPart(s, id, data, size, token, fileTag, now), t)
  {
    hide KeyOk, TagsInv, WholeInv, FlushInv, InstallInv, Real, Edited, PutPart, FillEdit, Slice, Refused;
    var holds := s.files[id.file].holds - {token};
    if Refused(s, id, size) {
      RefusedIsEdit(s, id, data, size, token, now);
      RecordReal(s, t, id, s.files[id.file].(holds := holds));
      EditKeeps(s, t, Kept(s, id).(file := s.files[id.file].(holds := holds)), false, {}, 0, Free);
    } else {
      PutPartIsEdit(s, id, data, size, token, now);
      FillReal(s, t, id, data, size, holds, false, false, now);
      FillMoves(s, id, data, size, holds, false, false, now, false, {});
      EditKeeps(s, t, FillEdit(s, id, data, size, holds, false, false, now), false, {}, 1, Free);
    }
  }

  lemma FillMoves(s: State, id: BlockId, data: Bytes, size: nat, holds: set<nat>, gone: bool, unlink: bool, now: int,
                  detach: bool, ended: set<nat>)
    requires id.file in s.files && (gone ==> detach) && (!gone ==> !detach)
    ensures var e := FillEdit(s, id, data, size, holds, gone, unlink, now);
      && EntryMoves(s, e, detach, ended, 1) && SourceMoves(s, e) && PartMoves(s, e, 1)
      && e.file.holds == holds && e.id == id
  {
    hide WithBlock, Sized;
  }

  // Blocks handed over to the sparse file.

  lemma AdoptIsEdit(s: State, id: BlockId, now: int)
    requires id in s.blockFile && id.file in s.files
    ensures Adopt(s, id, now) ==
      Edited(s, FillEdit(s, id, s.blockFile[id], FileOf(s, id.file).size, FileOf(s, id.file).holds, true, true, now),
             true, {}, 1)
  {
    hide WithBlock, PartBefore;
    PartBeforeSame(s, DropAll(s.(blockFile := s.blockFile - {id}), {id}), id.file, FileOf(s, id.file).size, now);
    assert DropAll(s.(blockFile := s.blockFile - {id}), {id}).flushes == DropAll(s, {id}).flushes - {};
  }

  lemma AdoptKeeps(s: State, t: Truth, id: BlockId, now: int)
    requires Inv(s, t) && s.lock.Free? && id in s.blocks && s.blocks[id].bits.None? && s.blocks[id].mem.None? &&
      id in s.blockFile
    ensures Inv(Adopt(s, id, now), t)
  {
    hide TagsInv, WholeInv, FlushInv, InstallInv, LockOk, Real, Edited, Piece, PartOk, Adopt, FillEdit, EntryMoves,
         SourceMoves, Covered;
    assert KeyOk(s, t, id.file) && BlockAt(s, t, id);
    AdoptIsEdit(s, id, now);
    var f, data := FileOf(s, id.file), s.blockFile[id];
    FillReal(s, t, id, data, f.size, f.holds, true, true, now);
    FillMoves(s, id, data, f.size, f.holds, true, true, now, true, {});
    EditUnderLock(s, t, FillEdit(s, id, data, f.size, f.holds, true, true, now), true, {}, 1);
  }

  // Eviction of a sparse file.

  function ForgetEdit(s: State, k: FileKey): Edit
    requires k in s.parts
  {
    var f := FileOf(s, k);
    Kept(s, BlockId(k, 0)).(part := None, partOnDisk := None, file := f.(present := f.present - s.parts[k].bits))
  }

  lemma ForgetPartIsEdit(s: State, k: FileKey)
    requires k in s.parts && k in s.files
    ensures ForgetPart(s, k) == Edited(s, ForgetEdit(s, k), false, {}, 0)
  {
    PutSame(s.blocks, BlockId(k, 0));
    PutSame(s.blockFile, BlockId(k, 0));
    assert s.flushes - {} == s.flushes;
  }

  lemma ForgetReal(s: State, t: Truth, k: FileKey)
    requires KeyOk(s, t, k) && k in s.parts
    ensures Real(s, t, ForgetEdit(s, k))
  {
    hide BlockOk, PartOk, PieceCount;
    var e := ForgetEdit(s, k);
    assert PartAt(s, t, k) && PresentAt(s, t, k);
    if e.id in s.blocks { assert BlockAt(s, t, e.id); }
    if !WholeLayout(s.cfg, |t(k)|) {
      forall i | i in e.file.present ensures Backs(e, i) || i != 0 {
        assert Backed(s, k, i);
      }
    }
  }

  lemma ForgetGrowth(s: State, k: FileKey, r: Request)
    requires k in s.parts && (r.PartReq? ==> r.id.file != k)
    ensures GrowthShrinks(s, Edited(s, ForgetEdit(s, k), false, {}, 0), r)
  {
    hide Covered, PieceCount, PieceLen;
    var s' := Edited(s, ForgetEdit(s, k), false, {}, 0);
    assert s'.blocks == s.blocks by { PutSame(s.blocks, BlockId(k, 0)); }
    assert s'.flushes == s.flushes;
  }

  lemma EvictPartKeeps(s: State, t: Truth, k: FileKey)
    requires Inv(s, t) && s.lock.Asking? && k in s.parts && !FileProtected(s, k)
    ensures Inv(ForgetPart(s, k), t)
  {
    hide TagsInv, WholeInv, FlushInv, InstallInv, Real, Edited, BlockOk, PartOk, ForgetPart, GrowthShrinks, GrowthBytes,
         GrowthEntries, InstallOk;
    assert KeyOk(s, t, k) && PartAt(s, t, k);
    ForgetPartIsEdit(s, k);
    ForgetReal(s, t, k);
    ForgetGrowth(s, k, s.lock.req);
    EditUnderLock(s, t, ForgetEdit(s, k), false, {}, 0);
  }
}
