/** The three sections in which a flushed block is handed over to its sparse file keep the
    invariant, whatever comes between them. */
module CacheKeepsHands {

  import opened Common
  import opened Geometry
  import opened CacheModel
  import opened CacheInvariant
  import opened CacheFrames
  import opened CacheLocks
  import opened CacheEdits
  import opened CacheKeepsBlocks
  import opened CacheKeepsParts
  import opened CacheKeepsCalls

  /** Only flushes and notes changed, and as they may. */
  lemma HandsOnly(s: State, s': State, t: Truth)
    requires Inv(s, t) && s' == s.(flushes := s'.flushes, notes := s'.notes)
    requires s'.flushes.Keys == s.flushes.Keys && FlushesKept(s, s') && NotesKept(s, s', t)
    ensures Inv(s', t)
  {
    hide KeyOk, TagsInv, WholeInv, FlushInv, InstallInv, HandInv, LockOk, FileFrame, FlushesKept, NotesKept,
         GrowthShrinks;
    var k := FileKey("", "", "");
    HandsFrame(s, s', t, k);
    SameKey(s, s', t, k);
    if s.lock.Asking? { HandsGrowth(s, s', s.lock.req); }
    LockMoves(s, s', t, k, BlockId(k, 0));
    assert s'.(lock := s.lock) == s';
    StepOnFile(s, s', t, k, BlockId(k, 0), s.lock);
  }

  lemma HandsFrame(s: State, s': State, t: Truth, k: FileKey)
    requires s' == s.(flushes := s'.flushes, notes := s'.notes) && FlushesKept(s, s') && NotesKept(s, s', t)
    ensures FileFrame(s, s', t, k, BlockId(k, 0)) && RecordKept(s, s', t, k) && SourceSafe(s, s', t, k)
  {
    hide FlushesKept, NotesKept;
  }

  lemma HandsGrowth(s: State, s': State, r: Request)
    requires s' == s.(flushes := s'.flushes, notes := s'.notes) && s'.flushes.Keys == s.flushes.Keys
    ensures GrowthShrinks(s, s', r)
  {
    hide Covered, PieceCount;
    match r {
      case BlockReq(id, _, _) => assert Flushing(s', id) == Flushing(s, id);
      case RangeReq(id, off, n, _) =>
        assert Missing(s'.cfg, s'.blocks, id, off, n) == Missing(s.cfg, s.blocks, id, off, n);
      case _ =>
    }
  }

  // ensurePart.

  /** An empty sparse file beside a record that knows the size. */
  function EnsureEdit(s: State, k: FileKey, size: nat, now: int): Edit {
    Kept(s, BlockId(k, 0)).(file := FileOf(s, k).(size := size), part := Some(PartBefore(s, k, size, now).0),
                            partOnDisk := Some(PartBefore(s, k, size, now).1))
  }

  lemma MadePartIsEdit(s: State, k: FileKey, size: nat, now: int)
    ensures MadePart(s, k, size, now) == Edited(s, EnsureEdit(s, k, size, now), false, {}, 1)
  {
    hide PartBefore;
    PutSame(s.blocks, BlockId(k, 0));
    PutSame(s.blockFile, BlockId(k, 0));
    assert s.flushes - {} == s.flushes;
  }

  lemma EnsureReal(s: State, t: Truth, k: FileKey, size: nat, now: int)
    requires KeyOk(s, t, k) && k in s.files && k !in s.parts && size == |t(k)| > 0
    ensures Real(s, t, EnsureEdit(s, k, size, now))
  {
    hide BlockOk, PartOk, PieceCount;
    var e := EnsureEdit(s, k, size, now);
    PartBeforeOk(s, t, k, size, now);
    assert PresentAt(s, t, k);
    if e.id in s.blocks { assert BlockAt(s, t, e.id); }
    if !WholeLayout(s.cfg, |t(k)|) {
      forall i | i in e.file.present ensures Backs(e, i) || i != 0 {
        assert Backed(s, k, i);
      }
    }
  }

  lemma EnsureGrowth(s: State, k: FileKey, size: nat, now: int, r: Request)
    requires k !in s.parts
    ensures GrowthShrinks(s, Edited(s, EnsureEdit(s, k, size, now), false, {}, 1), r)
  {
    hide Covered, PieceCount, PieceLen, Sized;
    var s' := Edited(s, EnsureEdit(s, k, size, now), false, {}, 1);
    assert s'.blocks == s.blocks by { PutSame(s.blocks, BlockId(k, 0)); }
    assert s'.flushes == s.flushes;
    if r.RangeReq? {
      assert Missing(s'.cfg, s'.blocks, r.id, r.off, r.n) == Missing(s.cfg, s.blocks, r.id, r.off, r.n);
    }
  }

  lemma WithPartKeeps(s: State, t: Truth, k: FileKey, size: nat, now: int)
    requires Inv(s, t) && size == |t(k)| > 0
    ensures Inv(WithPart(s, k, size, now), t)
  {
    hide KeyOk, TagsInv, WholeInv, FlushInv, InstallInv, HandInv, LockOk, Known, MadePart, Real, Edited, EnsureEdit,
         GrowthShrinks, EntryMoves, SourceMoves;
    if k !in s.parts {
      MadePartIsEdit(Known(s, k), k, size, now);
      KnownStays(s, t, k);
      KnownFields(s, k);
      var s1 := Known(s, k);
      EnsureReal(s1, t, k, size, now);
      EnsureMoves(s1, k, size, now);
      if s1.lock.Asking? { EnsureGrowth(s1, k, size, now, s1.lock.req); }
      EditUnderLock(s1, t, EnsureEdit(s1, k, size, now), false, {}, 1);
    }
  }

  lemma EnsureMoves(s: State, k: FileKey, size: nat, now: int)
    ensures var e := EnsureEdit(s, k, size, now);
      && EntryMoves(s, e, false, {}, 1) && SourceMoves(s, e) && (k !in s.parts ==> PartMoves(s, e, 1))
      && e.file.holds == FileOf(s, k).holds && e.id.file == k
  {
    hide Sized;
  }

  lemma WithPartFields(s: State, k: FileKey, size: nat, now: int)
    ensures var s' := WithPart(s, k, size, now);
      k in s'.parts && s'.flushes == s.flushes && s'.blocks == s.blocks && s'.notes == s.notes && s'.cfg == s.cfg
  {
    hide Known;
    KnownFields(s, k);
  }

  lemma HandEnsureKeeps(s: State, t: Truth, u: nat, now: int)
    requires Inv(s, t) && u in s.flushes && s.flushes[u].sparse
    ensures Inv(HandEnsure(s, u, now), t)
  {
    hide KeysInv, TagsInv, WholeInv, FlushInv, InstallInv, LockOk, WithPart, NoteAt;
    var f := s.flushes[u];
    assert SparseAt(s.cfg, t, f);
    WithPartKeeps(s, t, f.id.file, f.size, now);
    WithPartFields(s, f.id.file, f.size, now);
    HandsOnly(WithPart(s, f.id.file, f.size, now), HandEnsure(s, u, now), t);
  }

  // The block leaves the index.

  function HandDropEdit(s: State, u: nat): Edit
    requires u in s.flushes && s.flushes[u].part.Some?
  {
    var f := s.flushes[u];
    var n := Note(f.id, f.data, f.part.value);
    Kept(s, f.id).(block := None, partOnDisk := Lookup(HandWritten(s, n), f.id.file))
  }

  lemma HandDropIsEdit(s: State, u: nat)
    requires u in s.flushes && s.flushes[u].part.Some? && s.flushes[u].id.file in s.files
    ensures HandDrop(s, u) ==
      Edited(s, HandDropEdit(s, u), false, {u}, 0).(
        notes := s.notes[u := Note(s.flushes[u].id, s.flushes[u].data, s.flushes[u].part.value)])
  {
    var id := s.flushes[u].id;
    hide WithBlock;
    PutSame(s.blockFile, id);
    PutSame(s.parts, id.file);
    PutSame(s.partFile, id.file);
    assert s.files[id.file := FileOf(s, id.file)] == s.files;
  }

  lemma HandDropReal(s: State, t: Truth, u: nat)
    requires u in s.flushes && s.flushes[u].part.Some? && s.flushes[u].id in s.blocks
    requires KeyOk(s, t, s.flushes[u].id.file) && s.flushes[u].data == BlockTruth(s.cfg, t, s.flushes[u].id)
    requires WholeLayout(s.cfg, |t(s.flushes[u].id.file)|)
    ensures Real(s, t, HandDropEdit(s, u))
  {
    hide BlockOk, PartOk, PresenceOk, HandWritten, BlockTruth, PiecesKept;
    var id := s.flushes[u].id;
    assert BlockAt(s, t, id) && PresentAt(s, t, id.file);
    if id.file in s.parts {
      assert PartAt(s, t, id.file);
      WrittenOk(s, t, Note(id, s.flushes[u].data, s.flushes[u].part.value));
    }
  }

  /** What is written is real, and hides nothing that was. */
  lemma WrittenOk(s: State, t: Truth, n: Note)
    requires n.id.file in s.parts && PartAt(s, t, n.id.file) && n.id.index < BlockTotal(s.cfg, t, n.id.file)
    requires n.data == BlockTruth(s.cfg, t, n.id)
    ensures var k, file := n.id.file, Lookup(HandWritten(s, n), n.id.file);
      && PartOk(s.cfg, s.parts[k], file, t(k)) && PiecesKept(s.cfg.blockSize, Lookup(s.partFile, k), file, t(k))
      && (Live(s, n) ==> file.Some? && Piece(file.value, s.cfg.blockSize, n.id.index) == n.data)
  {
    hide WithBlock, PieceCount, Piece;
    var k := n.id.file;
    FilledOk(s.cfg, s.parts[k], s.partFile[k], t(k), n.id.index, 0);
    FilledKeeps(s.cfg, s.partFile[k], t(k), n.id.index);
  }

  lemma HandDropKeeps(s: State, t: Truth, u: nat)
    requires Inv(s, t) && u in s.flushes && s.flushes[u].sparse && s.flushes[u].part.Some? && Owns(s, u)
    ensures Inv(HandDrop(s, u), t)
  {
    hide KeyOk, TagsInv, WholeInv, FlushInv, InstallInv, LockOk, Real, Edited, BlockOk, PartOk, HandDrop,
         GrowthShrinks, EntryMoves, SourceMoves;
    var f, e := s.flushes[u], HandDropEdit(s, u);
    OwnsExactly(s, u);
    FlushIsReal(s, t, u);
    assert SparseAt(s.cfg, t, f);
    HandDropIsEdit(s, u);
    HandDropReal(s, t, u);
    HandDropMoves(s, u);
    if s.lock.Asking? { FlushGrowth(s, e, false, u, s.lock.req); }
    EditUnderLock(s, t, e, false, {u}, 0);
    EditFields(s, e, false, {u}, 0);
    SameHands(Edited(s, e, false, {u}, 0));
    HandDropNoted(s, t, u);
    HandsOnly(Edited(s, e, false, {u}, 0), HandDrop(s, u), t);
  }

  lemma HandDropNoted(s: State, t: Truth, u: nat)
    requires Inv(s, t) && u in s.flushes && s.flushes[u].part.Some? && Owns(s, u)
    requires var f := s.flushes[u]; f.data == BlockTruth(s.cfg, t, f.id) && WholeLayout(s.cfg, |t(f.id.file)|)
    ensures NotesKept(Edited(s, HandDropEdit(s, u), false, {u}, 0), HandDrop(s, u), t)
  {
    hide KeysInv, TagsInv, WholeInv, FlushInv, InstallInv, LockOk, HandWritten, WholeLayout, BlockTruth, Piece, Gone;
    var f, s' := s.flushes[u], HandDrop(s, u);
    var n := Note(f.id, f.data, f.part.value);
    HandDropGone(s, u);
    assert FoundBefore(s, f);
    assert f.id.index < BlockTotal(s.cfg, t, f.id.file) by { BlockOf(s, t, f.id); }
    if Live(s, n) {
      PartOf(s, t, f.id.file);
      WrittenOk(s, t, n);
    }
    assert Landed(s', n);
  }

  lemma BlockOf(s: State, t: Truth, id: BlockId)
    requires KeysInv(s, t) && id in s.blocks
    ensures BlockAt(s, t, id)
  {
    assert KeyOk(s, t, id.file);
  }

  lemma HandDropGone(s: State, u: nat)
    requires TagsInv(s) && FlushInv(s) && u in s.flushes && s.flushes[u].part.Some? && Owns(s, u)
    ensures Gone(HandDrop(s, u), u)
  {
    assert FlushAt(s, u);
  }

  lemma HandDropMoves(s: State, u: nat)
    requires u in s.flushes && s.flushes[u].part.Some? && Owns(s, u)
    ensures var e := HandDropEdit(s, u);
      && EntryMoves(s, e, false, {u}, 0) && SourceMoves(s, e) && PartMoves(s, e, 0)
      && e.file.holds == FileOf(s, e.id.file).holds
  {
    hide HandWritten;
  }

  lemma SameHands(s: State)
    ensures FlushesKept(s, s)
  {
  }

  // notePartBlock.

  /** Writing a block that is there changes nothing. */
  lemma WrittenAgain(c: Config, file: Bytes, i: nat)
    requires c.blockSize > 0 && i < PieceCount(c.blockSize, |file|)
    ensures WithBlock(c, file, i, Piece(file, c.blockSize, i)) == file
  {
    PieceInRange(c.blockSize, i, |file|);
    hide PieceCount;
    assert Sized(file, |file|) == file;
  }

  /** The bytes are there already: noting the block is filling the sparse file with it. */
  lemma NoteFills(s: State, t: Truth, u: nat, now: int)
    requires Inv(s, t) && u in s.notes && Live(s, s.notes[u])
    ensures var n := s.notes[u];
      HandNote(s, u, now) ==
        FillPart(s.(notes := s.notes - {u}), n.id.file, s.parts[n.id.file].size, n.id.index, n.data, now)
  {
    hide KeysInv, TagsInv, WholeInv, FlushInv, InstallInv, LockOk, WithBlock, PieceCount, Piece;
    var n := s.notes[u];
    var k := n.id.file;
    LivePart(s, t, n);
    assert PartAt(s, t, k) by { PartOf(s, t, k); }
    assert NoteAt(s.cfg, t, n) && Landed(s, n);
    WrittenAgain(s.cfg, s.partFile[k], n.id.index);
    assert s.partFile[k := s.partFile[k]] == s.partFile;
  }

  lemma PartOf(s: State, t: Truth, k: FileKey)
    requires KeysInv(s, t) && k in s.parts
    ensures PartAt(s, t, k)
  {
    assert KeyOk(s, t, k);
  }

  lemma HandNoteIs(s: State, t: Truth, u: nat, now: int)
    requires Inv(s, t) && u in s.notes && s.notes[u].id.file in s.files && Live(s, s.notes[u])
    ensures var n, s1 := s.notes[u], s.(notes := s.notes - {u});
      var k := n.id.file;
      HandNote(s, u, now) ==
        Edited(s1, FillEdit(s1, n.id, n.data, s.parts[k].size, FileOf(s, k).holds, false, false, now), false, {}, 1)
  {
    hide Inv, WithBlock, PartBefore, HandNote;
    NoteFills(s, t, u, now);
    var id, s1 := s.notes[u].id, s.(notes := s.notes - {u});
    PutSame(s1.blocks, id);
    PutSame(s1.blockFile, id);
    assert s1.flushes - {} == s1.flushes;
  }

  lemma NoteGrowth(s: State, n: Note, size: nat, holds: set<nat>, now: int, r: Request)
    requires n.id.file in s.parts
    ensures GrowthShrinks(s, Edited(s, FillEdit(s, n.id, n.data, size, holds, false, false, now), false, {}, 1), r)
  {
    hide Covered, PieceCount, PieceLen, WithBlock;
    var s' := Edited(s, FillEdit(s, n.id, n.data, size, holds, false, false, now), false, {}, 1);
    assert s'.blocks == s.blocks by { PutSame(s.blocks, n.id); }
    assert s'.flushes == s.flushes;
    if r.RangeReq? {
      assert Missing(s'.cfg, s'.blocks, r.id, r.off, r.n) == Missing(s.cfg, s.blocks, r.id, r.off, r.n);
    }
  }

  lemma NoteOver(s: State, t: Truth, u: nat)
    requires Inv(s, t) && u in s.notes
    ensures Inv(s.(notes := s.notes - {u}), t)
  {
    hide Inv, NoteAt;
    SameHands(s);
    NotesGone(s, t, u);
    HandsOnly(s, s.(notes := s.notes - {u}), t);
  }

  lemma NotesGone(s: State, t: Truth, u: nat)
    ensures NotesKept(s, s.(notes := s.notes - {u}), t) && FlushesKept(s, s.(notes := s.notes - {u}))
  {
    hide NoteAt;
  }

  lemma LivePart(s: State, t: Truth, n: Note)
    requires Inv(s, t) && Live(s, n)
    ensures KeyOk(s, t, n.id.file) && SizeKnown(s, t, n.id.file) && s.parts[n.id.file].size == |t(n.id.file)|
  {
    hide TagsInv, WholeInv, FlushInv, InstallInv, LockOk, BlockOk;
    assert KeyOk(s, t, n.id.file) && PartAt(s, t, n.id.file);
  }

  lemma HandNoteKeeps(s: State, t: Truth, u: nat, now: int)
    requires Inv(s, t) && u in s.notes
    ensures Inv(HandNote(s, u, now), t)
  {
    hide KeyOk, TagsInv, WholeInv, FlushInv, InstallInv, LockOk, Real, Edited, FillEdit, GrowthShrinks, EntryMoves,
         SourceMoves, HandNote, FillPart;
    var n, s1 := s.notes[u], s.(notes := s.notes - {u});
    assert NoteAt(s.cfg, t, n);
    NoteOver(s, t, u);
    if Live(s, n) {
      LivePart(s1, t, n);
      HandNoteIs(s, t, u, now);
      var size, holds := s.parts[n.id.file].size, FileOf(s, n.id.file).holds;
      FillReal(s1, t, n.id, n.data, size, holds, false, false, now);
      FillMoves(s1, n.id, n.data, size, holds, false, false, now, false, {});
      if s1.lock.Asking? { NoteGrowth(s1, n, size, holds, now, s1.lock.req); }
      EditUnderLock(s1, t, FillEdit(s1, n.id, n.data, size, holds, false, false, now), false, {}, 1);
    } else {
      NotNoted(s, u, now);
    }
  }

  lemma NotNoted(s: State, u: nat, now: int)
    requires u in s.notes && !Live(s, s.notes[u])
    ensures HandNote(s, u, now) == s.(notes := s.notes - {u})
  {
  }
}
