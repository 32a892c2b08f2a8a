/** Asking for admission keeps the invariant, and what is asked for covers what the
    commit will add. */
module CacheKeepsAsks {

  import opened Bitmap
  import opened Geometry
  import opened Ranges
  import opened CacheModel
  import opened CacheInvariant
  import opened CacheSteps
  import opened CacheFrames
  import opened CacheEdits
  import opened CacheKeepsCalls

  /** blockRoom and its siblings ask for exactly what the commit adds, or for nothing when
      it adds less than nothing. Two requests ask for something else: a pinned link for
      nothing, and a block the sparse file has already for all of it. */
  lemma RoomIsGrowth(s: State, r: Request)
    requires r.RangeReq? ==> Aligned(s.cfg.subSize, r.off, r.n, BlockLen(s.cfg, r.id.index, r.size))
    requires !(r.LinkReq? && r.pinned && r.inode !in s.objects)
    requires !(r.PartReq? && r.id.file in s.parts && r.id.index in s.parts[r.id.file].bits)
    ensures Room(s, r) == (if GrowthBytes(s, r) > 0 then GrowthBytes(s, r) else 0, GrowthEntries(s, r))
  {
    hide Covered, Aligned, PieceLen, PieceCount;
    if r.RangeReq? && r.id !in s.blocks {
      RangeRoomIsGrowth(s, r);
    }
  }

  lemma RangeRoomIsGrowth(s: State, r: Request)
    requires r.RangeReq? && r.id !in s.blocks
    requires Aligned(s.cfg.subSize, r.off, r.n, BlockLen(s.cfg, r.id.index, r.size))
    ensures GrowthBytes(s, r) == r.n
  {
    hide Covered, BlockLen;
    var L, sub, miss := BlockLen(s.cfg, r.id.index, r.size), s.cfg.subSize,
      Missing(s.cfg, s.blocks, r.id, r.off, r.n);
    var m := PieceCount(sub, L);
    forall i: nat ensures i in miss <==> Named(sub, r.off, r.n, i) {}
    NamedBytes(sub, r.off, r.n, L, miss, m);
    PieceInRange(sub, m, L);
  }

  /** So never for less than the commit adds, except for a pinned link. */
  lemma RoomCovers(s: State, r: Request)
    requires r.RangeReq? ==> Aligned(s.cfg.subSize, r.off, r.n, BlockLen(s.cfg, r.id.index, r.size))
    ensures !(r.LinkReq? && r.pinned && r.inode !in s.objects) ==>
      GrowthBytes(s, r) <= Room(s, r).0 && GrowthEntries(s, r) <= Room(s, r).1
  {
    hide Covered, Aligned, PieceLen, PieceCount;
    if r.PartReq? && r.id.file in s.parts && r.id.index in s.parts[r.id.file].bits {
    } else if !(r.LinkReq? && r.pinned && r.inode !in s.objects) {
      RoomIsGrowth(s, r);
    }
  }

  lemma AskedKeeps(s: State, t: Truth, r: Request)
    requires Inv(s, t) && RequestOk(s, t, r)
    ensures Inv(Asked(s, r), t)
  {
    hide KeysInv, TagsInv, WholeInv, FlushInv, InstallInv, InstallOk, Covered, Aligned, PieceCount, Piece;
    var l := Asked(s, r).lock;
    RequestApart(s, t, r, l);
    RoomCovers(s, r);
    GrowthApart(s, r, l);
    LockApart(s, t, l);
  }

  lemma GrowthApart(s: State, r: Request, l: Lock)
    ensures GrowthBytes(s.(lock := l), r) == GrowthBytes(s, r) && GrowthEntries(s.(lock := l), r) == GrowthEntries(s, r)
  {
    hide Covered, PieceCount, PieceLen;
    if r.RangeReq? {
      assert Missing(s.cfg, s.(lock := l).blocks, r.id, r.off, r.n) == Missing(s.cfg, s.blocks, r.id, r.off, r.n);
    }
  }

  // The file is held while it is filled, hydrated or replaced.

  lemma HoldKeeps(s: State, t: Truth, k: FileKey, size: nat)
    requires Inv(s, t) && s.lock.Free? && k in s.files && (size == s.files[k].size || size == |t(k)|)
    ensures Inv(Hold(SetFile(s, k, FileOf(s, k).(size := size)), k), t)
  {
    hide KeysInv, TagsInv, WholeInv, FlushInv, InstallInv, LockOk;
    var f := s.files[k].(size := size);
    RecordKeeps(s, t, k, f.(holds := f.holds + {s.nextTag}), 1);
    assert s.files[k := f][k := f.(holds := f.holds + {s.nextTag})] == s.files[k := f.(holds := f.holds + {s.nextTag})];
    assert Hold(SetFile(s, k, f), k) ==
      s.(files := s.files[k := f.(holds := f.holds + {s.nextTag})], nextTag := s.nextTag + 1, lock := Free);
  }

  lemma HoldIs(s: State, k: FileKey)
    requires k in s.files
    ensures Hold(SetFile(s, k, FileOf(s, k).(size := s.files[k].size)), k) == Hold(s, k)
  {
    assert s.files[k := FileOf(s, k)] == s.files;
  }

  /** Tags of installs in flight are used up. */
  lemma FreshToken(s: State, t: Truth, k: FileKey)
    requires Inv(s, t)
    ensures s.nextTag !in s.installs && (k in s.files ==> s.files[k].tag < s.nextTag)
  {
    hide TagsInv, WholeInv, FlushInv, LockOk, BlockOk, PartOk, SourceOk;
    assert KeyOk(s, t, k);
    assert s.nextTag in s.installs ==> InstallOk(s, t, s.nextTag, s.installs[s.nextTag]);
  }

  lemma AskPartKeeps(s: State, t: Truth, id: BlockId, n: nat, size: nat)
    requires Inv(s, t) && s.lock.Free? && size == |t(id.file)| && n == BlockLen(s.cfg, id.index, size) && n > 0
    ensures var s1 := Known(s, id.file);
      var s2 := Hold(SetFile(s1, id.file, FileOf(s1, id.file).(size := size)), id.file);
      Inv(Asked(s2, PartReq(id, n, size, s1.nextTag, FileOf(s1, id.file).tag)), t)
  {
    hide Inv, Known, Asked;
    KnownStays(s, t, id.file);
    var s1 := Known(s, id.file);
    KnownFields(s, id.file);
    HoldKeeps(s1, t, id.file, size);
    var s2 := Hold(SetFile(s1, id.file, FileOf(s1, id.file).(size := size)), id.file);
    FreshToken(s1, t, id.file);
    PieceInRange(s.cfg.blockSize, id.index, size);
    AskedKeeps(s2, t, PartReq(id, n, size, s1.nextTag, FileOf(s1, id.file).tag));
  }

  /** Files that are not kept in sparse ones claim no block that is nowhere. */
  lemma BlocksAreBacked(s: State, t: Truth, k: FileKey)
    requires Inv(s, t) && k in s.files && !WholeLayout(s.cfg, s.files[k].size)
    ensures AllBacked(s, k)
  {
    hide TagsInv, WholeInv, FlushInv, InstallInv, LockOk, BlockOk, PartOk;
    assert KeyOk(s, t, k) && PresentAt(s, t, k);
  }

  /** A complete file with nothing in memory is ready to be merged. */
  lemma HydrateSource(s: State, t: Truth, k: FileKey)
    requires Inv(s, t) && AllBacked(s, k)
    requires k in s.files && k !in s.parts && !AnyInMemory(s, k) && s.files[k].size > 0
    requires |s.files[k].present| == PieceCount(s.cfg.blockSize, s.files[k].size)
    ensures SourceOk(s, t, k) && s.files[k].size == |t(k)|
  {
    hide TagsInv, WholeInv, FlushInv, InstallInv, LockOk, BlockOk, PartOk;
    assert KeyOk(s, t, k) && PresentAt(s, t, k);
    var present, n := s.files[k].present, BlockTotal(s.cfg, t, k);
    assert present != {};
    FullMeansAll(present, n);
    forall j | 0 <= j < n ensures BlockId(k, j) in s.blocks && s.blocks[BlockId(k, j)].bits.None? &&
      s.blocks[BlockId(k, j)].mem.None? {
      assert j in present && Backed(s, k, j);
    }
  }

  lemma HeldSource(s: State, s': State, t: Truth, k: FileKey)
    requires SourceOk(s, t, k) && s'.blocks == s.blocks && s'.cfg == s.cfg
    ensures SourceOk(s', t, k)
  {
  }

  lemma AskHydrateKeeps(s: State, t: Truth, k: FileKey)
    requires Inv(s, t) && AllBacked(s, k)
    requires s.lock.Free? && k in s.files && k !in s.parts && !AnyInMemory(s, k) && s.files[k].size > 0
    requires s.files[k].holds == {} && |s.files[k].present| == PieceCount(s.cfg.blockSize, s.files[k].size)
    ensures Inv(Asked(Hold(s, k), InstallReq(s.nextTag, NewInstall(s, k, true, s.files[k].size))), t)
  {
    hide Inv, Asked, SourceOk, PieceCount, AnyInMemory, AllBacked;
    HydrateSource(s, t, k);
    HoldKeeps(s, t, k, s.files[k].size);
    HoldIs(s, k);
    FreshToken(s, t, k);
    HeldSource(s, Hold(s, k), t, k);
    var i := NewInstall(s, k, true, s.files[k].size);
    assert Copied(s.cfg, i, t(k));
    AskedKeeps(Hold(s, k), t, InstallReq(s.nextTag, i));
  }

  lemma AskPutWholeKeeps(s: State, t: Truth, k: FileKey, size: nat)
    requires Inv(s, t) && s.lock.Free? && size == |t(k)|
    ensures var s1 := Known(s, k); Inv(Asked(Hold(s1, k), InstallReq(s1.nextTag, NewInstall(s1, k, false, size))), t)
  {
    hide Inv, Known, Asked;
    KnownStays(s, t, k);
    KnownFields(s, k);
    var s1 := Known(s, k);
    HoldKeeps(s1, t, k, s1.files[k].size);
    HoldIs(s1, k);
    FreshToken(s1, t, k);
    AskedKeeps(Hold(s1, k), t, InstallReq(s1.nextTag, NewInstall(s1, k, false, size)));
  }
}
