/** When a read is a hit: exactly when some form of the block covers the range. What has
    been stored is found, and moving bytes from one form to another never hides them. */
module CacheHits {

  import opened Common
  import opened Geometry
  import opened CacheModel
  import opened CacheInvariant
  import opened CacheReads

  /** The sparse file has the block. */
  predicate InSparse(s: State, k: FileKey, idx: nat) {
    k in s.parts && idx in s.parts[k].bits
  }

  /** The range is there: in the sparse file; in a whole entry, or in a partial one that has
      every sub-block of it; or, without either, in a complete file. */
  predicate Held(s: State, k: FileKey, idx: nat, off: nat, n: nat) {
    var id := BlockId(k, idx);
    || InSparse(s, k, idx)
    || (id in s.blocks &&
        (s.blocks[id].bits.None? || forall x :: off <= x < off + n ==> x / s.cfg.subSize in s.blocks[id].bits.value))
    || (id !in s.blocks && k in s.files && s.files[k].whole.Some?)
  }

  /** Sub-block i of the block is there. */
  predicate Covers(s: State, k: FileKey, idx: nat, i: nat) {
    var id := BlockId(k, idx);
    || InSparse(s, k, idx)
    || (id in s.blocks && (s.blocks[id].bits.None? || i in s.blocks[id].bits.value))
    || (id !in s.blocks && k in s.files && s.files[k].whole.Some?)
  }

  /** A range is there when its sub-blocks are. */
  lemma HeldIsCovered(s: State, k: FileKey, idx: nat, off: nat, n: nat)
    requires n > 0
    ensures Held(s, k, idx, off, n) <==> forall x :: off <= x < off + n ==> Covers(s, k, idx, x / s.cfg.subSize)
  {
    if forall x :: off <= x < off + n ==> Covers(s, k, idx, x / s.cfg.subSize) {
      assert off <= off < off + n && Covers(s, k, idx, off / s.cfg.subSize);
      forall x | off <= x < off + n && BlockId(k, idx) in s.blocks && s.blocks[BlockId(k, idx)].bits.Some?
        ensures InSparse(s, k, idx) || x / s.cfg.subSize in s.blocks[BlockId(k, idx)].bits.value
      {
        assert Covers(s, k, idx, x / s.cfg.subSize);
      }
    }
  }

  /** In every state the invariant describes, a read of any range of a block is a hit, with
      the real bytes, exactly when the range is there; otherwise it is a miss. */
  lemma HitsExactly(s: State, t: Truth, k: FileKey, idx: nat, off: nat, n: nat)
    requires Inv(s, t) && n > 0 && off + n <= |BlockTruth(s.cfg, t, BlockId(k, idx))|
    ensures ReadAt(s, k, idx, off, n) ==
      if Held(s, k, idx, off, n) then Some(Cut(BlockTruth(s.cfg, t, BlockId(k, idx)), off, n)) else None
  {
    hide Inv, Held, ReadAt, BlockTruth, Cut;
    HitsAreReal(s, t, k, idx, off, n);
    if Held(s, k, idx, off, n) { HeldIsHit(s, t, k, idx, off, n); } else { UnheldIsMiss(s, k, idx, off, n); }
  }

  lemma UnheldIsMiss(s: State, k: FileKey, idx: nat, off: nat, n: nat)
    requires n > 0 && !Held(s, k, idx, off, n)
    ensures ReadAt(s, k, idx, off, n) == None
  {
  }

  lemma HeldIsHit(s: State, t: Truth, k: FileKey, idx: nat, off: nat, n: nat)
    requires Inv(s, t) && n > 0 && off + n <= |BlockTruth(s.cfg, t, BlockId(k, idx))| && Held(s, k, idx, off, n)
    ensures ReadAt(s, k, idx, off, n).Some?
  {
    hide TagsInv, FlushInv, InstallInv, HandInv, LockOk, ReadBlock, BlockTruth;
    HeldIsLocated(s, t, k, idx, off, n);
    LocatedLength(s, t, k, idx, off, n);
    FetchSucceeds(s, t, k, idx, off, n);
  }

  lemma HeldIsLocated(s: State, t: Truth, k: FileKey, idx: nat, off: nat, n: nat)
    requires KeysInv(s, t) && WholeInv(s, t) && n > 0 && Held(s, k, idx, off, n)
    requires off + n <= |BlockTruth(s.cfg, t, BlockId(k, idx))|
    ensures Locate(s, k, idx, off, n).Some?
  {
    hide BlockOk, PartOk;
    assert KeyOk(s, t, k);
    if k in s.parts { assert PartAt(s, t, k); }
    if k in s.files { assert WholeAt(s, t, k); }
  }

  lemma FetchSucceeds(s: State, t: Truth, k: FileKey, idx: nat, off: nat, n: nat)
    requires KeysInv(s, t) && WholeInv(s, t) && n > 0 && Held(s, k, idx, off, n)
    ensures ReadBlock(s, k, idx, off, n).Some?
  {
    hide Overlay, Cut, BlockOk, BlockLen, BaseFile, PresentAt;
    assert KeyOk(s, t, k);
    var id := BlockId(k, idx);
    if InSparse(s, k, idx) {
      assert PartAt(s, t, k);
    } else if id in s.blocks {
      assert BlockAt(s, t, id);
      BlockIsSomewhere(s, t, id, off, n);
    } else {
      assert WholeAt(s, t, k);
    }
  }

  lemma BlockIsSomewhere(s: State, t: Truth, id: BlockId, off: nat, n: nat)
    requires id in s.blocks && BlockAt(s, t, id) && n > 0
    requires s.blocks[id].bits.Some? ==>
      forall x :: off <= x < off + n ==> x / s.cfg.subSize in s.blocks[id].bits.value
    ensures var b := s.blocks[id];
      if b.bits.Some? then
        && (id in s.blockFile || forall x :: off <= x < off + n ==> x / s.cfg.subSize in b.subs)
        && (b.subs == map[] ==> id in s.blockFile)
      else b.mem.Some? || id in s.blockFile
  {
    hide SubOk, Covered, BlockTruth;
    if s.blocks[id].bits.Some? {
      SubsSuffice(s, t, id, off, n);
      assert off <= off < off + n && (id in s.blockFile || off / s.cfg.subSize in s.blocks[id].subs);
    }
  }

  /** A partial block without a file has in memory all it has. */
  lemma SubsSuffice(s: State, t: Truth, id: BlockId, off: nat, n: nat)
    requires id in s.blocks && BlockAt(s, t, id) && s.blocks[id].bits.Some? && n > 0
    requires forall x :: off <= x < off + n ==> x / s.cfg.subSize in s.blocks[id].bits.value
    ensures id in s.blockFile || forall x :: off <= x < off + n ==> x / s.cfg.subSize in s.blocks[id].subs
  {
    hide Covered, Piece;
    if id !in s.blockFile {
      forall x | off <= x < off + n ensures x / s.cfg.subSize in s.blocks[id].subs {
        assert SubOk(s.cfg, s.blocks[id], None, BlockTruth(s.cfg, t, id), x / s.cfg.subSize);
      }
    }
  }
}
