/** The cache agrees with the remote: every hit returns the file's real bytes. */
module CacheReads {

  import opened Common
  import opened Geometry
  import opened CacheModel
  import opened CacheInvariant

  /** A byte of a sub-block that is present is real in the overlay of memory over
      the block file. */
  lemma PresentByte(c: Config, b: Block, file: Option<Bytes>, T: Bytes, x: nat)
    requires PartialOk(c, b, file, T) && x < |T| && x / c.subSize in b.bits.value
    ensures Overlay(Sized(if file.Some? then file.value else [], |T|), b.subs, c.subSize)[x] == T[x]
    ensures b.subs == map[] ==> file.Some? && |file.value| == |T| && file.value[x] == T[x]
  {
    hide Overlay, Piece, PieceLen, Covered, PieceCount;
    var i, base := x / c.subSize, Sized(if file.Some? then file.value else [], |T|);
    assert SubOk(c, b, file, T, i);
    ByteInPiece(T, c.subSize, x);
    OverlayPiece(base, b.subs, c.subSize, i);
    ByteInPiece(Overlay(base, b.subs, c.subSize), c.subSize, x);
    if i !in b.subs {
      assert base == file.value;
      ByteInPiece(file.value, c.subSize, x);
    }
  }

  /** The bytes of a block's range, short only at the block's end. */
  lemma CutSame(a: Bytes, b: Bytes, off: nat, n: nat)
    requires |a| == |b| && forall x :: off <= x < off + n && x < |a| ==> a[x] == b[x]
    ensures Cut(a, off, n) == Cut(b, off, n)
  {
  }

  /** Every byte of [off, off+n) is in a present sub-block. */
  ghost predicate CoversRange(c: Config, bits: set<nat>, off: nat, n: nat) {
    forall x :: off <= x < off + n ==> x / c.subSize in bits
  }

  lemma PartialRead(c: Config, b: Block, file: Option<Bytes>, T: Bytes, off: nat, n: nat)
    requires PartialOk(c, b, file, T) && n > 0 && off + n <= |T| && CoversRange(c, b.bits.value, off, n)
    ensures Cut(Overlay(Sized(if file.Some? then file.value else [], |T|), b.subs, c.subSize), off, n) == Cut(T, off, n)
    ensures b.subs == map[] ==> file.Some? && Cut(file.value, off, n) == Cut(T, off, n)
  {
    var o := Overlay(Sized(if file.Some? then file.value else [], |T|), b.subs, c.subSize);
    forall x | off <= x < off + n
      ensures o[x] == T[x]
      ensures b.subs == map[] ==> file.Some? && |file.value| == |T| && file.value[x] == T[x]
    {
      assert x / c.subSize in b.bits.value;
      PresentByte(c, b, file, T, x);
    }
    CutSame(o, T, off, n);
    assert off / c.subSize in b.bits.value;
    PresentByte(c, b, file, T, off);
    if b.subs == map[] {
      CutSame(file.value, T, off, n);
    }
  }

  lemma BlockRead(s: State, t: Truth, k: FileKey, idx: nat, off: nat, n: nat)
    requires var id := BlockId(k, idx);
             && id in s.blocks && BlockAt(s, t, id) && n > 0 && off + n <= |BlockTruth(s.cfg, t, id)|
             && !(k in s.parts && idx in s.parts[k].bits)
             && (s.blocks[id].bits.Some? ==> CoversRange(s.cfg, s.blocks[id].bits.value, off, n))
    ensures var d := ReadBlock(s, k, idx, off, n);
            d.Some? ==> d.value == Cut(BlockTruth(s.cfg, t, BlockId(k, idx)), off, n)
  {
    var id := BlockId(k, idx);
    var b := s.blocks[id];
    var T := BlockTruth(s.cfg, t, id);
    if b.bits.Some? {
      PartialRead(s.cfg, b, Lookup(s.blockFile, id), T, off, n);
    }
    hide PartialOk, Overlay, Sized, Cut, Piece;
  }

  /** No byte of the range is in a sub-block that a partial entry lacks. */
  ghost predicate NothingMissing(s: State, k: FileKey, idx: nat, off: nat, n: nat) {
    var id := BlockId(k, idx);
    id in s.blocks && s.blocks[id].bits.Some? && !(k in s.parts && idx in s.parts[k].bits) ==>
      CoversRange(s.cfg, s.blocks[id].bits.value, off, n)
  }

  /** A read inside the block of a range it does not lack. */
  lemma LocatedRead(s: State, t: Truth, k: FileKey, idx: nat, off: nat, n: nat)
    requires KeysInv(s, t) && WholeInv(s, t)
    requires NothingMissing(s, k, idx, off, n) && n > 0 && off + n <= |BlockTruth(s.cfg, t, BlockId(k, idx))|
    ensures var d := ReadBlock(s, k, idx, off, n);
            d.Some? ==> d.value == Cut(BlockTruth(s.cfg, t, BlockId(k, idx)), off, n)
  {
    hide BlockOk, Cut, Piece;
    assert KeyOk(s, t, k);
    var id := BlockId(k, idx);
    if k in s.parts && idx in s.parts[k].bits {
      assert PartAt(s, t, k);
      CutOfPiece(s.partFile[k], s.cfg.blockSize, idx, off, n);
    } else if id in s.blocks {
      assert BlockAt(s, t, id);
      BlockRead(s, t, k, idx, off, n);
    } else if k in s.files {
      assert WholeAt(s, t, k);
      CutOfPiece(t(k), s.cfg.blockSize, idx, off, n);
    }
  }

  /** What Locate answers for is the real block length. */
  lemma LocatedLength(s: State, t: Truth, k: FileKey, idx: nat, off: nat, n: nat)
    requires KeysInv(s, t) && WholeInv(s, t) && Locate(s, k, idx, off, n).Some?
    ensures Locate(s, k, idx, off, n).value == |BlockTruth(s.cfg, t, BlockId(k, idx))|
  {
    hide Covered;
    assert KeyOk(s, t, k);
    var id := BlockId(k, idx);
    PieceInRange(s.cfg.blockSize, idx, |t(k)|);
    if k in s.parts && idx in s.parts[k].bits {
      assert PartAt(s, t, k);
    } else if id in s.blocks {
      assert BlockAt(s, t, id);
    } else {
      assert WholeAt(s, t, k);
    }
  }

  /** Covering a range covers any shorter one, so clipping a read stays located. */
  lemma LocateShorter(s: State, k: FileKey, idx: nat, off: nat, n: nat, m: nat)
    requires Locate(s, k, idx, off, n).Some? && m <= n
    ensures Locate(s, k, idx, off, m).Some?
  {
  }

  lemma LocatedHas(s: State, k: FileKey, idx: nat, off: nat, n: nat)
    requires Locate(s, k, idx, off, n).Some? && n > 0
    ensures NothingMissing(s, k, idx, off, n)
  {
  }

  /** In every state the invariant describes, whatever mix of block files, memory,
      partial blocks, sparse file and hydrated file holds the block, a ReadAt hit
      returns exactly the block's real bytes from `off`, n of them or up to its end. */
  lemma HitsAreReal(s: State, t: Truth, k: FileKey, idx: nat, off: nat, n: nat)
    requires Inv(s, t)
    ensures var d := ReadAt(s, k, idx, off, n);
            d.Some? ==> d.value == Cut(BlockTruth(s.cfg, t, BlockId(k, idx)), off, n)
  {
    hide KeysInv, WholeInv, Locate, ReadBlock, NothingMissing;
    var at := Locate(s, k, idx, off, n);
    if at.Some? {
      LocatedLength(s, t, k, idx, off, n);
      if off < at.value {
        var m := if n > at.value - off then at.value - off else n;
        LocateShorter(s, k, idx, off, n, m);
        if m > 0 {
          LocatedHas(s, k, idx, off, m);
          LocatedRead(s, t, k, idx, off, m);
        } else {
          EmptyRead(s, k, idx, off);
        }
      }
    }
  }

  lemma EmptyRead(s: State, k: FileKey, idx: nat, off: nat)
    ensures ReadBlock(s, k, idx, off, 0) == Some([])
  {
  }
}
