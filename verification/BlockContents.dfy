/** What putting a range, flushing and promoting do to the contents of one block. */
module BlockContents {

  import opened Common
  import opened Bitmap
  import opened Geometry
  import opened Ranges
  import opened CacheModel
  import opened CacheInvariant

  /** The sub-blocks a range adds to an entry. */
  ghost predicate Adds(c: Config, b: Block, off: nat, n: nat, added: set<nat>) {
    forall i :: i in added <==> Named(c.subSize, off, n, i) && i !in BitsOf(b)
  }

  /** The bitmap tells which kind of entry it is. */
  lemma ByBits(c: Config, b: Block, file: Option<Bytes>, T: Bytes)
    requires BlockOk(c, b, file, T)
    ensures b.bits.None? ==> WholeOk(b, file, T)
    ensures b.bits.Some? ==> PartialOk(c, b, file, T)
  {
  }

  lemma EmptyPartial(c: Config, b: Block, file: Option<Bytes>, T: Bytes)
    requires b.bits == Some({}) && b.subs == map[] && b.mem.None? && b.size == 0
    ensures PartialOk(c, b, file, T)
  {
    NothingCovered(c.subSize, |T|, PieceCount(c.subSize, |T|));
  }

  /** A range kept in memory. */
  lemma ExtendedInMemory(c: Config, b: Block, file: Option<Bytes>, T: Bytes, off: nat, n: nat, added: set<nat>,
                         pinned: bool, now: int)
    requires PartialOk(c, b, file, T) && Aligned(c.subSize, off, n, |T|) && Adds(c, b, off, n, added)
    ensures PartialOk(c, Extended(c, b, added, off, Cut(T, off, n), |T|, true, pinned, now), file, T)
  {
    hide Covered, Piece, PieceLen, Aligned, Named, Cut;
    var b' := Extended(c, b, added, off, Cut(T, off, n), |T|, true, pinned, now);
    forall i | i in b'.bits.value ensures SubOk(c, b', file, T, i) && i < PieceCount(c.subSize, |T|) {
      if i in added {
        RangePiece(T, c.subSize, off, n, i);
        NamedInside(c.subSize, off, n, |T|, i);
      } else {
        assert SubOk(c, b, file, T, i);
      }
    }
  }

  /** A range written to the block file. */
  lemma ExtendedOnDisk(c: Config, b: Block, file: Option<Bytes>, T: Bytes, off: nat, n: nat, added: set<nat>,
                       pinned: bool, now: int)
    requires PartialOk(c, b, file, T) && Aligned(c.subSize, off, n, |T|) && Adds(c, b, off, n, added)
    ensures var base := Sized(if file.Some? then file.value else [], |T|);
      PartialOk(c, Extended(c, b, added, off, Cut(T, off, n), |T|, false, pinned, now),
                Some(WriteAt(base, off, Cut(T, off, n))), T)
  {
    hide Covered, Piece, PieceLen, Aligned, Named, Cut, WriteAt;
    var base := Sized(if file.Some? then file.value else [], |T|);
    var r := WriteAt(base, off, Cut(T, off, n));
    var b' := Extended(c, b, added, off, Cut(T, off, n), |T|, false, pinned, now);
    forall i | i in b'.bits.value ensures SubOk(c, b', Some(r), T, i) && i < PieceCount(c.subSize, |T|) {
      WriteRange(T, base, c.subSize, off, n, i);
      if i in b.bits.value { assert SubOk(c, b, file, T, i); }
      if Named(c.subSize, off, n, i) { NamedInside(c.subSize, off, n, |T|, i); }
      if file.Some? && |file.value| == |T| { assert base == file.value; }
    }
  }

  /** The sub-blocks in memory written to the block file. */
  lemma FlushedSubs(c: Config, b: Block, file: Option<Bytes>, T: Bytes)
    requires PartialOk(c, b, file, T)
    ensures var base := Sized(if file.Some? then file.value else [], |T|);
      PartialOk(c, b.(subs := map[]), Some(Overlay(base, b.subs, c.subSize)), T)
  {
    hide Covered, Piece, PieceLen, Overlay;
    var base := Sized(if file.Some? then file.value else [], |T|);
    forall i | i in b.bits.value ensures SubOk(c, b.(subs := map[]), Some(Overlay(base, b.subs, c.subSize)), T, i) {
      assert SubOk(c, b, file, T, i);
      if i !in b.subs { assert base == file.value; }
      OverlayPiece(base, b.subs, c.subSize, i);
    }
  }

  /** Promotion is sound when every sub-block is in the file. */
  lemma SettledOk(c: Config, open: nat, b: Block, file: Bytes, T: Bytes)
    requires PartialOk(c, b, Some(file), T) && |file| == |T|
    requires |b.bits.value| == PieceCount(c.subSize, |T|) ==>
      forall i :: i in b.subs ==> Piece(file, c.subSize, i) == Piece(T, c.subSize, i)
    ensures BlockOk(c, Settled(c, open, b, |T|), Some(file), T)
  {
    hide Piece;
    var n := PieceCount(c.subSize, |T|);
    if |b.bits.value| == n {
      FullMeansAll(b.bits.value, n);
      AllPiecesTile(c.subSize, |T|);
      forall i | 0 <= i < n ensures Piece(file, c.subSize, i) == Piece(T, c.subSize, i) {
        assert i in b.bits.value && SubOk(c, b, Some(file), T, i);
      }
      SamePiecesSameFile(file, T, c.subSize);
    } else {
      PartialStays(c, b, Some(file), T, Settled(c, open, b, |T|).open);
    }
  }

  lemma PartialStays(c: Config, b: Block, file: Option<Bytes>, T: Bytes, open: bool)
    requires PartialOk(c, b, file, T)
    ensures PartialOk(c, b.(open := open), file, T)
  {
    hide Piece, Covered;
    forall i | i in b.bits.value ensures SubOk(c, b.(open := open), file, T, i) {
      assert SubOk(c, b, file, T, i);
    }
  }
}
