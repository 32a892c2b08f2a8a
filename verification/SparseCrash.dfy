/** The sparse file of one large file on disk, and what a crash can leave of it.
    Written data is volatile until it is synced; creating, renaming and removing files
    happens in order. A bitmap is written without a sync, so a crash may shorten it. */
module SparseCrash {

  import opened Common
  import opened Bitmap
  import opened Geometry

  /** The sparse file; `settled` are the blocks that a crash leaves as they are. */
  datatype PartFile = PartFile(content: Bytes, settled: set<nat>)

  /** What the bitmap file says. */
  datatype Claim = Claim(size: nat, bits: set<nat>)

  datatype Disk = Disk(part: Option<PartFile>, claim: Option<Claim>, published: Option<Bytes>)

  /** Block i of the file is the real one. */
  predicate RealBlock(unit: nat, T: Bytes, content: Bytes, i: nat) {
    Piece(content, unit, i) == Piece(T, unit, i)
  }

  /** Data before claim: every claimed block is real and settled, and a published file
      is the real content. */
  ghost predicate Ordered(unit: nat, T: Bytes, d: Disk)
    requires unit > 0
  {
    && (d.part.Some? && d.claim.Some? ==>
          d.claim.value.size == |T| && forall i :: i in d.claim.value.bits ==> ClaimOk(unit, T, d.part.value, i))
    && (d.published.Some? ==> d.published.value == T)
  }

  predicate ClaimOk(unit: nat, T: Bytes, p: PartFile, i: nat)
    requires unit > 0
  {
    i < PieceCount(unit, |T|) && i in p.settled && RealBlock(unit, T, p.content, i)
  }

  // Crash and reload.

  /** What is found after a crash: any bytes where data was not settled, and any part
      of the claim, or nothing readable of it. */
  datatype Wreck = Wreck(part: Option<Bytes>, claim: Option<Claim>, published: Option<Bytes>)

  ghost predicate Crashed(unit: nat, d: Disk, w: Wreck) {
    && w.published == d.published
    && (w.part.Some? <==> d.part.Some?)
    && (w.part.Some? ==> forall i :: i in d.part.value.settled ==>
        Piece(w.part.value, unit, i) == Piece(d.part.value.content, unit, i))
    && (w.claim.Some? ==>
        d.claim.Some? && w.claim.value.size == d.claim.value.size && w.claim.value.bits <= d.claim.value.bits)
  }

  /** adoptPart: a sparse file is kept when no complete file is there, its bitmap is
      readable and names blocks, and its length is the one the bitmap was written for. */
  predicate Kept(w: Wreck) {
    w.part.Some? && w.claim.Some? && w.published.None? && w.claim.value.size == |w.part.value| &&
      w.claim.value.bits != {}
  }

  /** reloadParts: a kept sparse file is mounted, or published when it is full; what is
      not kept is removed. */
  function Reloaded(unit: nat, w: Wreck): (d: Disk)
    requires unit > 0
  {
    if !Kept(w) then Disk(None, None, w.published)
    else if |w.claim.value.bits| == PieceCount(unit, w.claim.value.size) then Disk(None, None, w.part)
    else Disk(Some(PartFile(w.part.value, Range(PieceCount(unit, |w.part.value|)))), w.claim, None)
  }

  /** A crash after data-before-claim invents nothing: every block reloaded as present
      is real, and a file published on reload is complete. */
  lemma ReloadTellsTheTruth(unit: nat, T: Bytes, d: Disk, w: Wreck)
    requires unit > 0 && Ordered(unit, T, d) && Crashed(unit, d, w)
    ensures Ordered(unit, T, Reloaded(unit, w))
    ensures forall i :: Reloaded(unit, w).claim.Some? && i in Reloaded(unit, w).claim.value.bits ==>
      i in d.claim.value.bits
  {
    hide Piece, PieceCount;
    if Kept(w) {
      var bits, n := w.claim.value.bits, PieceCount(unit, |T|);
      forall i | i in bits ensures i < n && Piece(w.part.value, unit, i) == Piece(T, unit, i) {
        assert ClaimOk(unit, T, d.part.value, i);
      }
      if |bits| == n {
        FullMeansAll(bits, n);
        SamePiecesSameFile(w.part.value, T, unit);
      }
    }
  }

  /** And it loses nothing that was claimed: when a crash leaves everything as it was, a full
      sparse file is published and any other is mounted with every block of its claim. */
  lemma ReloadLosesNothing(unit: nat, T: Bytes, d: Disk, w: Wreck)
    requires unit > 0 && Ordered(unit, T, d) && d.published.None? && d.part.Some? && |d.part.value.content| == |T|
    requires d.claim.Some? && d.claim.value.size == |T| && d.claim.value.bits != {}
    requires w == Wreck(Some(d.part.value.content), d.claim, None)
    ensures Crashed(unit, d, w)
    ensures var r, bits := Reloaded(unit, w), d.claim.value.bits;
      if |bits| == PieceCount(unit, |T|) then r.part.None? && r.published == Some(d.part.value.content)
      else r.published.None? && r.claim == d.claim && r.part.Some? && r.part.value.content == d.part.value.content
  {
  }

  /** Every block of the wreck but i as it was written, and block i with its first byte
      changed. */
  function Spoilt(unit: nat, content: Bytes, i: nat): Bytes
    requires i * unit < |content|
  {
    content[i * unit := content[i * unit] ^ 1]
  }

  lemma SpoiltPieces(unit: nat, content: Bytes, i: nat, j: nat)
    requires unit > 0 && i * unit < |content|
    ensures Piece(Spoilt(unit, content, i), unit, i) != Piece(content, unit, i)
    ensures j != i ==> Piece(Spoilt(unit, content, i), unit, j) == Piece(content, unit, j)
  {
    var c := Spoilt(unit, content, i);
    assert Piece(c, unit, i)[0] != Piece(content, unit, i)[0] by {
      var b := content[i * unit];
      assert b ^ 1 != b;
    }
    if j < i { PiecesApart(unit, j, i); } else if j > i { PiecesApart(unit, i, j); }
  }

  /** And only then: with a claim on a block that is not settled, some crash makes
      reload serve a wrong block. */
  lemma UnsettledClaimInvents(unit: nat, T: Bytes, d: Disk, i: nat) returns (w: Wreck)
    requires unit > 0 && d.part.Some? && d.claim.Some? && d.published.None? &&
      |d.part.value.content| == |T| == d.claim.value.size
    requires i in d.claim.value.bits && i < PieceCount(unit, |T|) && i !in d.part.value.settled
    ensures Crashed(unit, d, w) && !Ordered(unit, T, Reloaded(unit, w))
  {
    PieceInRange(unit, i, |T|);
    var content := d.part.value.content;
    if RealBlock(unit, T, content, i) {
      w := Wreck(Some(Spoilt(unit, content, i)), d.claim, None);
      forall j | j in d.part.value.settled ensures Piece(w.part.value, unit, j) == Piece(content, unit, j) {
        SpoiltPieces(unit, content, i, j);
      }
      SpoiltPieces(unit, content, i, i);
    } else {
      w := Wreck(Some(content), d.claim, None);
    }
    WrongBlock(unit, T, w, i);
  }

  lemma WrongBlock(unit: nat, T: Bytes, w: Wreck, i: nat)
    requires unit > 0 && Kept(w) && i in w.claim.value.bits && !RealBlock(unit, T, w.part.value, i)
    ensures !Ordered(unit, T, Reloaded(unit, w))
  {
    hide Piece, PieceCount;
  }
}
