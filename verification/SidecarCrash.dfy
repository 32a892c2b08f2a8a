/** One block on disk: its file and the sidecar that says which sub-blocks of the file
    are real. A block file without a sidecar is read as a whole block, so the claim is
    on disk before the first byte and goes after the last. */
module SidecarCrash {

  import opened Common
  import opened Bitmap
  import opened Geometry

  datatype Disk = Disk(file: Option<Bytes>, sidecar: Option<set<nat>>)

  /** What the index knows: a whole block, perhaps only in memory, or the sub-blocks
      there are, those still in memory, and whether a sidecar is known to exist. */
  datatype Entry = Whole(inMemory: bool) | Partial(bits: set<nat>, subs: set<nat>, sidecarOn: bool)

  predicate RealSub(sub: nat, T: Bytes, file: Bytes, i: nat) {
    Piece(file, sub, i) == Piece(T, sub, i)
  }

  /** Reload invents nothing: a file without a sidecar is the block, and what a sidecar
      claims is in the file. */
  ghost predicate Safe(sub: nat, T: Bytes, d: Disk) {
    d.file.Some? ==>
      if d.sidecar.None? then d.file.value == T
      else forall i :: i in d.sidecar.value ==> RealSub(sub, T, d.file.value, i)
  }

  /** No file is longer than the block and no claim is about more than its sub-blocks. */
  ghost predicate Shaped(sub: nat, T: Bytes, d: Disk) {
    && sub > 0 && (d.file.Some? ==> |d.file.value| <= |T|)
    && (d.sidecar.Some? ==> d.sidecar.value <= Range(PieceCount(sub, |T|)))
  }

  /** What reload makes of the block: None, the whole block, or the claimed sub-blocks. */
  function Reloaded(d: Disk): Option<Entry> {
    if d.file.None? then None
    else if d.sidecar.Some? then Some(Partial(d.sidecar.value, {}, true))
    else Some(Whole(false))
  }

  /** Byte b lies in one of the sub-blocks. */
  predicate Served(sub: nat, bits: set<nat>, b: nat)
    requires sub > 0
  {
    b / sub in bits
  }

  /** A read of [off, off+n) of the reloaded block is a hit. */
  ghost predicate Hit(sub: nat, T: Bytes, d: Disk, off: nat, n: nat)
    requires sub > 0
  {
    match Reloaded(d)
    case None => false
    case Some(Whole(_)) => true
    case Some(Partial(bits, _, _)) =>
      n > 0 && off + n <= |T| && forall b :: off <= b < off + n ==> Served(sub, bits, b)
  }

  /** Every hit on the reloaded block returns its real bytes. */
  ghost predicate ServesTheTruth(sub: nat, T: Bytes, d: Disk)
    requires sub > 0
  {
    d.file.Some? ==> forall off, n :: Hit(sub, T, d, off, n) ==> Cut(d.file.value, off, n) == Cut(T, off, n)
  }

  lemma ServedByte(sub: nat, T: Bytes, file: Bytes, bits: set<nat>, b: nat)
    requires sub > 0 && b < |T| && Served(sub, bits, b) && forall i :: i in bits ==> RealSub(sub, T, file, i)
    ensures b < |file| && file[b] == T[b]
  {
    hide Piece, PieceLen;
    var i := b / sub;
    assert RealSub(sub, T, file, i);
    ByteInPiece(T, sub, b);
    PieceWithin(file, sub, i, b - i * sub);
    ByteInPiece(file, sub, b);
  }

  /** A byte of a piece is a byte of the file. */
  lemma PieceWithin(file: Bytes, unit: nat, i: nat, x: nat)
    requires x < |Piece(file, unit, i)|
    ensures i * unit + x < |file|
  {
  }

  lemma HitIsReal(sub: nat, T: Bytes, d: Disk, off: nat, n: nat)
    requires sub > 0 && Safe(sub, T, d) && d.file.Some? && Hit(sub, T, d, off, n)
    ensures Cut(d.file.value, off, n) == Cut(T, off, n)
  {
    hide Piece, Served, RealSub;
    if d.sidecar.Some? {
      var file, bits := d.file.value, d.sidecar.value;
      forall b | off <= b < off + n ensures b < |file| && file[b] == T[b] {
        assert Served(sub, bits, b);
        ServedByte(sub, T, file, bits, b);
      }
      assert Served(sub, bits, off + n - 1);
      ServedByte(sub, T, file, bits, off + n - 1);
      assert file[off..off + n] == T[off..off + n];
    }
  }

  lemma ClaimIsHit(sub: nat, T: Bytes, d: Disk, i: nat)
    requires Shaped(sub, T, d) && d.file.Some? && d.sidecar.Some? && i in d.sidecar.value
    ensures Hit(sub, T, d, i * sub, PieceLen(sub, i, |T|))
  {
    PieceInRange(sub, i, |T|);
    forall b | i * sub <= b < i * sub + PieceLen(sub, i, |T|) ensures Served(sub, d.sidecar.value, b) {
      assert (i + 1) * sub == i * sub + sub;
      DivUnique(b, i, sub);
    }
  }

  lemma RealClaim(sub: nat, T: Bytes, d: Disk, i: nat)
    requires Shaped(sub, T, d) && d.file.Some? && d.sidecar.Some? && i in d.sidecar.value && ServesTheTruth(sub, T, d)
    ensures RealSub(sub, T, d.file.value, i)
  {
    ClaimIsHit(sub, T, d, i);
    var at, p := i * sub, PieceLen(sub, i, |T|);
    assert Cut(d.file.value, at, p) == Cut(T, at, p);
  }

  /** A crash in a safe state, and in no other, is followed by a reload that serves only
      the block's real bytes. */
  lemma ReloadServesTheTruth(sub: nat, T: Bytes, d: Disk)
    requires Shaped(sub, T, d)
    ensures Safe(sub, T, d) <==> ServesTheTruth(sub, T, d)
  {
    hide Hit, RealSub;
    if Safe(sub, T, d) {
      forall off, n | d.file.Some? && Hit(sub, T, d, off, n) ensures Cut(d.file.value, off, n) == Cut(T, off, n) {
        HitIsReal(sub, T, d, off, n);
      }
    }
    if ServesTheTruth(sub, T, d) { TruthIsSafe(sub, T, d); }
  }

  lemma TruthIsSafe(sub: nat, T: Bytes, d: Disk)
    requires Shaped(sub, T, d) && ServesTheTruth(sub, T, d)
    ensures Safe(sub, T, d)
  {
    hide Hit, RealSub;
    if d.file.Some? && d.sidecar.None? {
      WholeIsHit(sub, T, d);
      assert Cut(d.file.value, 0, |T|) == d.file.value && Cut(T, 0, |T|) == T;
    } else if d.file.Some? {
      forall i | i in d.sidecar.value ensures RealSub(sub, T, d.file.value, i) { RealClaim(sub, T, d, i); }
    }
  }

  lemma WholeIsHit(sub: nat, T: Bytes, d: Disk)
    requires sub > 0 && d.file.Some? && d.sidecar.None?
    ensures Hit(sub, T, d, 0, |T|)
  {
  }
}
