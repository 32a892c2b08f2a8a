/** How a file is cut into blocks and a block into sub-blocks: pieces of one unit
    each, the last one perhaps short. */
module Geometry {

  import opened Common
  import opened Bitmap

  /** The length of piece i of `size` bytes cut in units. */
  function PieceLen(unit: nat, i: nat, size: nat): nat {
    if i * unit + unit > size then (if size > i * unit then size - i * unit else 0) else unit
  }

  function PieceCount(unit: nat, size: nat): nat
    requires unit > 0
  {
    if size == 0 then 0 else (size - 1) / unit + 1
  }

  function Piece(data: Bytes, unit: nat, i: nat): (p: Bytes)
    ensures |p| == PieceLen(unit, i, |data|)
  {
    if i * unit >= |data| then [] else data[i * unit..i * unit + PieceLen(unit, i, |data|)]
  }

  /** A piece is in range exactly when it is not empty. */
  lemma PieceInRange(unit: nat, i: nat, size: nat)
    requires unit > 0
    ensures i < PieceCount(unit, size) <==> i * unit < size
    ensures i < PieceCount(unit, size) <==> PieceLen(unit, i, size) > 0
  {
    if size > 0 {
      var q := (size - 1) / unit;
      DivUnique(size - 1, q, unit);
      if i <= q {
        MulMonotone(i, q, unit);
      } else {
        MulMonotone(q + 1, i, unit);
      }
    }
  }

  /** Rounding up by (size + unit - 1) / unit counts the same pieces. */
  lemma CeilingCounts(unit: nat, size: nat)
    requires unit > 0
    ensures (size + unit - 1) / unit == PieceCount(unit, size)
  {
    if size > 0 {
      var q := (size - 1) / unit;
      DivUnique(size - 1, q, unit);
      assert (q + 1) * unit == q * unit + unit && (q + 2) * unit == (q + 1) * unit + unit;
      DivUnique(size + unit - 1, q + 1, unit);
    } else {
      DivUnique(unit - 1, 0, unit);
    }
  }

  /** Total length of the pieces below n that are in `bits`. */
  function Covered(unit: nat, size: nat, bits: set<nat>, n: nat): nat {
    if n == 0 then 0
    else Covered(unit, size, bits, n - 1) + (if n - 1 in bits then PieceLen(unit, n - 1, size) else 0)
  }

  lemma {:induction false} CoveredAdd(unit: nat, size: nat, bits: set<nat>, n: nat, i: nat)
    requires i !in bits
    ensures Covered(unit, size, bits + {i}, n) == Covered(unit, size, bits, n) +
      (if i < n then PieceLen(unit, i, size) else 0)
  {
    if n > 0 {
      CoveredAdd(unit, size, bits, n - 1, i);
    }
  }

  lemma {:induction false} CoveredUnion(unit: nat, size: nat, a: set<nat>, b: set<nat>, n: nat)
    requires a !! b
    ensures Covered(unit, size, a + b, n) == Covered(unit, size, a, n) + Covered(unit, size, b, n)
  {
    if n > 0 { CoveredUnion(unit, size, a, b, n - 1); }
  }

  /** The pieces tile the file: together they are as long as it is. */
  lemma {:induction false} PiecesTile(unit: nat, size: nat, bits: set<nat>, n: nat)
    requires forall i :: 0 <= i < n ==> i in bits
    ensures Covered(unit, size, bits, n) == if n * unit <= size then n * unit else size
  {
    if n > 0 {
      PiecesTile(unit, size, bits, n - 1);
      assert n * unit == (n - 1) * unit + unit;
    }
  }

  lemma AllPiecesTile(unit: nat, size: nat)
    requires unit > 0
    ensures Covered(unit, size, Range(PieceCount(unit, size)), PieceCount(unit, size)) == size
  {
    var n := PieceCount(unit, size);
    PiecesTile(unit, size, Range(n), n);
    PieceInRange(unit, n, size);
  }

  lemma {:induction false} NothingCovered(unit: nat, size: nat, n: nat)
    ensures Covered(unit, size, {}, n) == 0
  {
    if n > 0 { NothingCovered(unit, size, n - 1); }
  }

  /** Byte b of a file is byte b % unit of piece b / unit. */
  lemma ByteInPiece(data: Bytes, unit: nat, b: nat)
    requires unit > 0 && b < |data|
    ensures b / unit < PieceCount(unit, |data|) && b / unit * unit <= b
    ensures b - b / unit * unit < PieceLen(unit, b / unit, |data|)
    ensures Piece(data, unit, b / unit)[b - b / unit * unit] == data[b]
  {
    DivUnique(b, b / unit, unit);
    PieceInRange(unit, b / unit, |data|);
    assert (b / unit + 1) * unit == b / unit * unit + unit;
  }

  /** Two files with the same pieces are the same file. */
  lemma SamePiecesSameFile(a: Bytes, b: Bytes, unit: nat)
    requires unit > 0 && |a| == |b|
    requires forall i :: 0 <= i < PieceCount(unit, |a|) ==> Piece(a, unit, i) == Piece(b, unit, i)
    ensures a == b
  {
    hide Piece, PieceLen, PieceCount;
    forall x | 0 <= x < |a| ensures a[x] == b[x] {
      ByteInPiece(a, unit, x);
      ByteInPiece(b, unit, x);
    }
  }

  /** A file with `data` written over it at `at`. */
  function Overwrite(file: Bytes, at: nat, data: Bytes): (r: Bytes)
    requires at + |data| <= |file|
    ensures |r| == |file|
  {
    file[..at] + data + file[at + |data|..]
  }

  function Zeros(n: nat): (r: Bytes)
    ensures |r| == n
  {
    seq(n, _ => 0)
  }

  /** A file truncated or extended with zeros to n bytes. */
  function Sized(file: Bytes, n: nat): (r: Bytes)
    ensures |r| == n
  {
    if |file| >= n then file[..n] else file + Zeros(n - |file|)
  }

  /** Pieces of different index do not overlap. */
  lemma PiecesApart(unit: nat, i: nat, j: nat)
    requires i < j
    ensures i * unit + unit <= j * unit
  {
    MulMonotone(i + 1, j, unit);
    assert (i + 1) * unit == i * unit + unit;
  }

  /** Writing piece i changes piece i and no other. */
  lemma WritePiece(file: Bytes, unit: nat, i: nat, p: Bytes, j: nat)
    requires i * unit + |p| <= |file| && |p| == PieceLen(unit, i, |file|) && |p| > 0
    ensures Piece(Overwrite(file, i * unit, p), unit, j) == if j == i then p else Piece(file, unit, j)
  {
    hide Overwrite, Piece, PieceLen;
    if j < i {
      PiecesApart(unit, j, i);
    } else if j > i {
      PiecesApart(unit, i, j);
    }
    WrittenPiece(file, unit, i, p, j, i * unit, j * unit);
  }

  lemma WrittenPiece(file: Bytes, unit: nat, i: nat, p: Bytes, j: nat, at: nat, from: nat)
    requires at == i * unit && from == j * unit && at + |p| <= |file| && |p| == PieceLen(unit, i, |file|) && |p| > 0
    requires j == i || from + unit <= at || at + unit <= from
    ensures Piece(Overwrite(file, at, p), unit, j) == if j == i then p else Piece(file, unit, j)
  {
    hide Overwrite, Piece, PieceLen;
    PieceAt(file, unit, i, at);
    PieceAt(file, unit, j, from);
    PieceAt(Overwrite(file, at, p), unit, j, from);
    OverwrittenAt(file, at, p);
    if j != i && from < |file| { OverwrittenApart(file, at, p, from, from + PieceLen(unit, j, |file|)); }
  }

  lemma PieceAt(data: Bytes, unit: nat, i: nat, at: nat)
    requires at == i * unit
    ensures var n := PieceLen(unit, i, |data|);
      n <= unit && (at < |data| ==> at + n <= |data|) && Piece(data, unit, i) == if at >= |data| then []
        else data[at..at + n]
  {
  }

  lemma OverwrittenAt(file: Bytes, at: nat, p: Bytes)
    requires at + |p| <= |file|
    ensures |Overwrite(file, at, p)| == |file| && Overwrite(file, at, p)[at..at + |p|] == p
  {
  }

  lemma OverwrittenApart(file: Bytes, at: nat, p: Bytes, lo: nat, hi: nat)
    requires at + |p| <= |file| && lo <= hi <= |file| && (hi <= at || at + |p| <= lo)
    ensures Overwrite(file, at, p)[lo..hi] == file[lo..hi]
  {
  }

  /** At most n bytes of the file from `at`, as a read past the end returns them. */
  function Cut(file: Bytes, at: nat, n: nat): Bytes {
    if at >= |file| then [] else file[at..if at + n <= |file| then at + n else |file|]
  }

  /** A write that extends the file with zeros when it starts past its end. */
  function WriteAt(file: Bytes, at: nat, data: Bytes): (r: Bytes)
    ensures |r| == if at + |data| > |file| then at + |data| else |file|
  {
    Overwrite(Sized(file, if at + |data| > |file| then at + |data| else |file|), at, data)
  }

  /** The pieces held in memory laid over the file. */
  function Overlay(base: Bytes, subs: map<nat, Bytes>, unit: nat): (r: Bytes)
    requires unit > 0
    ensures |r| == |base|
  {
    seq(|base|, b requires 0 <= b < |base| =>
      if b / unit in subs && 0 <= b - b / unit * unit < |subs[b / unit]| then subs[b / unit][b - b / unit * unit]
        else base[b])
  }

  /** A piece of the overlay is the one in memory, or else the file's. */
  lemma OverlayPiece(base: Bytes, subs: map<nat, Bytes>, unit: nat, i: nat)
    requires unit > 0 && (i in subs ==> |subs[i]| == PieceLen(unit, i, |base|))
    ensures Piece(Overlay(base, subs, unit), unit, i) == if i in subs then subs[i] else Piece(base, unit, i)
  {
    var r := Overlay(base, subs, unit);
    var p := Piece(r, unit, i);
    var want := if i in subs then subs[i] else Piece(base, unit, i);
    assert |p| == |want|;
    forall x | 0 <= x < |p| ensures p[x] == want[x] {
      assert (i + 1) * unit == i * unit + unit;
      DivUnique(i * unit + x, i, unit);
      assert p[x] == r[i * unit + x];
    }
  }

  /** A read inside piece i of a file is a read of the piece. */
  lemma CutOfPiece(data: Bytes, unit: nat, i: nat, off: nat, n: nat)
    requires off + n <= PieceLen(unit, i, |data|)
    ensures Cut(data, i * unit + off, n) == Cut(Piece(data, unit, i), off, n)
  {
    if n > 0 {
      assert Piece(data, unit, i)[off..off + n] == data[i * unit + off..i * unit + off + n];
    }
  }

  /** The first i pieces and the next one are the first i + 1 pieces. */
  lemma NextPiece(data: Bytes, unit: nat, i: nat)
    requires unit > 0 && i < PieceCount(unit, |data|)
    ensures Cut(data, 0, i * unit) + Piece(data, unit, i) == Cut(data, 0, (i + 1) * unit)
  {
    PieceInRange(unit, i, |data|);
    assert (i + 1) * unit == i * unit + unit;
  }
}
