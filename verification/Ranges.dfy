/** Sub-block aligned ranges of a block. */
module Ranges {

  import opened Common
  import opened Bitmap
  import opened Geometry

  /** A range a caller may put: sub-block aligned, or up to the block's end. */
  predicate Aligned(sub: nat, off: nat, n: nat, L: nat)
    requires sub > 0
  {
    n > 0 && off + n <= L && off % sub == 0 && (n % sub == 0 || off + n == L)
  }

  /** Sub-block i is one that [off, off+n) names. */
  predicate Named(sub: nat, off: nat, n: nat, i: nat)
    requires sub > 0
  {
    off / sub <= i < off / sub + PieceCount(sub, n)
  }

  lemma Multiple(a: nat, sub: nat)
    requires sub > 0 && a % sub == 0
    ensures a / sub * sub == a
  {
  }

  /** An aligned range holds every sub-block it names in full. */
  lemma NamedInside(sub: nat, off: nat, n: nat, L: nat, i: nat)
    requires sub > 0 && Aligned(sub, off, n, L) && Named(sub, off, n, i)
    ensures off <= i * sub && i * sub + PieceLen(sub, i, L) <= off + n && i < PieceCount(sub, L) &&
      PieceLen(sub, i, L) > 0
  {
    var q := off / sub;
    Multiple(off, sub);
    PieceInRange(sub, i - q, n);
    assert i * sub == off + (i - q) * sub;
    PieceInRange(sub, i, L);
    if n % sub == 0 {
      Multiple(n, sub);
      var m := n / sub;
      if i - q >= m { MulMonotone(m, i - q, sub); }
      MulMonotone(i - q + 1, m, sub);
      assert (i - q + 1) * sub == (i - q) * sub + sub;
    }
  }

  /** Bytes of an aligned range are bytes of the sub-blocks it names. */
  lemma InsideNamed(sub: nat, off: nat, n: nat, L: nat, i: nat)
    requires sub > 0 && Aligned(sub, off, n, L) && !Named(sub, off, n, i)
    ensures i * sub + sub <= off || off + n <= i * sub
  {
    var q := off / sub;
    Multiple(off, sub);
    if i < q {
      MulMonotone(i + 1, q, sub);
      assert (i + 1) * sub == i * sub + sub;
    } else {
      PieceInRange(sub, i - q, n);
      assert i * sub == off + (i - q) * sub;
    }
  }

  /** A cut inside a cut. */
  lemma CutInside(T: Bytes, off: nat, n: nat, at: nat, p: nat)
    requires off <= at && at + p <= off + n <= |T|
    ensures Cut(Cut(T, off, n), at - off, p) == T[at..at + p]
  {
    var d := Cut(T, off, n);
    var c := Cut(d, at - off, p);
    assert |d| == n && |c| == p;
    forall x | 0 <= x < p ensures c[x] == T[at..at + p][x] {
      assert c[x] == d[at - off + x];
    }
  }

  /** The bytes put for a sub-block are its real bytes. */
  lemma RangePiece(T: Bytes, sub: nat, off: nat, n: nat, i: nat)
    requires sub > 0 && Aligned(sub, off, n, |T|) && Named(sub, off, n, i)
    ensures i * sub >= off && Cut(Cut(T, off, n), i * sub - off, PieceLen(sub, i, |T|)) == Piece(T, sub, i)
  {
    hide Named, Aligned, PieceCount;
    NamedInside(sub, off, n, |T|, i);
    EndsInside(sub, off, n, |T|);
    CutInside(T, off, n, i * sub, PieceLen(sub, i, |T|));
  }

  lemma EndsInside(sub: nat, off: nat, n: nat, L: nat)
    requires sub > 0 && Aligned(sub, off, n, L)
    ensures off + n <= L
  {
  }

  /** A stretch of three pieces put together that lies in one of them. */
  lemma Stretch(a: Bytes, b: Bytes, c: Bytes, at: nat, p: nat)
    requires at + p <= |a + b + c|
    ensures at + p <= |a| ==> (a + b + c)[at..at + p] == a[at..at + p]
    ensures |a| <= at && at + p <= |a| + |b| ==> (a + b + c)[at..at + p] == b[at - |a|..at - |a| + p]
    ensures |a| + |b| <= at ==> (a + b + c)[at..at + p] == c[at - |a| - |b|..at - |a| - |b| + p]
  {
  }

  /** A write of the real bytes [off, off+n) seen at [at, at+p). */
  lemma Splice(T: Bytes, file: Bytes, off: nat, n: nat, at: nat, p: nat)
    requires |file| == |T| && off + n <= |T| && n > 0 && at + p <= |T|
    ensures |WriteAt(file, off, Cut(T, off, n))| == |T|
    ensures off <= at && at + p <= off + n ==> WriteAt(file, off, Cut(T, off, n))[at..at + p] == T[at..at + p]
    ensures at + p <= off || off + n <= at ==> WriteAt(file, off, Cut(T, off, n))[at..at + p] == file[at..at + p]
  {
    var data := Cut(T, off, n);
    assert Sized(file, |file|) == file;
    assert WriteAt(file, off, data) == file[..off] + data + file[off + n..];
    Stretch(file[..off], data, file[off + n..], at, p);
    if off <= at && at + p <= off + n { CutInside(T, off, n, at, p); }
  }

  /** Writing an aligned range makes the sub-blocks it names real and leaves the
      others alone. */
  lemma WriteRange(T: Bytes, file: Bytes, sub: nat, off: nat, n: nat, j: nat)
    requires sub > 0 && Aligned(sub, off, n, |T|) && |file| == |T|
    ensures |WriteAt(file, off, Cut(T, off, n))| == |T|
    ensures Piece(WriteAt(file, off, Cut(T, off, n)), sub, j) ==
      Piece(if Named(sub, off, n, j) then T else file, sub, j)
  {
    hide WriteAt, Cut;
    var p := PieceLen(sub, j, |T|);
    Splice(T, file, off, n, 0, 0);
    if j * sub < |T| {
      Splice(T, file, off, n, j * sub, p);
      if Named(sub, off, n, j) { NamedInside(sub, off, n, |T|, j); } else { InsideNamed(sub, off, n, |T|, j); }
    } else if Named(sub, off, n, j) {
      NamedInside(sub, off, n, |T|, j);
    }
  }

  /** Writing the real bytes of a range over the real file changes nothing. */
  lemma WriteOwn(T: Bytes, sub: nat, off: nat, n: nat)
    requires sub > 0 && Aligned(sub, off, n, |T|)
    ensures WriteAt(Sized(T, |T|), off, Cut(T, off, n)) == T
  {
    assert Cut(T, off, n) == T[off..off + n];
    assert Sized(T, |T|) == T;
  }

  /** What SubRange returns for [off, off+n) of a block of L bytes. */
  function SubRange(sub: nat, off: nat, n: nat, L: nat): (int, int)
    requires sub > 0
  {
    var start := off / sub * sub;
    var end := (off + n + sub - 1) / sub * sub;
    (start, (if end > L then L else end) - start)
  }

  lemma ExactMultiple(a: nat, sub: nat)
    requires sub > 0
    ensures (a * sub) % sub == 0
  {
    DivUnique(a * sub, a, sub);
    assert (a + 1) * sub == a * sub + sub;
  }

  /** Rounding down and up to multiples. */
  lemma Rounded(sub: nat, x: nat)
    requires sub > 0
    ensures (x / sub * sub) % sub == 0 && x / sub * sub <= x < x / sub * sub + sub
  {
    ExactMultiple(x / sub, sub);
    DivUnique(x, x / sub, sub);
    assert (x / sub + 1) * sub == x / sub * sub + sub;
  }

  lemma MultiplesApart(a: nat, b: nat, sub: nat)
    requires sub > 0 && a * sub <= b * sub
    ensures b * sub - a * sub >= 0 && (b * sub - a * sub) % sub == 0
  {
    if b < a { MulMonotone(b + 1, a, sub); }
    assert b * sub - a * sub == (b - a) * sub;
    ExactMultiple(b - a, sub);
  }

  /** SubRange widens a non-empty range inside the block to one PutRange accepts, and
      by less than a sub-block on each side. */
  lemma SubRangeAligns(sub: nat, off: nat, n: nat, L: nat)
    requires sub > 0 && n > 0 && off + n <= L
    ensures var r := SubRange(sub, off, n, L);
      && 0 <= r.0 <= off && off + n <= r.0 + r.1 && r.1 > 0 && Aligned(sub, r.0, r.1, L)
      && off - r.0 < sub && r.0 + r.1 - (off + n) < sub
  {
    Rounded(sub, off);
    Rounded(sub, off + n + sub - 1);
    MultiplesApart(off / sub, (off + n + sub - 1) / sub, sub);
  }

  /** How much of [off, off+n) lies below the m-th sub-block. */
  function Below(sub: nat, off: nat, n: nat, m: nat): nat {
    if m * sub <= off then 0 else if m * sub - off <= n then m * sub - off else n
  }

  /** The sub-blocks an aligned range names take exactly the range, and some of them no
      more. */
  lemma {:induction false} NamedBytes(sub: nat, off: nat, n: nat, L: nat, bits: set<nat>, m: nat)
    requires sub > 0 && Aligned(sub, off, n, L) && forall i :: i in bits ==> Named(sub, off, n, i)
    ensures Covered(sub, L, bits, m) <= Below(sub, off, n, m)
    ensures (forall i :: Named(sub, off, n, i) ==> i in bits) ==> Covered(sub, L, bits, m) == Below(sub, off, n, m)
  {
    if m > 0 {
      NamedBytes(sub, off, n, L, bits, m - 1);
      assert m * sub == (m - 1) * sub + sub;
      if Named(sub, off, n, m - 1) { NamedInside(sub, off, n, L, m - 1); } else { NotBelow(sub, off, n, L, m); }
    }
  }

  lemma NotBelow(sub: nat, off: nat, n: nat, L: nat, m: nat)
    requires sub > 0 && Aligned(sub, off, n, L) && m > 0 && !Named(sub, off, n, m - 1)
    ensures Below(sub, off, n, m) == Below(sub, off, n, m - 1)
  {
    assert m * sub == (m - 1) * sub + sub;
    if (m - 1) * sub < L {
      InsideNamed(sub, off, n, L, m - 1);
    }
  }
}
