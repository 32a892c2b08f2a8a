/** Reading a partial block: the range is split at sub-block boundaries, what is in memory
    is captured, the rest is read from the block file, and the pieces are joined. */
module PartialReads {

  import opened Common
  import opened Bitmap
  import opened Geometry

  /** One piece of a read: bytes from memory, or a stretch of the file. */
  datatype Span = FromMemory(data: Bytes) | FromDisk(at: nat, n: nat)

  function SpanBytes(file: Bytes, p: Span): Bytes {
    match p
    case FromMemory(data) => data
    case FromDisk(at, n) => Cut(file, at, n)
  }

  /** The pieces joined, over a block file. */
  function Joined(file: Bytes, spans: seq<Span>): Bytes {
    if spans == [] then [] else Joined(file, spans[..|spans| - 1]) + SpanBytes(file, spans[|spans| - 1])
  }

  lemma JoinedMore(file: Bytes, spans: seq<Span>, p: Span)
    ensures Joined(file, spans + [p]) == Joined(file, spans) + SpanBytes(file, p)
  {
    assert (spans + [p])[..|spans|] == spans;
  }

  lemma JoinedNone(file: Bytes)
    ensures Joined(file, []) == []
  {
  }

  /** Sub-blocks in memory have their full lengths. */
  predicate FullSubs(sub: nat, subs: map<nat, Bytes>, L: nat) {
    forall i :: i in subs ==> |subs[i]| == PieceLen(sub, i, L)
  }

  /** Inside one sub-block the overlay is the bytes in memory, or else the file's. */
  lemma OverlayInside(file: Bytes, subs: map<nat, Bytes>, sub: nat, i: nat, pos: nat, take: nat)
    requires sub > 0 && i * sub <= pos && pos + take <= i * sub + sub && pos + take <= |file| &&
      FullSubs(sub, subs, |file|)
    ensures Overlay(file, subs, sub)[pos..pos + take] ==
      if i in subs && pos + take - i * sub <= |subs[i]| then subs[i][pos - i * sub..pos + take - i * sub]
        else file[pos..pos + take]
    ensures i in subs && take > 0 ==> pos + take - i * sub <= |subs[i]|
  {
    var r := Overlay(file, subs, sub);
    forall x | pos <= x < pos + take ensures r[x] == if i in subs then subs[i][x - i * sub] else file[x] {
      assert (i + 1) * sub == i * sub + sub;
      DivUnique(x, i, sub);
    }
  }

  /** Sub-block i holds byte pos, and all of its bytes before the block's end. */
  lemma SubOf(sub: nat, off: nat, pos: nat, L: nat, i: nat, subs: map<nat, Bytes>)
    requires sub > 0 && i == pos / sub && off <= pos < L && FullSubs(sub, subs, L)
    ensures i * sub <= pos < i * sub + sub && off / sub <= i
    ensures i in subs ==> pos - i * sub < |subs[i]|
  {
    DivUnique(pos, i, sub);
    DivMonotone(off, pos, sub);
    assert (i + 1) * sub == i * sub + sub;
  }

  /** Byte b is in memory. */
  predicate InMemory(sub: nat, subs: map<nat, Bytes>, b: nat)
    requires sub > 0
  {
    b / sub in subs
  }

  /** A piece stands for [pos, pos+take) of the overlay. */
  predicate StandsFor(p: Span, file: Bytes, sub: nat, subs: map<nat, Bytes>, pos: nat, take: nat)
    requires sub > 0 && pos + take <= |file|
  {
    (p.FromDisk? ==> p.at + p.n <= |file|) && SpanBytes(file, p) == Overlay(file, subs, sub)[pos..pos + take]
  }

  /** The next piece: to the end of the sub-block, of the range, or of what is held. */
  method NextSpan(sub: nat, subs: map<nat, Bytes>, pos: nat, left: nat, ghost file: Bytes) returns (p: Span, take: nat)
    requires sub > 0 && left > 0 && pos + left <= |file| && FullSubs(sub, subs, |file|)
    ensures 0 < take <= left && StandsFor(p, file, sub, subs, pos, take) && (InMemory(sub, subs, pos) ==> p.FromMemory?)
  {
    hide Overlay, FullSubs;
    var i := pos / sub;
    SubOf(sub, pos, pos, |file|, i, subs);
    var start := i * sub;
    var within := pos - start;
    take := sub - within;
    if take > left { take := left; }
    if i in subs {
      var b := subs[i];
      if take > |b| - within { take := |b| - within; }
      p := FromMemory(b[within..within + take]);
    } else {
      p := FromDisk(pos, take);
    }
    OverlayInside(file, subs, sub, i, pos, take);
  }

  /** The pieces stand for [off, off+n). */
  ghost predicate Pieces(spans: seq<Span>, file: Bytes, sub: nat, subs: map<nat, Bytes>, off: nat, n: nat)
    requires sub > 0 && off + n <= |file|
  {
    && (forall k :: 0 <= k < |spans| && spans[k].FromDisk? ==> spans[k].at + spans[k].n <= |file|)
    && Joined(file, spans) == Overlay(file, subs, sub)[off..off + n]
  }

  lemma PiecesMore(spans: seq<Span>, p: Span, file: Bytes, sub: nat, subs: map<nat, Bytes>, off: nat, n: nat, take: nat)
    requires sub > 0 && off + n + take <= |file| && Pieces(spans, file, sub, subs, off, n) &&
      StandsFor(p, file, sub, subs, off + n, take)
    ensures Pieces(spans + [p], file, sub, subs, off, n + take)
  {
    hide Overlay, Joined, SpanBytes;
    JoinedMore(file, spans, p);
    SliceJoin(Overlay(file, subs, sub), off, off + n, off + n + take);
  }

  lemma SliceJoin(r: Bytes, a: nat, b: nat, c: nat)
    requires a <= b <= c <= |r|
    ensures r[a..c] == r[a..b] + r[b..c]
  {
  }

  /** partialPiecesLocked: the pieces of [off, off+len), in order. */
  method Split(sub: nat, subs: map<nat, Bytes>, off: nat, len: nat, ghost file: Bytes) returns (spans: seq<Span>)
    requires sub > 0 && off + len <= |file| && FullSubs(sub, subs, |file|)
    ensures Pieces(spans, file, sub, subs, off, len)
    ensures (forall b :: off <= b < off + len ==> InMemory(sub, subs, b)) ==> forall k :: 0 <= k < |spans| ==>
      spans[k].FromMemory?
  {
    hide Overlay, FullSubs, InMemory, StandsFor, Pieces;
    spans := [];
    var n := 0;
    NoPieces(file, sub, subs, off);
    while n < len
      invariant n <= len && Pieces(spans, file, sub, subs, off, n)
      invariant (forall b :: off <= b < off + len ==> InMemory(sub, subs, b)) ==> forall k :: 0 <= k < |spans| ==>
        spans[k].FromMemory?
      decreases len - n
    {
      var p, take := NextSpan(sub, subs, off + n, len - n, file);
      PiecesMore(spans, p, file, sub, subs, off, n, take);
      spans, n := spans + [p], n + take;
    }
  }

  lemma NoPieces(file: Bytes, sub: nat, subs: map<nat, Bytes>, off: nat)
    requires sub > 0 && off <= |file|
    ensures Pieces([], file, sub, subs, off, 0)
  {
  }

  /** readPieces: memory needs no file; a missing file fails only a read that needs it. */
  method Join(file: Option<Bytes>, spans: seq<Span>, ghost base: Bytes) returns (data: Option<Bytes>)
    requires file.Some? ==> file.value == base
    ensures data.Some? ==> data.value == Joined(base, spans)
    ensures data.Some? <==> file.Some? || forall k :: 0 <= k < |spans| ==> spans[k].FromMemory?
  {
    hide Joined, Cut;
    var out: Bytes := [];
    var k := 0;
    JoinedNone(base);
    while k < |spans|
      invariant 0 <= k <= |spans| && out == Joined(base, spans[..k])
      invariant file.None? ==> forall j :: 0 <= j < k ==> spans[j].FromMemory?
    {
      assert spans[..k + 1] == spans[..k] + [spans[k]];
      JoinedMore(base, spans[..k], spans[k]);
      match spans[k] {
        case FromMemory(d) => out := out + d;
        case FromDisk(at, n) =>
          if file.None? { return None; }
          out := out + Cut(file.value, at, n);
      }
      k := k + 1;
    }
    assert spans[..|spans|] == spans;
    data := Some(out);
  }

  /** A read of a partial block over its full-length file returns the overlay's bytes. */
  method Read(sub: nat, subs: map<nat, Bytes>, file: Bytes, off: nat, len: nat) returns (data: Option<Bytes>)
    requires sub > 0 && off + len <= |file| && FullSubs(sub, subs, |file|)
    ensures data == Some(Cut(Overlay(file, subs, sub), off, len))
  {
    var spans := Split(sub, subs, off, len, file);
    data := Join(Some(file), spans, file);
  }

  /** Before the block has a file, a range all in memory is still served. */
  method ReadFromMemory(sub: nat, subs: map<nat, Bytes>, off: nat, len: nat, L: nat) returns (data: Option<Bytes>)
    requires sub > 0 && off + len <= L && FullSubs(sub, subs, L)
    requires forall b :: off <= b < off + len ==> InMemory(sub, subs, b)
    ensures data == Some(Cut(Overlay(Zeros(L), subs, sub), off, len))
  {
    var spans := Split(sub, subs, off, len, Zeros(L));
    data := Join(None, spans, Zeros(L));
  }
}
