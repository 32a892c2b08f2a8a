/** Storing blocks: Put, PutAsync and PutRange on the index, and the room they ask for. */
module CachePuts {

  import opened Common
  import opened Bitmap
  import opened Geometry
  import opened Ranges
  import opened Sums
  import opened CacheModel
  import opened CacheInvariant
  import opened CacheSteps
  import opened CacheIndex

  // What a new entry adds to the totals.

  lemma TidyAdd(s: State, id: BlockId, b: Block)
    requires Tidy(s) && id !in s.blocks && b.tag == s.nextTag
    ensures Tidy(s.(blocks := s.blocks[id := b], nextTag := s.nextTag + 1))
  {
    var s' := s.(blocks := s.blocks[id := b], nextTag := s.nextTag + 1);
    forall u | u in s'.flushes ensures FlushAt(s', u) { assert FlushAt(s, u); }
  }

  lemma TidyKeep(s: State, id: BlockId, b: Block, next: nat)
    requires Tidy(s) && id in s.blocks && b.tag == s.blocks[id].tag && b.mem == s.blocks[id].mem && s.nextTag <= next
    ensures Tidy(s.(blocks := s.blocks[id := b], nextTag := next))
  {
    var s' := s.(blocks := s.blocks[id := b], nextTag := next);
    forall u | u in s'.flushes ensures FlushAt(s', u) { assert FlushAt(s, u); }
  }

  lemma AddTotals(s: State, id: BlockId, b: Block)
    requires id !in s.blocks
    ensures var s', x := s.(blocks := s.blocks[id := b], nextTag := s.nextTag + 1), Exact(s);
      Exact(s') == x.(bytes := x.bytes + b.size, pending := x.pending + MemoryBytes(b),
                      openPartials := x.openPartials + OpenOne(b))
  {
    hide MemoryBytes;
    SumUpdate(s.blocks, BlockBytes, id, b);
    SumUpdate(s.blocks, MemoryBytes, id, b);
    SumUpdate(s.blocks, OpenOne, id, b);
  }

  lemma ChangeTotals(s: State, id: BlockId, b: Block, next: nat)
    requires id in s.blocks
    ensures var s', x, was := s.(blocks := s.blocks[id := b], nextTag := next), Exact(s), s.blocks[id];
      Exact(s') == x.(bytes := x.bytes - was.size + b.size, pending := x.pending - MemoryBytes(was) + MemoryBytes(b),
                      openPartials := x.openPartials - OpenOne(was) + OpenOne(b))
  {
    hide MemoryBytes;
    SumUpdate(s.blocks, BlockBytes, id, b);
    SumUpdate(s.blocks, MemoryBytes, id, b);
    SumUpdate(s.blocks, OpenOne, id, b);
  }

  /** put and PutAsync: the entry there is dropped with all it held, and the new one
      takes its place. */
  method PutBlock(c: Cache, id: BlockId, data: Bytes, size: nat, async: bool, now: int)
    requires c.Valid()
    modifies c
    ensures c.Valid() && c.st == CacheModel.PutBlock(old(c.st), id, data, size, async, now)
  {
    hide Tidy, Exact, DropAll, Known, ReplaceBlock, NewBlock, FileOf, Renewed;
    KnownTotals(c.st, id.file);
    c.st := Known(c.st, id.file).(lock := Free);
    ghost var s := c.st;
    var f := FileOf(c.st, id.file);
    var b := NewBlock(c.st, id.file, |data|, if async then Some(data) else None, now);
    if id in c.st.blocks { c.DropBlock(id); } else { NothingToDrop(s, id); }
    RenewedIs(s, id, data, size, async, now);
    RenewedTotals(c.st, id, b, f, data, size, async);
    var t := c.totals.(bytes := c.totals.bytes + |data|, pending := c.totals.pending + (if async then |data| else 0));
    c.st, c.totals := Renewed(c.st, id, b, f, data, size, async), t;
  }

  /** The state with the new entry in place of the one dropped. */
  function Renewed(s: State, id: BlockId, b: Block, f: FileState, data: Bytes, size: nat, async: bool): State {
    s.(blocks := s.blocks[id := b], nextTag := s.nextTag + 1,
       files := s.files[id.file := f.(size := size, present := f.present + {id.index}, generation := f.generation + 1)],
       blockFile := if async then s.blockFile else s.blockFile[id := data])
  }

  lemma RenewedIs(s: State, id: BlockId, data: Bytes, size: nat, async: bool, now: int)
    ensures var d, b, f := DropAll(s, {id}), NewBlock(s, id.file, |data|, if async then Some(data) else None, now),
      FileOf(s, id.file);
      && Renewed(d, id, b, f, data, size, async) == ReplaceBlock(s, id, data, size, async, now)
      && id !in d.blocks && b.tag == d.nextTag && b.subs == map[] && !b.open && b.size == |data| &&
         b.mem == (if async then Some(data) else None)
  {
    hide DropAll, FileOf;
    DropKeys(s, id);
    var d, b := DropAll(s, {id}), NewBlock(s, id.file, |data|, if async then Some(data) else None, now);
    assert s.blocks[id := b] == d.blocks[id := b];
    if async { RenewedMemory(s, id, data, size, now, d, b); } else { RenewedDisk(s, id, data, size, now, d, b); }
  }

  lemma RenewedMemory(s: State, id: BlockId, data: Bytes, size: nat, now: int, d: State, b: Block)
    requires d == DropAll(s, {id}) == s.(blocks := d.blocks, flushes := d.flushes) &&
      s.blocks[id := b] == d.blocks[id := b]
    requires b == NewBlock(s, id.file, |data|, Some(data), now)
    ensures Renewed(d, id, b, FileOf(s, id.file), data, size, true) == ReplaceBlock(s, id, data, size, true, now)
  {
    hide DropAll, FileOf, NewBlock;
  }

  lemma RenewedDisk(s: State, id: BlockId, data: Bytes, size: nat, now: int, d: State, b: Block)
    requires d == DropAll(s, {id}) == s.(blocks := d.blocks, flushes := d.flushes) &&
      s.blocks[id := b] == d.blocks[id := b]
    requires b == NewBlock(s, id.file, |data|, None, now)
    ensures Renewed(d, id, b, FileOf(s, id.file), data, size, false) == ReplaceBlock(s, id, data, size, false, now)
  {
    hide DropAll, FileOf, NewBlock;
  }

  lemma RenewedTotals(s: State, id: BlockId, b: Block, f: FileState, data: Bytes, size: nat, async: bool)
    requires Tidy(s) && id !in s.blocks && b.tag == s.nextTag && b.subs == map[] && !b.open
    ensures var s', x := Renewed(s, id, b, f, data, size, async), Exact(s);
      && Tidy(s')
      && Exact(s') == x.(bytes := x.bytes + b.size, pending := x.pending + (if b.mem.Some? then |b.mem.value| else 0))
  {
    hide Tidy, Exact, MemoryBytes;
    NewBlockMemory(b);
    AddTotals(s, id, b);
    TidyAdd(s, id, b);
    SameTotals(s.(blocks := s.blocks[id := b], nextTag := s.nextTag + 1), Renewed(s, id, b, f, data, size, async));
  }

  lemma NewBlockMemory(b: Block)
    requires b.subs == map[] && !b.open
    ensures MemoryBytes(b) == (if b.mem.Some? then |b.mem.value| else 0) && OpenOne(b) == 0
  {
  }

  lemma NothingToDrop(s: State, id: BlockId)
    requires Tidy(s) && id !in s.blocks
    ensures DropAll(s, {id}) == s
  {
    assert s.blocks - {id} == s.blocks;
    assert forall u :: u in s.flushes ==> FlushAt(s, u);
    assert DropAll(s, {id}).flushes == s.flushes;
  }

  lemma KnownTotals(s: State, k: FileKey)
    ensures Exact(Known(s, k).(lock := Free)) == Exact(s) && (Tidy(s) ==> Tidy(Known(s, k).(lock := Free)))
  {
    var s' := Known(s, k).(lock := Free);
    if k in s.files {
      assert s' == s.(lock := Free);
      if Tidy(s) { TidyBut(s, s'); }
    } else {
      assert s' == s.(files := s'.files, nextTag := s.nextTag + 1, lock := Free);
      if Tidy(s) { forall u | u in s'.flushes ensures FlushAt(s', u) { assert FlushAt(s, u); } }
    }
  }

  // PutRange: one sub-block at a time.

  /** The sub-blocks from first to i that the entry does not have. */
  function Gap(have: set<nat>, first: nat, i: nat): set<nat> {
    set j | first <= j < i && j !in have
  }

  lemma GapNext(have: set<nat>, first: nat, i: nat)
    requires first <= i
    ensures Gap(have, first, i + 1) == (if i in have then Gap(have, first, i) else Gap(have, first, i) + {i}) &&
      i !in Gap(have, first, i)
  {
  }

  /** An aligned range ends in the sub-block its last byte is in. */
  lemma LastNamed(sub: nat, off: nat, n: nat, L: nat)
    requires sub > 0 && Aligned(sub, off, n, L)
    ensures (off + n - 1) / sub + 1 == off / sub + PieceCount(sub, n)
  {
    Multiple(off, sub);
    var q, m := off / sub, (n - 1) / sub;
    DivUnique(n - 1, m, sub);
    assert (q + m) * sub == off + m * sub && (q + m + 1) * sub == off + (m + 1) * sub;
    DivUnique(off + n - 1, q + m, sub);
  }

  /** What one sub-block of a range is, cut from the data. */
  function Chunk(sub: nat, off: nat, data: Bytes, i: nat, L: nat): Bytes {
    Cut(data, if i * sub >= off then i * sub - off else 0, PieceLen(sub, i, L))
  }

  lemma AlignedStart(sub: nat, off: nat, n: nat, L: nat)
    requires sub > 0 && Aligned(sub, off, n, L)
    ensures off / sub * sub == off
  {
    Multiple(off, sub);
  }

  lemma ChunkOffset(sub: nat, off: nat, first: nat, i: nat)
    requires first * sub == off && first <= i
    ensures (i - first) * sub == i * sub - off >= 0 && (i + 1) * sub == i * sub + sub
  {
  }

  method ChunkAt(sub: nat, off: nat, data: Bytes, i: nat, L: nat) returns (chunk: Bytes)
    requires sub > 0 && Aligned(sub, off, |data|, L) && off / sub <= i && Named(sub, off, |data|, i)
    ensures chunk == Chunk(sub, off, data, i, L) && |chunk| == PieceLen(sub, i, L)
  {
    hide Aligned, Named;
    NamedInside(sub, off, |data|, L, i);
    AlignedStart(sub, off, |data|, L);
    var first := off / sub;
    ChunkOffset(sub, off, first, i);
    var at := (i - first) * sub;
    var n := if (i + 1) * sub > L then L - i * sub else sub;
    chunk := data[at..at + n];
  }

  function Chunks(sub: nat, off: nat, data: Bytes, L: nat, which: set<nat>): map<nat, Bytes> {
    map i | i in which :: Chunk(sub, off, data, i, L)
  }

  lemma ChunksAdd(sub: nat, off: nat, data: Bytes, L: nat, subs: map<nat, Bytes>, gap: set<nat>, i: nat)
    ensures (subs + Chunks(sub, off, data, L, gap))[i := Chunk(sub, off, data, i, L)] ==
      subs + Chunks(sub, off, data, L, gap + {i})
  {
    hide Chunk;
  }

  /** The entry with the missing sub-blocks of the range in memory, and how much it
      grew. */
  method Extend(sub: nat, b: Block, off: nat, data: Bytes, L: nat)
    returns (bits: set<nat>, subs: map<nat, Bytes>, size: nat)
    requires sub > 0 && Aligned(sub, off, |data|, L) && b.bits.Some? && b.subs.Keys <= b.bits.value
    requires b.size == Covered(sub, L, b.bits.value, PieceCount(sub, L))
    ensures var gap := Gap(b.bits.value, off / sub, off / sub + PieceCount(sub, |data|));
      && bits == b.bits.value + gap && subs == b.subs + Chunks(sub, off, data, L, gap)
      && size == Covered(sub, L, bits, PieceCount(sub, L))
      && Sum(subs, Length) == Sum(b.subs, Length) + size - b.size
  {
    hide Covered, PieceLen, Aligned, Chunk, Chunks, Named, PieceCount, Gap;
    var have, first, last := b.bits.value, off / sub, (off + |data| - 1) / sub;
    bits, subs, size := have, b.subs, b.size;
    LastNamed(sub, off, |data|, L);
    NoGap(sub, off, data, L, have, first, b.subs);
    var i := first;
    while i <= last
      invariant first <= i <= last + 1 && bits == have + Gap(have, first, i) &&
        subs == b.subs + Chunks(sub, off, data, L, Gap(have, first, i))
      invariant subs.Keys <= bits && size == Covered(sub, L, bits, PieceCount(sub, L)) &&
        Sum(subs, Length) == Sum(b.subs, Length) + size - b.size
    {
      GapNext(have, first, i);
      if i !in bits {
        NamedHere(sub, off, |data|, L, i);
        var chunk := ChunkAt(sub, off, data, i, L);
        SubsAdd(subs, i, chunk);
        CoveredAdd(sub, L, bits, PieceCount(sub, L), i);
        ChunksAdd(sub, off, data, L, b.subs, Gap(have, first, i), i);
        subs, bits, size := subs[i := chunk], bits + {i}, size + |chunk|;
      }
      i := i + 1;
    }
  }

  lemma SubsAdd(subs: map<nat, Bytes>, i: nat, chunk: Bytes)
    requires i !in subs
    ensures Sum(subs[i := chunk], Length) == Sum(subs, Length) + |chunk|
  {
    SumUpdate(subs, Length, i, chunk);
  }

  lemma NoGap(sub: nat, off: nat, data: Bytes, L: nat, have: set<nat>, first: nat, subs: map<nat, Bytes>)
    ensures Gap(have, first, first) == {} && subs + Chunks(sub, off, data, L, {}) == subs
  {
  }

  lemma NamedHere(sub: nat, off: nat, n: nat, L: nat, i: nat)
    requires sub > 0 && Aligned(sub, off, n, L) && off / sub <= i <= (off + n - 1) / sub
    ensures Named(sub, off, n, i) && i < PieceCount(sub, L)
  {
    LastNamed(sub, off, n, L);
    NamedInside(sub, off, n, L, i);
  }

  /** The extended entry is the machine's. */
  lemma ExtendedIs(c: Config, blocks: map<BlockId, Block>, id: BlockId, b: Block, off: nat, data: Bytes, L: nat,
                   pinned: bool, now: int)
    requires b.bits.Some? && (if id in blocks then blocks[id] == b else b.bits.value == {})
    ensures var gap := Gap(b.bits.value, off / c.subSize, off / c.subSize + PieceCount(c.subSize, |data|));
      && gap == Missing(c, blocks, id, off, |data|)
      && Extended(c, b, gap, off, data, L, true, pinned, now) ==
           b.(bits := Some(b.bits.value + gap), subs := b.subs + Chunks(c.subSize, off, data, L, gap),
              size := Covered(c.subSize, L, b.bits.value + gap, PieceCount(c.subSize, L)), pinned := b.pinned ||
                pinned, lastAccess := now)
  {
    hide Covered, PieceCount, PieceLen, Cut;
  }

  /** A partial entry counts its sub-blocks. */
  ghost predicate Counted(s: State, id: BlockId, size: nat) {
    id in s.blocks && s.blocks[id].bits.Some? ==>
      var L := BlockLen(s.cfg, id.index, size);
      && s.blocks[id].mem.None? && s.blocks[id].subs.Keys <= s.blocks[id].bits.value
      && s.blocks[id].size == Covered(s.cfg.subSize, L, s.blocks[id].bits.value, PieceCount(s.cfg.subSize, L))
  }

  /** PutRange: the missing sub-blocks are held in memory and counted once each. */
  method PutRange(c: Cache, id: BlockId, off: nat, data: Bytes, size: nat, now: int)
    requires c.Valid() && Aligned(c.st.cfg.subSize, off, |data|, BlockLen(c.st.cfg, id.index, size)) &&
      Counted(c.st, id, size)
    modifies c
    ensures c.Valid() && c.st == CacheModel.PutRange(old(c.st), id, off, data, size, now)
  {
    hide Tidy, Exact, Known, Aligned, Extended, Covered, PieceCount, Missing, Gap, Chunks;
    if id in c.st.blocks && c.st.blocks[id].bits.None? {
      SameTotals(c.st, c.st.(lock := Free));
      c.st := c.st.(lock := Free);
      return;
    }
    KnownTotals(c.st, id.file);
    KnownFields(c.st, id.file);
    c.st := Known(c.st, id.file).(lock := Free);
    Added(c, id, off, data, size, now);
  }

  method Added(c: Cache, id: BlockId, off: nat, data: Bytes, size: nat, now: int)
    requires c.Valid() && Aligned(c.st.cfg.subSize, off, |data|, BlockLen(c.st.cfg, id.index, size)) &&
      Counted(c.st, id, size)
    requires !(id in c.st.blocks && c.st.blocks[id].bits.None?)
    modifies c
    ensures c.Valid() && c.st == AddRange(old(c.st), id, off, data, size, now)
  {
    hide Tidy, Exact, Aligned, Extended, Covered, PieceCount, Missing, Gap, Chunks, MemoryBytes, RangeBlock, RangeFile,
         BlockLen, Grown, AddRange;
    ghost var s := c.st;
    var L := BlockLen(c.st.cfg, id.index, size);
    var b := RangeBlock(c.st, id, now);
    RangeBlockIs(c.st, id, size, now);
    var bits, subs, grown := Extend(c.st.cfg.subSize, b, off, data, L);
    var f := RangeFile(c.st, id.file, size);
    var b' := b.(bits := Some(bits), subs := subs, size := grown, pinned := b.pinned || (f.pinned || f.userPinned),
                 lastAccess := now);
    ExtendedIs(s.cfg, s.blocks, id, b, off, data, L, f.pinned || f.userPinned, now);
    var t := c.totals.(bytes := c.totals.bytes + (grown - b.size), pending := c.totals.pending + (grown - b.size));
    if id in c.st.blocks { GrowOld(s, id, b', f); } else { GrowNew(s, id, b', f); }
    AddRangeIs(s, id, off, data, size, now, b', f);
    c.st, c.totals := Grown(c.st, id, b', f), t;
  }

  lemma AddRangeIs(s: State, id: BlockId, off: nat, data: Bytes, size: nat, now: int, b: Block, f: FileState)
    requires f == RangeFile(s, id.file, size)
    requires b == Extended(s.cfg, RangeBlock(s, id, now), Missing(s.cfg, s.blocks, id, off, |data|), off, data,
                           BlockLen(s.cfg, id.index, size), true, f.pinned || f.userPinned, now)
    ensures AddRange(s, id, off, data, size, now) == Grown(s, id, b, f)
  {
    hide Extended, Missing, RangeBlock, RangeFile;
  }

  /** The entry a range lands in is partial and counted. */
  lemma RangeBlockIs(s: State, id: BlockId, size: nat, now: int)
    requires Counted(s, id, size) && !(id in s.blocks && s.blocks[id].bits.None?)
    ensures var b, L := RangeBlock(s, id, now), BlockLen(s.cfg, id.index, size);
      && b.bits.Some? && b.mem.None? && b.subs.Keys <= b.bits.value &&
         b.size == Covered(s.cfg.subSize, L, b.bits.value, PieceCount(s.cfg.subSize, L))
      && (if id in s.blocks then s.blocks[id] == b
          else b.bits.value == {} && b.subs == map[] && !b.open && b.tag == s.nextTag && b.size == 0)
  {
    NothingCovered(s.cfg.subSize, BlockLen(s.cfg, id.index, size),
                   PieceCount(s.cfg.subSize, BlockLen(s.cfg, id.index, size)));
  }

  /** The state with the entry changed and the file's record with it. */
  function Grown(s: State, id: BlockId, b: Block, f: FileState): State {
    s.(blocks := s.blocks[id := b], nextTag := s.nextTag + 1, files := s.files[id.file := f])
  }

  lemma GrownTotals(s: State, id: BlockId, b: Block, f: FileState)
    ensures var s1 := s.(blocks := s.blocks[id := b], nextTag := s.nextTag + 1);
      Exact(Grown(s, id, b, f)) == Exact(s1) && (Tidy(s1) ==> Tidy(Grown(s, id, b, f)))
  {
    hide Tidy, Exact;
    var s1 := s.(blocks := s.blocks[id := b], nextTag := s.nextTag + 1);
    SameTotals(s1, s1.(files := s.files[id.file := f]));
  }

  /** How a block's sub-blocks in memory grew. */
  predicate Longer(b: Block, b': Block) {
    b.mem.None? && b'.mem.None? && b'.tag == b.tag && b'.open == b.open
  }

  lemma GrowOld(s: State, id: BlockId, b': Block, f: FileState)
    requires Tidy(s) && id in s.blocks && Longer(s.blocks[id], b')
    ensures var b, x := s.blocks[id], Exact(s);
      && Tidy(Grown(s, id, b', f))
      && Exact(Grown(s, id, b', f)) ==
           x.(bytes := x.bytes - b.size + b'.size, pending := x.pending - Sum(b.subs, Length) + Sum(b'.subs, Length))
  {
    hide Tidy, Exact, MemoryBytes, Grown;
    MemoryOf(s.blocks[id]);
    MemoryOf(b');
    ChangeTotals(s, id, b', s.nextTag + 1);
    TidyKeep(s, id, b', s.nextTag + 1);
    GrownTotals(s, id, b', f);
  }

  lemma GrowNew(s: State, id: BlockId, b': Block, f: FileState)
    requires Tidy(s) && id !in s.blocks && b'.mem.None? && !b'.open && b'.tag == s.nextTag
    ensures var x := Exact(s);
      Tidy(Grown(s, id, b', f)) &&
        Exact(Grown(s, id, b', f)) == x.(bytes := x.bytes + b'.size, pending := x.pending + Sum(b'.subs, Length))
  {
    hide Tidy, Exact, MemoryBytes, Grown;
    MemoryOf(b');
    AddTotals(s, id, b');
    TidyAdd(s, id, b');
    GrownTotals(s, id, b', f);
  }

  lemma MemoryOf(b: Block)
    requires b.mem.None?
    ensures MemoryBytes(b) == Sum(b.subs, Length)
  {
  }

  // blockRoom.

  /** The bytes and entries a block put is short of. */
  method BlockRoom(c: Cache, id: BlockId, n: nat) returns (need: nat, entries: nat)
    requires c.Valid()
    ensures forall size :: (need, entries) == Room(c.st, BlockReq(id, n, size))
  {
    need, entries := n, 1;
    if id in c.st.blocks {
      entries := 0;
      var m := c.st.blocks[id];
      assert m.tag in c.st.flushes ==> FlushAt(c.st, m.tag);
      if m.tag in c.st.flushes && m.mem.Some? {
        entries := 1;
      } else {
        need := if n > m.size then n - m.size else 0;
      }
    }
  }

  /** Where the loop stands: sub-block i begins at pos. */
  lemma AtSub(sub: nat, off: nat, n: nat, L: nat, i: nat, pos: nat)
    requires sub > 0 && Aligned(sub, off, n, L) && off / sub <= i && pos == i * sub
    ensures pos + sub == (i + 1) * sub && pos / sub == i && (pos < off + n <==> i < off / sub + PieceCount(sub, n))
    ensures pos < off + n ==>
      pos < L && i < PieceCount(sub, L) && PieceLen(sub, i, L) == (if sub < L - pos then sub else L - pos)
  {
    hide Aligned;
    AlignedStart(sub, off, n, L);
    AlignedFits(sub, off, n, L);
    var first := off / sub;
    ChunkOffset(sub, off, first, i);
    DivUnique(pos, i, sub);
    PieceInRange(sub, i - first, n);
    PieceInRange(sub, i, L);
  }

  lemma AlignedFits(sub: nat, off: nat, n: nat, L: nat)
    requires sub > 0 && Aligned(sub, off, n, L)
    ensures off + n <= L && n > 0
  {
  }

  method MissingBytes(sub: nat, have: set<nat>, off: nat, n: nat, L: nat) returns (need: nat)
    requires sub > 0 && Aligned(sub, off, n, L)
    ensures need == Covered(sub, L, Gap(have, off / sub, off / sub + PieceCount(sub, n)), PieceCount(sub, L))
  {
    hide Aligned, Covered, PieceLen, PieceCount, Gap;
    need := 0;
    var pos, first := off, off / sub;
    ghost var i := first;
    AlignedStart(sub, off, n, L);
    AlignedFits(sub, off, n, L);
    AtSub(sub, off, n, L, i, pos);
    NoGapCovered(sub, L, have, first);
    while pos < off + n
      invariant first <= i <= first + PieceCount(sub, n) && pos == i * sub &&
        need == Covered(sub, L, Gap(have, first, i), PieceCount(sub, L))
      invariant pos < off + n <==> i < first + PieceCount(sub, n)
      decreases off + n - pos
    {
      AtSub(sub, off, n, L, i, pos);
      GapNext(have, first, i);
      if pos / sub !in have {
        CoveredAdd(sub, L, Gap(have, first, i), PieceCount(sub, L), i);
        need := need + if sub < L - pos then sub else L - pos;
      }
      AtSub(sub, off, n, L, i + 1, pos + sub);
      pos, i := pos + sub, i + 1;
    }
  }

  lemma NoGapCovered(sub: nat, L: nat, have: set<nat>, first: nat)
    requires sub > 0
    ensures Covered(sub, L, Gap(have, first, first), PieceCount(sub, L)) == 0
  {
    assert Gap(have, first, first) == {};
    NothingCovered(sub, L, PieceCount(sub, L));
  }

  /** The bytes and entries a range put is short of: the loop over its sub-blocks adds up
      the missing ones. */
  method RangeRoom(c: Cache, id: BlockId, off: nat, n: nat, size: nat) returns (need: nat, entries: nat)
    requires Aligned(c.st.cfg.subSize, off, n, BlockLen(c.st.cfg, id.index, size))
    ensures (need, entries) == Room(c.st, RangeReq(id, off, n, size))
  {
    hide Aligned, Covered, PieceLen, Missing, PieceCount;
    need, entries := n, 1;
    if id in c.st.blocks {
      entries, need := 0, 0;
      var m := c.st.blocks[id];
      if m.bits.Some? {
        need := MissingBytes(c.st.cfg.subSize, m.bits.value, off, n, BlockLen(c.st.cfg, id.index, size));
        RoomIs(c.st.cfg, c.st.blocks, id, off, n);
      }
    }
  }

  lemma RoomIs(c: Config, blocks: map<BlockId, Block>, id: BlockId, off: nat, n: nat)
    requires id in blocks && blocks[id].bits.Some?
    ensures Missing(c, blocks, id, off, n) ==
      Gap(blocks[id].bits.value, off / c.subSize, off / c.subSize + PieceCount(c.subSize, n))
  {
    hide PieceCount;
  }
}
