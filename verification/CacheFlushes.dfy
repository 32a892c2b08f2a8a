/** Write-behind on the index: a block's flush from its start to its end, in a block
    file, in the sparse file section by section, or in nothing. */
module CacheFlushes {

  import opened Common
  import opened Geometry
  import opened Sums
  import opened CacheModel
  import opened CacheInvariant
  import opened CacheCharge
  import opened CacheIndex
  import opened CachePuts

  lemma FlushTotals(s: State, flushes: map<nat, Flush>)
    ensures Exact(s.(flushes := flushes)) ==
      Exact(s).(detached := Sum(flushes, DetachedBytes), detachedEntries := Sum(flushes, DetachedOne))
    ensures Exact(s).detached == Sum(s.flushes, DetachedBytes) &&
      Exact(s).detachedEntries == Sum(s.flushes, DetachedOne)
  {
  }

  lemma TidyOver(s: State, u: nat)
    requires Tidy(s)
    ensures Tidy(s.(flushes := s.flushes - {u}))
  {
    var s' := s.(flushes := s.flushes - {u});
    forall v | v in s'.flushes ensures FlushAt(s', v) { assert FlushAt(s, v); }
  }

  lemma TidyBegin(s: State, id: BlockId)
    requires Tidy(s) && id in s.blocks && s.blocks[id].mem.Some? && !Flushing(s, id)
    ensures Tidy(FlushBegin(s, id))
  {
    var s' := FlushBegin(s, id);
    forall v | v in s'.flushes ensures FlushAt(s', v) { if v != s.blocks[id].tag { assert FlushAt(s, v); } }
  }

  /** flushBlock begins: the bytes are taken as they are now. */
  method BeginFlush(c: Cache, id: BlockId) returns (begun: bool)
    requires c.Valid() && id in c.st.blocks
    modifies c
    ensures c.Valid() && begun == (old(c.st).blocks[id].mem.Some? && !Flushing(old(c.st), id))
    ensures c.st == if begun then FlushBegin(old(c.st), id) else old(c.st)
  {
    hide Tidy, Exact;
    var m := c.st.blocks[id];
    begun := m.mem.Some? && m.tag !in c.st.flushes;
    if begun {
      var size := FileOf(c.st, id.file).size;
      var f := Flush(id, m.mem.value, size, WholeLayout(c.st.cfg, size), None, false);
      SumUpdate(c.st.flushes, DetachedBytes, m.tag, f);
      SumUpdate(c.st.flushes, DetachedOne, m.tag, f);
      FlushTotals(c.st, c.st.flushes[m.tag := f]);
      TidyBegin(c.st, id);
      c.st := c.st.(flushes := c.st.flushes[m.tag := f]);
    }
  }

  lemma OverTotals(s: State, u: nat)
    requires u in s.flushes
    ensures var f, x := s.flushes[u], Exact(s);
      Exact(s.(flushes := s.flushes - {u})) ==
        x.(detached := x.detached - (if f.detached then |f.data| else 0),
           detachedEntries := x.detachedEntries - (if f.detached then 1 else 0))
  {
    hide Exact;
    SumRemove(s.flushes, DetachedBytes, u);
    SumRemove(s.flushes, DetachedOne, u);
    FlushTotals(s, s.flushes - {u});
  }

  /** The bytes are on disk and leave memory. */
  lemma FlushedTotals(s: State, id: BlockId, onDisk: map<BlockId, Bytes>)
    requires Tidy(s) && id in s.blocks && s.blocks[id].mem.Some? && s.blocks[id].tag !in s.flushes
    ensures var s', x := s.(blocks := s.blocks[id := s.blocks[id].(mem := None)], blockFile := onDisk), Exact(s);
      Tidy(s') && Exact(s') == x.(pending := x.pending - |s.blocks[id].mem.value|)
  {
    hide Exact, MemoryBytes;
    var b' := s.blocks[id].(mem := None);
    ChangeTotals(s, id, b', s.nextTag);
    LessMemory(s.blocks[id]);
    var s1 := s.(blocks := s.blocks[id := b'], nextTag := s.nextTag);
    forall v | v in s1.flushes ensures FlushAt(s1, v) { assert FlushAt(s, v); }
    SameTotals(s1, s1.(blockFile := onDisk));
  }

  lemma LessMemory(b: Block)
    requires b.mem.Some?
    ensures MemoryBytes(b.(mem := None)) == MemoryBytes(b) - |b.mem.value| && OpenOne(b.(mem := None)) == OpenOne(b)
  {
  }

  lemma FillTotals(s: State, k: FileKey, p: Part, files: map<FileKey, FileState>, partFile: map<FileKey, Bytes>,
                   next: nat)
    requires next >= s.nextTag
    ensures var s', x :=
      s.(parts := s.parts[k := p], files := files, partFile := partFile, nextTag := next), Exact(s);
      Exact(s') == x.(part := x.part + PartBytes(p) - (if k in s.parts then PartBytes(s.parts[k]) else 0)) &&
        (Tidy(s) ==> Tidy(s'))
  {
    hide Tidy, PartBytes;
    SumUpdate(s.parts, PartBytes, k, p);
    if Tidy(s) {
      TidyBut(s, s.(parts := s.parts[k := p], files := files, partFile := partFile, nextTag := next));
    }
  }

  /** A sparse file that the block fits. */
  ghost predicate Fits(s: State, k: FileKey, size: nat, idx: nat, data: Bytes) {
    && idx < PieceCount(s.cfg.blockSize, size) && |data| == BlockLen(s.cfg, idx, size)
    && (k in s.parts ==> s.parts[k].unit == s.cfg.blockSize && s.parts[k].size == size)
  }

  lemma NoteTotals(c: Config, p: Part, idx: nat, n: nat, now: int)
    requires p.unit == c.blockSize && idx < PieceCount(c.blockSize, p.size) && n == BlockLen(c, idx, p.size)
    ensures PartBytes(p.(bits := p.bits + {idx}, lastAccess := now)) == PartBytes(p) + (if idx in p.bits then 0 else n)
  {
    if idx in p.bits {
      assert p.bits + {idx} == p.bits;
    } else {
      CoveredAdd(p.unit, p.size, p.bits, PieceCount(p.unit, p.size), idx);
    }
  }

  lemma EmptyPart(c: Config, tag: nat, size: nat, now: int)
    ensures PartBytes(Part(tag, c.blockSize, size, {}, now, false)) == 0
  {
    NothingCovered(c.blockSize, size, PieceCount(c.blockSize, size));
  }

  /** ensurePart and notePartBlock: the block counts once, however often it is noted. After a
      hand-over its bytes are `written` already. */
  method NoteBlock(c: Cache, k: FileKey, size: nat, idx: nat, data: Bytes, now: int, written: bool)
    requires c.Valid() && Fits(c.st, k, size, idx, data)
    modifies c
    ensures c.Valid()
    ensures var s' := FillPart(old(c.st), k, size, idx, data, now);
      c.st == if written then s'.(partFile := old(c.st).partFile) else s'
  {
    hide Tidy, Exact, PartBytes, PieceCount, BlockLen, WithBlock;
    var (p, file) := PartBefore(c.st, k, size, now);
    var f := FileOf(c.st, k);
    var grown := if idx in p.bits then 0 else |data|;
    var p' := p.(bits := p.bits + {idx}, lastAccess := now);
    var files := c.st.files[k := f.(size := p.size, present := f.present + {idx}, generation := f.generation + 1)];
    var partFile := if written then c.st.partFile else c.st.partFile[k := WithBlock(c.st.cfg, file, idx, data)];
    NoteTotals(c.st.cfg, p, idx, |data|, now);
    EmptyPart(c.st.cfg, c.st.nextTag, size, now);
    FillTotals(c.st, k, p', files, partFile, c.st.nextTag + 1);
    c.totals := c.totals.(part := c.totals.part + grown);
    c.st := c.st.(parts := c.st.parts[k := p'], files := files, partFile := partFile, nextTag := c.st.nextTag + 1);
  }

  /** flushBlock ends. A flush whose block is not the one it took its bytes from any more
      only gives its charge back; one that failed takes its block with it; the others
      publish. */
  method EndFlush(c: Cache, u: nat, ok: bool)
    requires c.Valid() && u in c.st.flushes
    modifies c
    ensures c.Valid() && c.st == FlushFinish(old(c.st), u, ok)
  {
    hide Tidy, Exact, Unmark;
    ghost var s := c.st;
    var f := c.st.flushes[u];
    var owns := f.id in c.st.blocks && c.st.blocks[f.id].tag == u && c.st.blocks[f.id].mem.Some?;
    FlushOf(s, u);
    OverTotals(s, u);
    TidyOver(s, u);
    c.st := c.st.(flushes := c.st.flushes - {u});
    if !owns {
      c.totals := c.totals.(detached := c.totals.detached - |f.data|, detachedEntries := c.totals.detachedEntries - 1);
    } else if !ok || f.sparse {
      LoseBlock(c, f.id);
    } else {
      FlushedTotals(c.st, f.id, c.st.blockFile[f.id := f.data]);
      c.totals := c.totals.(pending := c.totals.pending - |f.data|);
      c.st := c.st.(blocks := c.st.blocks[f.id := c.st.blocks[f.id].(mem := None)],
                    blockFile := c.st.blockFile[f.id := f.data]);
    }
  }

  // flushMemToPart, section by section.

  /** ensurePart for a flush: the sparse file that is there, or an empty one. */
  method EnsurePart(c: Cache, u: nat, now: int)
    requires c.Valid() && u in c.st.flushes
    modifies c
    ensures c.Valid() && c.st == HandEnsure(old(c.st), u, now)
  {
    hide Tidy, Exact, Known, MadePart, PartBefore;
    ghost var s := c.st;
    var f := c.st.flushes[u];
    var k := f.id.file;
    if k !in c.st.parts {
      c.st := KnownAs(c, k);
      MadeTotals(c.st, k, f.size, now);
      MadeFields(c.st, k, f.size, now);
      c.st := MadePart(c.st, k, f.size, now);
    }
    var g := f.(part := Some(c.st.parts[k].tag));
    FoundTotals(c.st, u, g);
    c.st := c.st.(flushes := c.st.flushes[u := g]);
  }

  /** The file's record, made on first use; no total changes. */
  method KnownAs(c: Cache, k: FileKey) returns (st: State)
    requires c.Valid()
    ensures st == Known(c.st, k) && Exact(st) == Exact(c.st) && Tidy(st)
    ensures k in st.files && st.parts == c.st.parts && st.flushes == c.st.flushes
  {
    hide Tidy, Exact, Known;
    st := Known(c.st, k);
    KnownFields(c.st, k);
    KnownTotals(c.st, k);
    SameTotals(st.(lock := Free), st);
  }

  lemma MadeTotals(s: State, k: FileKey, size: nat, now: int)
    requires k !in s.parts
    ensures Exact(MadePart(s, k, size, now)) == Exact(s) && (Tidy(s) ==> Tidy(MadePart(s, k, size, now)))
  {
    hide Tidy, Exact, PartBytes;
    var (p, file) := PartBefore(s, k, size, now);
    EmptyPart(s.cfg, s.nextTag, size, now);
    FillTotals(s, k, p, s.files[k := FileOf(s, k).(size := size)], s.partFile[k := file], s.nextTag + 1);
  }

  lemma FoundTotals(s: State, u: nat, g: Flush)
    requires u in s.flushes && g == s.flushes[u].(part := g.part)
    ensures Exact(s.(flushes := s.flushes[u := g])) == Exact(s) && (Tidy(s) ==> Tidy(s.(flushes := s.flushes[u := g])))
  {
    hide Exact;
    SumUpdate(s.flushes, DetachedBytes, u, g);
    SumUpdate(s.flushes, DetachedOne, u, g);
    FlushTotals(s, s.flushes[u := g]);
    if Tidy(s) {
      var s' := s.(flushes := s.flushes[u := g]);
      forall v | v in s'.flushes ensures FlushAt(s', v) { assert FlushAt(s, v); }
    }
  }

  /** The bytes are written: the block leaves memory and the index, and nothing is charged
      with them. A flush that lost its block meanwhile just ends. */
  method DropHanded(c: Cache, u: nat)
    requires c.Valid() && u in c.st.flushes && c.st.flushes[u].part.Some?
    modifies c
    ensures c.Valid() && c.st == if Owns(old(c.st), u) then HandDrop(old(c.st), u) else FlushFinish(old(c.st), u, false)
    ensures Owns(old(c.st), u) ==>
      && c.totals.bytes == old(c.totals).bytes - old(c.st).blocks[old(c.st).flushes[u].id].size
      && c.totals.part == old(c.totals).part && c.totals.detached == old(c.totals).detached
  {
    hide Tidy, DropAll, HandWritten, Exact;
    ghost var s := c.st;
    var f := c.st.flushes[u];
    if !(f.id in c.st.blocks && c.st.blocks[f.id].tag == u && c.st.blocks[f.id].mem.Some?) {
      EndFlush(c, u, false);
      return;
    }
    FlushOf(s, u);
    OverTotals(s, u);
    TidyOver(s, u);
    ghost var was := c.totals;
    c.st := c.st.(flushes := c.st.flushes - {u});
    DropPlain(c.st, f.id);
    DropTotals(c.st, f.id);
    c.DropBlock(f.id);
    var n := Note(f.id, f.data, f.part.value);
    var notes, partFile := c.st.notes[u := n], HandWritten(c.st, n);
    NotesTotals(c.st, notes, partFile);
    WrittenSame(s, c.st, n);
    c.st := c.st.(notes := notes, partFile := partFile);
  }

  lemma WrittenSame(s: State, s': State, n: Note)
    requires s'.cfg == s.cfg && s'.parts == s.parts && s'.partFile == s.partFile
    ensures HandWritten(s', n) == HandWritten(s, n)
  {
  }

  lemma NotesTotals(s: State, notes: map<nat, Note>, partFile: map<FileKey, Bytes>)
    ensures var s' := s.(notes := notes, partFile := partFile); Exact(s') == Exact(s) && (Tidy(s) ==> Tidy(s'))
  {
    hide Tidy;
    if Tidy(s) { TidyBut(s, s.(notes := notes, partFile := partFile)); }
  }

  /** notePartBlock after a flush: the block counts from now on, if the sparse file is
      still the one it was written to. */
  method NoteHanded(c: Cache, u: nat, now: int)
    requires c.Valid() && u in c.st.notes
    requires var n := c.st.notes[u];
      Live(c.st, n) ==> Fits(c.st, n.id.file, c.st.parts[n.id.file].size, n.id.index, n.data)
    modifies c
    ensures c.Valid() && c.st == HandNote(old(c.st), u, now)
  {
    hide Tidy, Exact, FillPart, Fits;
    ghost var s := c.st;
    var n := c.st.notes[u];
    NotesTotals(c.st, c.st.notes - {u}, c.st.partFile);
    c.st := c.st.(notes := c.st.notes - {u});
    if n.id.file in c.st.parts && c.st.parts[n.id.file].tag == n.part {
      FitsStill(s, c.st, n.id.file, c.st.parts[n.id.file].size, n.id.index, n.data);
      NoteBlock(c, n.id.file, c.st.parts[n.id.file].size, n.id.index, n.data, now, true);
    }
  }

  /** The block of a failed flush goes with its presence mark. */
  method LoseBlock(c: Cache, id: BlockId)
    requires c.Valid() && id in c.st.blocks && !Flushing(c.st, id)
    modifies c
    ensures c.Valid() && c.st == Unmarked(old(c.st).(blocks := old(c.st).blocks - {id}), id.file, id.index)
  {
    hide Tidy, Exact, DropAll, Unmark;
    DropPlain(c.st, id);
    c.DropBlock(id);
    SameTotals(c.st, c.st.(files := Unmark(c.st.files, id.file, {id.index})));
    c.st := c.st.(files := Unmark(c.st.files, id.file, {id.index}));
  }

  /** A block joins the sparse file under the admission lock. */
  method HandBlock(c: Cache, id: BlockId, data: Bytes, now: int)
    requires c.Valid() && id in c.st.blocks && Fits(c.st, id.file, FileOf(c.st, id.file).size, id.index, data)
    modifies c
    ensures c.Valid() && c.st == HandOver(old(c.st), id, data, now)
  {
    hide Tidy, Exact, DropAll, FillPart, Fits, FileOf;
    ghost var s := c.st;
    var size := FileOf(c.st, id.file).size;
    c.DropBlock(id);
    DropKeys(s, id);
    FitsStill(s, c.st, id.file, size, id.index, data);
    NoteBlock(c, id.file, size, id.index, data, now, false);
  }

  lemma HandedOver(s: State, id: BlockId, data: Bytes, now: int)
    ensures var s' := HandOver(s, id, data, now);
      id !in s'.blocks && id.file in s'.parts && id.index in s'.parts[id.file].bits
  {
    hide WithBlock;
  }

  lemma SameFile(s: State, s': State, k: FileKey)
    requires s'.files == s.files
    ensures FileOf(s', k) == FileOf(s, k)
  {
  }

  lemma FlushOf(s: State, u: nat)
    requires Tidy(s) && u in s.flushes
    ensures var f := s.flushes[u];
      && (Owns(s, u) <==> !f.detached)
      && (!f.detached ==> f.id in s.blocks && s.blocks[f.id].tag == u && s.blocks[f.id].mem == Some(f.data))
  {
    assert FlushAt(s, u);
  }

  /** Dropping a block whose flush is over detaches nothing. */
  lemma DropPlain(s: State, id: BlockId)
    requires Tidy(s) && !Flushing(s, id)
    ensures DropAll(s, {id}) == s.(blocks := s.blocks - {id})
  {
    hide DropAll;
    DetachIs(s, id);
    DropKeys(s, id);
  }

  lemma FitsStill(s: State, s': State, k: FileKey, size: nat, idx: nat, data: Bytes)
    requires Fits(s, k, size, idx, data) && s'.cfg == s.cfg && s'.parts == s.parts
    ensures Fits(s', k, size, idx, data)
  {
  }
}
