/** Stale flushes, and the places where the code does less than its comments say:
    what goes wrong there, for every state in which it can. */
module CacheFindings {

  import opened Common
  import opened Geometry
  import opened Ranges
  import opened CacheModel
  import opened CacheInvariant
  import opened CacheSteps
  import opened CacheEdits
  import opened CacheCharge
  import opened CacheBudget
  import opened CacheBudgetSteps
  import opened CacheBudgetHands
  import opened CacheCaps
  import opened CacheKeepsBlocks
  import opened CacheKeepsWhole
  import opened CacheKeepsHands

  // A flush that outlives its block.

  /** The end of a flush whose block is no longer the one it took its bytes from, for
      whatever reason: nothing is published, and the charge of its copy is given back. */
  lemma StaleFlush(s: State, t: Truth, u: nat, ok: bool)
    requires Inv(s, t) && u in s.flushes && !Owns(s, u)
    ensures var s' := FlushFinish(s, u, ok);
      && s' == s.(flushes := s.flushes - {u})
      && Charge(s') == Charge(s) - |s.flushes[u].data| && Entries(s') == Entries(s) - 1
  {
    hide Inv, Charge, Entries, Weight, FlushFinish;
    InvParts(s, t);
    OwnsExactly(s, u);
    StaleIs(s, u, ok);
    DetachedOver(s, u, InBytes());
    DetachedOver(s, u, InEntries());
    Ledger(s);
    Ledger(s.(flushes := s.flushes - {u}));
  }

  /** Whatever takes a block out of the index while it is being flushed leaves its flush
      stale, with its bytes. */
  lemma DroppedFlush(s: State, t: Truth, id: BlockId, ids: set<BlockId>)
    requires Inv(s, t) && Flushing(s, id) && id in ids
    ensures var u, s1 := s.blocks[id].tag, DropAll(s, ids);
      u in s1.flushes && !Owns(s1, u) && s1.flushes[u] == s.flushes[u].(detached := true)
  {
    hide KeysInv, WholeInv, InstallInv, HandInv, LockOk;
    assert FlushAt(s, s.blocks[id].tag);
  }

  /** So do eviction, Forget and a put of the block: the bytes stay charged, to the flush,
      until it ends. */
  lemma EvictedMidFlush(s: State, t: Truth, id: BlockId)
    requires Inv(s, t) && Flushing(s, id)
    ensures var u, s1 := s.blocks[id].tag, DropBlock(s, id);
      && u in s1.flushes && !Owns(s1, u) && s1.flushes[u].data == s.flushes[u].data
      && Charge(s1) == Charge(s) && Entries(s1) == Entries(s)
  {
    hide Inv, Charge, Entries, Edited, DropAll, DropBlock;
    var s1 := DropBlock(s, id);
    InvKnown(s, t, id);
    FlushedSize(s, t, id);
    DropBlockIsEdit(s, id);
    WeighEdit(s, t, EvictEdit(s, id), true, 0);
    LockWeighsNothing(s1);
    DroppedFlush(s, t, id, {id});
    DropBlockIndex(s, id);
    StaysStale(DropAll(s, {id}), s1, s.blocks[id].tag);
  }

  lemma DropBlockIndex(s: State, id: BlockId)
    ensures DropBlock(s, id).flushes == DropAll(s, {id}).flushes && DropBlock(s, id).blocks == DropAll(s, {id}).blocks
  {
  }

  lemma StaysStale(s: State, s': State, u: nat)
    requires u in s.flushes && !Owns(s, u) && s'.flushes == s.flushes && s'.blocks == s.blocks
    ensures u in s'.flushes && !Owns(s', u)
  {
  }

  lemma ForgottenMidFlush(s: State, t: Truth, id: BlockId)
    requires Inv(s, t) && Flushing(s, id)
    ensures var u, s1 := s.blocks[id].tag, Forget(s, id.file);
      u in s1.flushes && !Owns(s1, u) && s1.flushes[u].data == s.flushes[u].data
  {
    hide Inv, DropAll, Detach, Forget;
    var k := id.file;
    InvKnown(s, t, id);
    DroppedFlush(s, t, id, BlocksOf(s, k));
    DetachKeeps(s, t, k);
    ForgetIndex(s, k);
    StaysStale(DropAll(s, BlocksOf(s, k)), Forget(s, k), s.blocks[id].tag);
  }

  lemma ForgetIndex(s: State, k: FileKey)
    requires k in s.files && WholeOnly(s, Detach(s, k))
    ensures var s1 := DropAll(s, BlocksOf(s, k));
      Forget(s, k).flushes == s1.flushes && Forget(s, k).blocks == s1.blocks
  {
    hide Detach;
  }

  lemma ReplacedMidFlush(s: State, t: Truth, id: BlockId, data: Bytes, size: nat, async: bool, now: int)
    requires Inv(s, t) && Flushing(s, id)
    ensures var u, s1 := s.blocks[id].tag, PutBlock(s, id, data, size, async, now);
      && u in s1.flushes && !Owns(s1, u) && s1.flushes[u].data == s.flushes[u].data
      && Charge(s1) == Charge(s) + |data| && Entries(s1) == Entries(s) + 1
  {
    hide Inv, Charge, Entries, DropAll, PutBlock;
    PutBlockCharge(s, t, id, data, size, async, now);
    FlushedSize(s, t, id);
    DroppedFlush(s, t, id, {id});
    ReplaceIndex(s, id, data, size, async, now);
    TagUsed(s, t, id);
  }

  lemma TagUsed(s: State, t: Truth, id: BlockId)
    requires Inv(s, t) && id in s.blocks
    ensures s.blocks[id].tag < s.nextTag
  {
    hide KeysInv, WholeInv, InstallInv, HandInv, LockOk, FlushInv;
  }

  lemma ReplaceIndex(s: State, id: BlockId, data: Bytes, size: nat, async: bool, now: int)
    ensures var s1 := PutBlock(s, id, data, size, async, now);
      && s1.flushes == DropAll(s, {id}).flushes && id in s1.blocks && s1.blocks[id].tag >= s.nextTag
      && s1.blocks == s.blocks[id := s1.blocks[id]]
  {
    hide Known;
    KnownFields(s, id.file);
    KnownTag(s, id.file);
  }

  lemma KnownTag(s: State, k: FileKey)
    ensures Known(s, k).nextTag >= s.nextTag
  {
    if k in s.files { assert Known(s, k) == s; }
  }

  // A range put overtaken by the hand-over of its block.

  lemma {:induction false} CoveredAtLeast(unit: nat, size: nat, bits: set<nat>, n: nat, i: nat)
    requires i in bits && i < n
    ensures Covered(unit, size, bits, n) >= PieceLen(unit, i, size)
  {
    if i < n - 1 { CoveredAtLeast(unit, size, bits, n - 1, i); }
  }

  lemma OvertakenGrowth(s: State, t: Truth, u: nat, s1: State)
    requires Inv(s, t) && CanDo(s, DropHanded(u)) && Overtaken(s, u) && s1.cfg == s.cfg && s.lock.req.id !in s1.blocks
    ensures var r := s.lock.req;
      GrowthBytes(s, r) == 0 && GrowthEntries(s, r) == 0 && GrowthBytes(s1, r) > 0 && GrowthEntries(s1, r) == 1
  {
    hide TagsInv, WholeInv, FlushInv, InstallInv, HandInv, KeyOk, BlockOk, Piece, Covered, Aligned, PieceCount;
    var r := s.lock.req;
    OwnsExactly(s, u);
    FlushIsReal(s, t, u);
    var L, first := BlockLen(s.cfg, r.id.index, r.size), r.off / s.cfg.subSize;
    assert Named(s.cfg.subSize, r.off, r.n, first) by { FirstNamed(s.cfg.subSize, r.off, r.n, L); }
    NamedInside(s.cfg.subSize, r.off, r.n, L, first);
    CoveredAtLeast(s.cfg.subSize, L, Missing(s1.cfg, s1.blocks, r.id, r.off, r.n), PieceCount(s.cfg.subSize, L), first);
  }

  lemma FirstNamed(sub: nat, off: nat, n: nat, L: nat)
    requires sub > 0 && Aligned(sub, off, n, L)
    ensures Named(sub, off, n, off / sub)
  {
  }

  /** Both caps hold with these totals and nothing granted. */
  predicate Fits(c: Config, bytes: int, entries: int) {
    (c.maxBytes > 0 ==> bytes <= c.maxBytes) && (c.maxBlocks > 0 ==> entries <= c.maxBlocks)
  }

  /** The whole block a range put found needs no room. When the block leaves the index for
      its sparse file before the put commits, the put makes a new entry that nothing
      admitted: exactly this much once the block is noted, and the caps hold exactly when
      it fits. */
  lemma OvertakenPutExceeds(s: State, t: Truth, u: nat, data: Bytes, sync: bool, now: int, s1: State, s2: State)
    requires Inv(s, t) && CanDo(s, DropHanded(u)) && Overtaken(s, u) && s1 == HandDrop(s, u)
    requires var r := s.lock.req;
      && RangeSlice(s.cfg, t, r.id, r.off, data, r.size) && |data| == r.n
      && s2 == if sync then PutRangeSync(s1, r.id, r.off, data, r.size, now)
               else PutRange(s1, r.id, r.off, data, r.size, now)
    ensures var r := s.lock.req;
      GrowthBytes(s, r) == 0 && GrowthEntries(s, r) == 0 && GrowthBytes(s1, r) > 0 && GrowthEntries(s1, r) == 1
    ensures u in s1.notes && u in s2.notes
    ensures var s3 := HandNote(s2, u, now);
      var bytes := Charge(s) - |s.flushes[u].data| + NoteGrows(s1, u) + GrowthBytes(s1, s.lock.req);
      && Charge(s3) == bytes && Entries(s3) == Entries(s)
      && (WithinCaps(s3) <==> Fits(s.cfg, bytes, Entries(s)))
  {
    hide KeysInv, TagsInv, WholeInv, FlushInv, InstallInv, HandInv, HandDrop, HandNote, PutRange, PutRangeSync, Charge,
         Entries, RangeSlice, GrowthBytes, GrowthEntries, Spoils;
    var r := s.lock.req;
    HandDropKeeps(s, t, u);
    HandDropCharge(s, t, u);
    DroppedHands(s, u);
    OvertakenGrowth(s, t, u, s1);
    NothingSpoils(s1, t, r.id, r.off, |data|, r.size);
    PutRangeKeeps(s1, t, r.id, r.off, data, r.size, now);
    PutRangeSyncKeeps(s1, t, r.id, r.off, data, r.size, now);
    PutRangeCharge(s1, t, r.id, r.off, data, r.size, sync, now);
    PutRangeFields(s1, r.id, r.off, data, r.size, now);
    HandNoteCharge(s2, t, u, now);
  }

  lemma DroppedHands(s: State, u: nat)
    requires u in s.flushes && s.flushes[u].part.Some?
    ensures var s1, f := HandDrop(s, u), s.flushes[u];
      u in s1.notes && s1.notes[u] == Note(f.id, f.data, f.part.value) && f.id !in s1.blocks
  {
  }

  lemma NothingSpoils(s: State, t: Truth, id: BlockId, off: nat, n: nat, size: nat)
    requires id !in s.blocks
    ensures !Spoils(s, t, id, off, n, size)
  {
  }

  // What the sections of a hand-over do to the caps.

  /** One after the other they exchange the block's charge for the sparse file's. */
  lemma HandOverCharge(s: State, t: Truth, u: nat, now: int)
    requires Inv(s, t) && CanDo(s, EnsurePart(u, now)) && Owns(s, u)
    ensures var id, k, n, s1 := s.flushes[u].id, s.flushes[u].id.file, |s.flushes[u].data|, HandEnsure(s, u, now);
      && CanDo(s1, DropHanded(u)) && CanDo(HandDrop(s1, u), NoteHanded(u, now))
      && var s3 := HandNote(HandDrop(s1, u), u, now);
         && k in s3.parts && id.index in s3.parts[k].bits && id !in s3.blocks
         && Charge(s3) == Charge(s) - (if k in s.parts && id.index in s.parts[k].bits then n else 0)
         && Entries(s3) == Entries(s) - (if k in s.parts then 1 else 0)
  {
    hide KeysInv, TagsInv, WholeInv, FlushInv, InstallInv, HandInv, LockOk, Charge, Entries, HandEnsure, HandDrop,
         HandNote;
    HandEnsureKeeps(s, t, u, now);
    EnsureCharge(s, t, u, now);
    EnsuredHands(s, u, now);
    var s1 := HandEnsure(s, u, now);
    HandDropKeeps(s1, t, u);
    HandDropCharge(s1, t, u);
    DroppedHands(s1, u);
    DroppedParts(s1, u);
    var s2 := HandDrop(s1, u);
    HandNoteCharge(s2, t, u, now);
    NotedParts(s2, u, now);
  }

  lemma EnsuredHands(s: State, u: nat, now: int)
    requires u in s.flushes
    ensures var s1, f := HandEnsure(s, u, now), s.flushes[u];
      var k := f.id.file;
      && u in s1.flushes && k in s1.parts && s1.flushes[u] == f.(part := Some(s1.parts[k].tag))
      && s1.blocks == s.blocks && s1.cfg == s.cfg && s1.notes == s.notes
      && s1.parts[k].bits == (if k in s.parts then s.parts[k].bits else {})
  {
    hide Known, MadePart;
    var f := s.flushes[u];
    KnownFields(s, f.id.file);
    MadeFields(Known(s, f.id.file), f.id.file, f.size, now);
  }

  lemma DroppedParts(s: State, u: nat)
    requires u in s.flushes && s.flushes[u].part.Some?
    ensures HandDrop(s, u).parts == s.parts && HandDrop(s, u).blocks == s.blocks - {s.flushes[u].id}
  {
  }

  lemma NotedParts(s: State, u: nat, now: int)
    requires u in s.notes && Live(s, s.notes[u])
    ensures var s', id := HandNote(s, u, now), s.notes[u].id;
      s'.blocks == s.blocks && id.file in s'.parts && id.index in s'.parts[id.file].bits
  {
    hide FillPart;
    var n := s.notes[u];
    FillFields(s.(notes := s.notes - {u}), n.id.file, s.parts[n.id.file].size, n.id.index, n.data, now);
  }

  /** A sparse file made by a flush is one more entry than was admitted, and the caps hold
      exactly when that fits. */
  lemma MadePartExceeds(s: State, t: Truth, u: nat, now: int)
    requires Inv(s, t) && CanDo(s, EnsurePart(u, now)) && s.lock.Free? && MakesPart(s, u)
    ensures var s' := HandEnsure(s, u, now);
      && Charge(s') == Charge(s) && Entries(s') == Entries(s) + 1
      && (WithinCaps(s') <==> Fits(s.cfg, Charge(s), Entries(s) + 1))
  {
    hide Inv, HandEnsure, Charge, Entries;
    EnsureCharge(s, t, u, now);
  }

  /** A block noted in its sparse file is charged again, whatever was admitted since it left
      the index, and the caps hold exactly when that fits. */
  lemma NoteExceeds(s: State, t: Truth, u: nat, now: int)
    requires Inv(s, t) && CanDo(s, NoteHanded(u, now)) && s.lock.Free?
    ensures var s' := HandNote(s, u, now);
      && Charge(s') == Charge(s) + NoteGrows(s, u) && Entries(s') == Entries(s)
      && (WithinCaps(s') <==> Fits(s.cfg, Charge(s) + NoteGrows(s, u), Entries(s)))
  {
    hide Inv, HandNote, Charge, Entries, NoteGrows;
    HandNoteCharge(s, t, u, now);
  }
}
