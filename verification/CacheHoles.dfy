/** A synchronous range put over sub-blocks that are only in memory: it counts them,
    promotes the block, and what a reader then finds in their place is whatever the
    block's file held before. */
module CacheHoles {

  import opened Common
  import opened Bitmap
  import opened Geometry
  import opened Ranges
  import opened CacheModel
  import opened CacheInvariant
  import opened CacheSteps
  import opened CacheKeepsBlocks
  import opened CacheBudget
  import opened CacheRuns

  /** Where sub-block i begins. */
  function SubStart(c: Config, i: nat): nat {
    i * c.subSize
  }

  lemma CutPiece(T: Bytes, sub: nat, i: nat)
    ensures i * sub >= 0 && Cut(T, i * sub, PieceLen(sub, i, |T|)) == Piece(T, sub, i)
  {
  }

  /** The promoted block and its file. */
  lemma SyncPromotes(s: State, id: BlockId, off: nat, data: Bytes, size: nat, now: int)
    requires LeavesHole(s.cfg, s.blocks, id, off, |data|, size) && id.file in s.files && s.blocks[id].mem.None?
    ensures var s', L := PutRangeSync(s, id, off, data, size, now), BlockLen(s.cfg, id.index, size);
      && s'.cfg == s.cfg && s'.parts == s.parts && id in s'.blocks && s'.blocks[id].bits.None? &&
         s'.blocks[id].mem.None?
      && Lookup(s'.blockFile, id) == Some(WriteAt(BaseFile(s, id, L), off, data))
      && s'.blocks[id].size == SyncEdit(s, id, off, data, size, now).block.value.size
  {
    hide WriteAt, Covered, PieceCount, BlockLen, Missing, BaseFile;
    PutRangeSyncIsEdit(s.(lock := Free), id, off, data, size, now);
    SameBase(s, id, BlockLen(s.cfg, id.index, size));
    assert Known(s, id.file) == s;
  }

  lemma SameBase(s: State, id: BlockId, L: nat)
    ensures BaseFile(s.(lock := Free), id, L) == BaseFile(s, id, L)
  {
  }

  lemma CompleteSize(s: State, t: Truth, id: BlockId, off: nat, data: Bytes, size: nat, now: int)
    requires KeyOk(s, t, id.file) && RangeSlice(s.cfg, t, id, off, data, size)
    requires LeavesHole(s.cfg, s.blocks, id, off, |data|, size)
    ensures SyncEdit(s, id, off, data, size, now).block.value.size == |BlockTruth(s.cfg, t, id)|
  {
    hide PartOk, Piece, WriteAt, Cut, Aligned, Covered;
    var T, sub := BlockTruth(s.cfg, t, id), s.cfg.subSize;
    assert BlockAt(s, t, id);
    var bits := s.blocks[id].bits.value + Missing(s.cfg, s.blocks, id, off, |data|);
    forall j | j in bits ensures j < PieceCount(sub, |T|) {
      if Named(sub, off, |data|, j) { NamedInside(sub, off, |data|, |T|, j); }
    }
    FullMeansAll(bits, PieceCount(sub, |T|));
    AllPiecesTile(sub, |T|);
  }

  /** Outside the range the promoted block's file is what the file was before. */
  lemma HoleFile(s: State, t: Truth, id: BlockId, off: nat, data: Bytes, size: nat, now: int, i: nat)
    requires KeyOk(s, t, id.file) && RangeSlice(s.cfg, t, id, off, data, size)
    requires LeavesHole(s.cfg, s.blocks, id, off, |data|, size) && !Named(s.cfg.subSize, off, |data|, i)
    ensures var s', T := PutRangeSync(s, id, off, data, size, now), BlockTruth(s.cfg, t, id);
      && s'.cfg == s.cfg && s'.parts == s.parts && id in s'.blocks && s'.blocks[id].bits.None? &&
         s'.blocks[id].mem.None?
      && s'.blocks[id].size == |T| && id in s'.blockFile && |s'.blockFile[id]| == |T|
      && Piece(s'.blockFile[id], s.cfg.subSize, i) == Piece(BaseFile(s, id, |T|), s.cfg.subSize, i)
  {
    hide PartOk, Piece, WriteAt, Cut, Aligned, Covered, PutRangeSync, SyncEdit, LeavesHole, Named;
    var T := BlockTruth(s.cfg, t, id);
    HoleBlock(s, t, id, off, |data|, size);
    SyncPromotes(s, id, off, data, size, now);
    CompleteSize(s, t, id, off, data, size, now);
    WriteRange(T, BaseFile(s, id, |T|), s.cfg.subSize, off, |data|, i);
  }

  lemma HoleBlock(s: State, t: Truth, id: BlockId, off: nat, n: nat, size: nat)
    requires KeyOk(s, t, id.file) && LeavesHole(s.cfg, s.blocks, id, off, n, size) && size == |t(id.file)|
    ensures id in s.blocks && id.file in s.files && s.blocks[id].mem.None?
    ensures BlockLen(s.cfg, id.index, size) == |BlockTruth(s.cfg, t, id)|
  {
    hide PartOk, Covered;
    assert BlockAt(s, t, id);
  }

  /** A read of a sub-block outside the range is then a hit, and returns what the block's
      file held there before the put. */
  lemma HoleReads(s: State, t: Truth, id: BlockId, off: nat, data: Bytes, size: nat, now: int, i: nat)
    requires Inv(s, t) && RangeSlice(s.cfg, t, id, off, data, size)
    requires LeavesHole(s.cfg, s.blocks, id, off, |data|, size)
    requires !(id.file in s.parts && id.index in s.parts[id.file].bits)
    requires i in s.blocks[id].subs && !Named(s.cfg.subSize, off, |data|, i)
    ensures var s', T := PutRangeSync(s, id, off, data, size, now), BlockTruth(s.cfg, t, id);
      ReadAt(s', id.file, id.index, SubStart(s.cfg, i), PieceLen(s.cfg.subSize, i, |T|)) ==
        Some(Piece(BaseFile(s, id, |T|), s.cfg.subSize, i))
  {
    hide TagsInv, WholeInv, FlushInv, InstallInv, LockOk, Piece, PartOk, Cut, Aligned, Covered, PutRangeSync, BaseFile,
         Named;
    var T, sub := BlockTruth(s.cfg, t, id), s.cfg.subSize;
    assert KeyOk(s, t, id.file) && BlockAt(s, t, id);
    PieceInRange(sub, i, |T|);
    HoleFile(s, t, id, off, data, size, now, i);
    var s' := PutRangeSync(s, id, off, data, size, now);
    CutPiece(s'.blockFile[id], sub, i);
  }

  /** So the hit is right exactly when the file held the real sub-block already. */
  lemma HoleIsRight(s: State, t: Truth, id: BlockId, off: nat, data: Bytes, size: nat, now: int, i: nat)
    requires Inv(s, t) && RangeSlice(s.cfg, t, id, off, data, size)
    requires LeavesHole(s.cfg, s.blocks, id, off, |data|, size)
    requires !(id.file in s.parts && id.index in s.parts[id.file].bits)
    requires i in s.blocks[id].subs && !Named(s.cfg.subSize, off, |data|, i)
    ensures var s', T := PutRangeSync(s, id, off, data, size, now), BlockTruth(s.cfg, t, id);
      var at, p := SubStart(s.cfg, i), PieceLen(s.cfg.subSize, i, |T|);
      ReadAt(s', id.file, id.index, at, p) == Some(Cut(T, at, p)) <==> !Stale(s, t, id, off, |data|, i)
  {
    hide Inv, ReadAt, PutRangeSync, RangeSlice, BlockTruth, BaseFile, Piece, Missing, PieceCount, Named;
    HoleReads(s, t, id, off, data, size, now, i);
    CutPiece(BlockTruth(s.cfg, t, id), s.cfg.subSize, i);
  }

  /** Before the block has a file, the hit is of zeros. */
  lemma HoleReadsAsZeros(s: State, t: Truth, id: BlockId, off: nat, data: Bytes, size: nat, now: int, i: nat)
    requires Inv(s, t) && RangeSlice(s.cfg, t, id, off, data, size)
    requires LeavesHole(s.cfg, s.blocks, id, off, |data|, size) && id !in s.blockFile
    requires !(id.file in s.parts && id.index in s.parts[id.file].bits)
    requires i in s.blocks[id].subs && !Named(s.cfg.subSize, off, |data|, i)
    ensures var s', p := PutRangeSync(s, id, off, data, size, now),
      PieceLen(s.cfg.subSize, i, |BlockTruth(s.cfg, t, id)|);
      ReadAt(s', id.file, id.index, SubStart(s.cfg, i), p) == Some(Zeros(p))
  {
    hide Inv, LeavesHole, ReadAt, PutRangeSync, RangeSlice, BlockTruth;
    HoleReads(s, t, id, off, data, size, now, i);
    var L := |BlockTruth(s.cfg, t, id)|;
    assert BaseFile(s, id, L) == Zeros(L);
    assert Piece(Zeros(L), s.cfg.subSize, i) == Zeros(PieceLen(s.cfg.subSize, i, L));
  }

  /** A synchronous range put keeps the invariant exactly when it spoils nothing. */
  lemma SyncKeepsExactly(s: State, t: Truth, id: BlockId, off: nat, data: Bytes, size: nat, now: int)
    requires Inv(s, t) && RangeSlice(s.cfg, t, id, off, data, size)
    ensures Inv(PutRangeSync(s, id, off, data, size, now), t) <==> !Spoils(s, t, id, off, |data|, size)
  {
    hide TagsInv, WholeInv, FlushInv, InstallInv, LockOk, RangeSlice, PutRangeSync, LeavesHole, PartialOk, PartOk,
         BlockTruth, BaseFile, Piece;
    if Spoils(s, t, id, off, |data|, size) {
      var i :| Stale(s, t, id, off, |data|, i);
      assert KeyOk(s, t, id.file);
      HoleFile(s, t, id, off, data, size, now, i);
      var s' := PutRangeSync(s, id, off, data, size, now);
      if Inv(s', t) {
        assert KeyOk(s', t, id.file) && BlockAt(s', t, id);
        WholeOrNot(s', t, id);
      }
    } else {
      PutRangeSyncKeeps(s, t, id, off, data, size, now);
    }
  }

  lemma WholeOrNot(s: State, t: Truth, id: BlockId)
    requires id in s.blocks && BlockAt(s, t, id) && s.blocks[id].bits.None? && s.blocks[id].mem.None?
    ensures Lookup(s.blockFile, id) == Some(BlockTruth(s.cfg, t, id))
  {
  }

  // Runs.

  /** The step may happen and carries real bytes. */
  ghost predicate Honestly(s: State, t: Truth, a: Action) {
    Enabled(s, a) && Honest(s, t, a)
  }

  /** Every step that stores only real bytes keeps the invariant exactly when it is not
      a range put that spoils a block or a merge of a file that claims a block that is
      nowhere. */
  lemma StepKeepsExactly(s: State, t: Truth, a: Action)
    requires Inv(s, t) && Honestly(s, t, a)
    ensures Inv(Next(s, a), t) <==> SpoilsNothing(s, t, a)
  {
    hide Inv, Spoils, PutRangeSync, AllBacked;
    if SpoilsNothing(s, t, a) {
      StepKeeps(s, t, a);
    } else if a.Admit? {
      MergeSpoils(s, t, a.admission.key);
    } else {
      SyncAsked(s, t, a.commit.data, a.commit.now);
      var r := s.lock.req;
      SyncKeepsExactly(s, t, r.id, r.off, a.commit.data, r.size, a.commit.now);
    }
  }

  /** A merge of a file that claims a block that is nowhere has no sound source. */
  lemma MergeSpoils(s: State, t: Truth, k: FileKey)
    requires Inv(s, t) && CanAdmit(s, AskHydrate(k)) && !AllBacked(s, k)
    ensures !Inv(Admitted(s, AskHydrate(k)), t)
  {
    hide TagsInv, WholeInv, FlushInv, InstallInv, BlockOk, PartOk, PieceCount;
    var s' := Admitted(s, AskHydrate(k));
    var i :| i in s.files[k].present && !Backed(s, k, i);
    assert KeyOk(s, t, k) && PresentAt(s, t, k);
    assert s'.lock.Asking? && s'.blocks == s.blocks && s'.cfg == s.cfg;
    assert !SourceOk(s', t, k) by { assert BlockId(k, i) !in s'.blocks || s'.blocks[BlockId(k, i)].bits.Some?; }
  }

  lemma SyncAsked(s: State, t: Truth, data: Bytes, now: int)
    requires Inv(s, t) && CanStore(s, CommitRangeSync(data, now)) && HonestData(s, t, CommitRangeSync(data, now))
    ensures RangeSlice(s.cfg, t, s.lock.req.id, s.lock.req.off, data, s.lock.req.size)
    ensures Stored(s, CommitRangeSync(data, now)) ==
      PutRangeSync(s, s.lock.req.id, s.lock.req.off, data, s.lock.req.size, now)
  {
    hide KeysInv, TagsInv, WholeInv, FlushInv, InstallInv, PutRangeSync, InstallOk;
  }

  ghost predicate HonestRun(s: State, t: Truth, acts: seq<Action>)
    decreases |acts|
  {
    acts == [] || (Honestly(s, t, acts[0]) && HonestRun(Next(s, acts[0]), t, acts[1..]))
  }

  /** What the cache holds is real after every step. */
  ghost predicate AlwaysReal(s: State, t: Truth, acts: seq<Action>)
    requires HonestRun(s, t, acts)
    decreases |acts|
  {
    Inv(s, t) && (acts == [] || AlwaysReal(Next(s, acts[0]), t, acts[1..]))
  }

  /** Whatever honest callers, workers and evictions do, what the cache holds is real
      after every step exactly when no range put spoiled a block and no file was merged
      that claimed a block that was nowhere. */
  lemma {:induction false} AlwaysRealExactly(s: State, t: Truth, acts: seq<Action>)
    requires Inv(s, t) && HonestRun(s, t, acts)
    ensures AlwaysReal(s, t, acts) <==> LawfulRun(s, t, acts)
    decreases |acts|
  {
    hide Inv, Enabled, Honest, SpoilsNothing, Next;
    if acts != [] {
      StepKeepsExactly(s, t, acts[0]);
      if SpoilsNothing(s, t, acts[0]) { AlwaysRealExactly(Next(s, acts[0]), t, acts[1..]); }
    }
  }

  // A run that gets there.

  lemma LawfulCons(s: State, t: Truth, a: Action, rest: seq<Action>)
    requires Lawful(s, t, a) && LawfulRun(Next(s, a), t, rest)
    ensures LawfulRun(s, t, [a] + rest) && Run(s, t, [a] + rest) == Run(Next(s, a), t, rest)
  {
    hide Lawful, Next;
    assert ([a] + rest)[1..] == rest;
  }

  /** A range put that needs room, and finds it, is asked for and granted. */
  lemma Granting(s: State, t: Truth, id: BlockId, off: nat, n: nat, size: nat)
    requires s.lock.Free? && Aligned(s.cfg.subSize, off, n, BlockLen(s.cfg, id.index, size))
    requires size == |t(id.file)| && id.index < BlockTotal(s.cfg, t, id.file)
    requires var room := Room(s, RangeReq(id, off, n, size)); room != (0, 0) && CapsHold(s, room.0, room.1)
    ensures Lawful(s, t, Admit(AskRange(id, off, n, size)))
    ensures var s1 := Next(s, Admit(AskRange(id, off, n, size)));
      Lawful(s1, t, Admit(Grant)) && Next(s1, Admit(Grant)) == s.(lock := Granted(RangeReq(id, off, n, size)))
  {
    hide Room, Aligned, BlockLen, Charge, Entries;
    var room := Room(s, RangeReq(id, off, n, size));
    SameLedger(s, s.(lock := Asking(RangeReq(id, off, n, size), room.0, room.1)), SweepReq);
  }

  /** The sub-blocks of a range. */
  function RangeBits(c: Config, off: nat, n: nat): set<nat> {
    Range(off / c.subSize + PieceCount(c.subSize, n)) - Range(off / c.subSize)
  }

  lemma FirstEntry(s: State, id: BlockId, off: nat, data: Bytes, L: nat, pinned: bool, now: int)
    requires id !in s.blocks
    ensures var b := Extended(s.cfg, RangeBlock(s, id, now), Missing(s.cfg, s.blocks, id, off, |data|), off, data, L,
                              true, pinned, now);
      b.bits == Some(RangeBits(s.cfg, off, |data|)) && b.subs.Keys == RangeBits(s.cfg, off, |data|)
  {
    hide Covered, PieceCount, PieceLen, Cut, Missing, RangeBits;
    NewMissing(s.cfg, s.blocks, id, off, |data|);
    var added := RangeBits(s.cfg, off, |data|);
    assert {} + added == added;
  }

  /** What there is nothing of is missing altogether. */
  lemma NewMissing(c: Config, blocks: map<BlockId, Block>, id: BlockId, off: nat, n: nat)
    requires id !in blocks
    ensures Missing(c, blocks, id, off, n) == RangeBits(c, off, n)
  {
    hide PieceCount;
  }

  /** A range put in memory where there was nothing. */
  lemma FirstRange(s: State, id: BlockId, off: nat, data: Bytes, size: nat, now: int)
    requires id !in s.blocks && s.files == map[]
    ensures var s' := PutRange(s, id, off, data, size, now);
      && s'.cfg == s.cfg && s'.lock.Free? && s'.blockFile == s.blockFile && s'.parts == s.parts
      && id in s'.blocks && s'.blocks[id].bits == Some(RangeBits(s.cfg, off, |data|))
      && s'.blocks[id].subs.Keys == RangeBits(s.cfg, off, |data|)
  {
    hide Extended, Missing, RangeBlock, RangeBits, RangeFile, BlockLen, Known;
    KnownFields(s, id.file);
    var s1 := Known(s, id.file).(lock := Free);
    var f := RangeFile(s1, id.file, size);
    FirstEntry(s1, id, off, data, BlockLen(s.cfg, id.index, size), f.pinned || f.userPinned, now);
  }

  /** All sub-blocks of a block but the first in memory, and the first one put on disk. */
  lemma FirstCompletes(c: Config, blocks: map<BlockId, Block>, id: BlockId, size: nat)
    requires var L := BlockLen(c, id.index, size);
      && L > c.subSize && id in blocks && blocks[id].bits == Some(RangeBits(c, c.subSize, L - c.subSize))
      && blocks[id].subs.Keys == RangeBits(c, c.subSize, L - c.subSize)
    ensures LeavesHole(c, blocks, id, 0, c.subSize, size)
    ensures Missing(c, blocks, id, 0, c.subSize) == {0}
  {
    hide BlockLen, PieceCount, RangeBits;
    var L, sub := BlockLen(c, id.index, size), c.subSize;
    RestBits(c, L);
    OneCount(sub);
    assert Missing(c, blocks, id, 0, sub) == {0};
    assert 1 in blocks[id].subs && !Named(sub, 0, sub, 1);
  }

  lemma RestBits(c: Config, L: nat)
    requires L > c.subSize
    ensures var bits := RangeBits(c, c.subSize, L - c.subSize);
      0 !in bits && 1 in bits && bits + {0} == Range(PieceCount(c.subSize, L)) &&
        |bits + {0}| == PieceCount(c.subSize, L)
  {
    hide PieceCount;
    RestCount(c.subSize, L);
    assert c.subSize / c.subSize == 1;
    assert RangeBits(c, c.subSize, L - c.subSize) + {0} == Range(PieceCount(c.subSize, L));
  }

  lemma RestCount(sub: nat, L: nat)
    requires 0 < sub < L
    ensures PieceCount(sub, L) == 1 + PieceCount(sub, L - sub) >= 2
  {
    var q := (L - sub - 1) / sub;
    DivUnique(L - sub - 1, q, sub);
    assert (q + 1) * sub == q * sub + sub && (q + 2) * sub == (q + 1) * sub + sub;
    DivUnique(L - 1, q + 1, sub);
  }

  lemma OneCount(sub: nat)
    requires sub > 0
    ensures PieceCount(sub, sub) == 1
  {
    DivUnique(sub - 1, 0, sub);
  }

  /** Sub-block i of the block is not all zeros. */
  ghost predicate NotZeros(T: Bytes, sub: nat, i: nat) {
    Piece(T, sub, i) != Zeros(PieceLen(sub, i, |T|))
  }

  lemma FreshBase(s: State, id: BlockId, L: nat, sub: nat, i: nat)
    requires id !in s.blockFile
    ensures Piece(BaseFile(s, id, L), sub, i) == Zeros(PieceLen(sub, i, L))
  {
    assert BaseFile(s, id, L) == Zeros(L);
  }

  /** Which sub-blocks the put of the first one spoils. */
  lemma FirstSpoils(s: State, t: Truth, id: BlockId, size: nat)
    requires size == |t(id.file)| && id !in s.blockFile
    requires var L := BlockLen(s.cfg, id.index, size);
      && L > s.cfg.subSize && id in s.blocks &&
         s.blocks[id].bits == Some(RangeBits(s.cfg, s.cfg.subSize, L - s.cfg.subSize))
      && s.blocks[id].subs.Keys == RangeBits(s.cfg, s.cfg.subSize, L - s.cfg.subSize)
    ensures LeavesHole(s.cfg, s.blocks, id, 0, s.cfg.subSize, size)
    ensures var T := BlockTruth(s.cfg, t, id);
      Spoils(s, t, id, 0, s.cfg.subSize, size) <==>
        exists i :: 1 <= i < PieceCount(s.cfg.subSize, |T|) && NotZeros(T, s.cfg.subSize, i)
  {
    hide LeavesHole, PieceCount, RangeBits, BaseFile, Piece, PieceLen, NotZeros, Stale, BlockLen, BlockTruth;
    var T, sub := BlockTruth(s.cfg, t, id), s.cfg.subSize;
    TruthLength(s.cfg, t, id);
    FirstCompletes(s.cfg, s.blocks, id, size);
    forall i: nat ensures Stale(s, t, id, 0, sub, i) <==> 1 <= i < PieceCount(sub, |T|) && NotZeros(T, sub, i) {
      FirstStale(s, t, id, |T|, i);
    }
  }

  lemma TruthLength(c: Config, t: Truth, id: BlockId)
    ensures |BlockTruth(c, t, id)| == BlockLen(c, id.index, |t(id.file)|)
  {
  }

  lemma FirstStale(s: State, t: Truth, id: BlockId, L: nat, i: nat)
    requires L == |BlockTruth(s.cfg, t, id)| > s.cfg.subSize && id in s.blocks && id !in s.blockFile
    requires s.blocks[id].subs.Keys == RangeBits(s.cfg, s.cfg.subSize, L - s.cfg.subSize)
    ensures Stale(s, t, id, 0, s.cfg.subSize, i) <==>
      1 <= i < PieceCount(s.cfg.subSize, L) && NotZeros(BlockTruth(s.cfg, t, id), s.cfg.subSize, i)
  {
    hide PieceCount, RangeBits, BaseFile, Piece, PieceLen, BlockTruth;
    FreshBase(s, id, L, s.cfg.subSize, i);
    RestBits(s.cfg, L);
    OneCount(s.cfg.subSize);
    assert i in RangeBits(s.cfg, s.cfg.subSize, L - s.cfg.subSize) + {0} <==> i in Range(PieceCount(s.cfg.subSize, L));
  }

  /** From an empty cache with the caps off, for every file with more than one sub-block
      in its first block: two range puts by honest callers, the second after the cache was
      closed and therefore synchronous, reach the promotion, and it spoils the block
      exactly when the rest of it is not all zeros. */
  lemma HoleIsReachable(s: State, t: Truth, k: FileKey) returns (acts: seq<Action>)
    requires Fresh(s) && BlockId(k, 0) !in s.blockFile && s.cfg.maxBytes == 0 && s.cfg.maxBlocks == 0
    requires |BlockTruth(s.cfg, t, BlockId(k, 0))| > s.cfg.subSize
    ensures LawfulRun(s, t, acts)
    ensures var s', id := Run(s, t, acts), BlockId(k, 0);
      var T := BlockTruth(s.cfg, t, id);
      && Inv(s', t) && Honestly(s', t, Store(CommitRangeSync(Cut(T, 0, s.cfg.subSize), 0)))
      && s'.closed && s'.cfg == s.cfg && s'.lock == Granted(RangeReq(id, 0, s.cfg.subSize, |t(k)|))
      && LeavesHole(s.cfg, s'.blocks, id, 0, s.cfg.subSize, |t(k)|)
      && (Spoils(s', t, id, 0, s.cfg.subSize, |t(k)|) <==>
            exists i :: 1 <= i < PieceCount(s.cfg.subSize, |T|) && NotZeros(T, s.cfg.subSize, i))
  {
    hide Inv, Lawful, Next, Room, LeavesHole, Spoils, PutRange, RangeBits, Cut, NotZeros, Piece, PieceCount, LawfulRun,
         Run, BlockTruth;
    var id, size, sub := BlockId(k, 0), |t(k)|, s.cfg.subSize;
    var T := BlockTruth(s.cfg, t, id);
    var L := |T|;
    FirstAsks(s, t, k);
    Granting(s, t, id, sub, L - sub, size);
    var a1, a2, a3 := Admit(AskRange(id, sub, L - sub, size)), Admit(Grant),
      Store(CommitRange(Cut(T, sub, L - sub), 0));
    var s2 := s.(lock := Granted(RangeReq(id, sub, L - sub, size)));
    RestCommits(s2, t, id, size);
    FirstRange(s2, id, sub, Cut(T, sub, L - sub), size, 0);
    var s3 := Next(s2, a3);
    var a4, a5 := Do(CloseCache), Admit(AskRange(id, 0, sub, size));
    Closing(s3, t);
    var s4 := s3.(closed := true);
    SecondAsks(s4, t, id, size);
    Granting(s4, t, id, 0, sub, size);
    var s6 := s4.(lock := Granted(RangeReq(id, 0, sub, size)));
    FirstSpoils(s6, t, id, size);
    NoMoreSteps(s6, t);
    LawfulCons(Next(s4, a5), t, a2, []);
    LawfulCons(s4, t, a5, [a2] + []);
    LawfulCons(s3, t, a4, [a5] + ([a2] + []));
    LawfulCons(s2, t, a3, [a4] + ([a5] + ([a2] + [])));
    LawfulCons(Next(s, a1), t, a2, [a3] + ([a4] + ([a5] + ([a2] + []))));
    LawfulCons(s, t, a1, [a2] + ([a3] + ([a4] + ([a5] + ([a2] + [])))));
    acts := [a1] + ([a2] + ([a3] + ([a4] + ([a5] + ([a2] + [])))));
    FreshInv(s, t);
    RunKeeps(s, t, acts);
    SyncIsHonest(s6, t, id, size);
  }

  lemma Closing(s: State, t: Truth)
    ensures Lawful(s, t, Do(CloseCache)) && Next(s, Do(CloseCache)) == s.(closed := true)
  {
  }

  lemma NoMoreSteps(s: State, t: Truth)
    ensures LawfulRun(s, t, []) && Run(s, t, []) == s
  {
  }

  lemma FirstAsks(s: State, t: Truth, k: FileKey)
    requires s.blocks == map[] && |BlockTruth(s.cfg, t, BlockId(k, 0))| > s.cfg.subSize
    ensures var L, id := |BlockTruth(s.cfg, t, BlockId(k, 0))|, BlockId(k, 0);
      && L == BlockLen(s.cfg, 0, |t(k)|) && 0 < BlockTotal(s.cfg, t, k) &&
         Aligned(s.cfg.subSize, s.cfg.subSize, L - s.cfg.subSize, L)
      && Room(s, RangeReq(id, s.cfg.subSize, L - s.cfg.subSize, |t(k)|)) != (0, 0)
  {
    PieceInRange(s.cfg.blockSize, 0, |t(k)|);
  }

  lemma RestCommits(s: State, t: Truth, id: BlockId, size: nat)
    requires var T := BlockTruth(s.cfg, t, id);
      |T| > s.cfg.subSize && s.lock == Granted(RangeReq(id, s.cfg.subSize, |T| - s.cfg.subSize, size))
    ensures var T := BlockTruth(s.cfg, t, id);
      var data := Cut(T, s.cfg.subSize, |T| - s.cfg.subSize);
      && Lawful(s, t, Store(CommitRange(data, 0))) && |data| == |T| - s.cfg.subSize
      && Next(s, Store(CommitRange(data, 0))) == PutRange(s, id, s.cfg.subSize, data, size, 0)
  {
    hide PutRange, BlockTruth;
  }

  lemma SecondAsks(s: State, t: Truth, id: BlockId, size: nat)
    requires size == |t(id.file)| && id.index < BlockTotal(s.cfg, t, id.file) && id in s.blocks
    requires var L := BlockLen(s.cfg, id.index, size);
      && L > s.cfg.subSize && s.blocks[id].bits == Some(RangeBits(s.cfg, s.cfg.subSize, L - s.cfg.subSize))
      && s.blocks[id].subs.Keys == RangeBits(s.cfg, s.cfg.subSize, L - s.cfg.subSize)
    ensures var L := BlockLen(s.cfg, id.index, size);
      Aligned(s.cfg.subSize, 0, s.cfg.subSize, L) && Room(s, RangeReq(id, 0, s.cfg.subSize, size)) != (0, 0)
  {
    hide Covered, BlockLen, RangeBits, PieceCount, LeavesHole, Missing;
    var L, sub := BlockLen(s.cfg, id.index, size), s.cfg.subSize;
    FirstCompletes(s.cfg, s.blocks, id, size);
    RestCount(sub, L);
    CoveredAdd(sub, L, {}, PieceCount(sub, L), 0);
    PieceInRange(sub, 0, L);
    assert {} + {0} == {0};
  }

  lemma SyncIsHonest(s: State, t: Truth, id: BlockId, size: nat)
    requires s.lock == Granted(RangeReq(id, 0, s.cfg.subSize, size)) && |BlockTruth(s.cfg, t, id)| > s.cfg.subSize
    ensures Honestly(s, t, Store(CommitRangeSync(Cut(BlockTruth(s.cfg, t, id), 0, s.cfg.subSize), 0)))
  {
    hide BlockTruth;
  }
}
