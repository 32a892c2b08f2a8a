/** ReadAt takes the lock twice, to locate the range and to choose where to read it, and
    then reads without it. In between anything lawful may happen, both times. */
module ReadRaces {

  import opened Common
  import opened Bitmap
  import opened Geometry
  import opened Ranges
  import opened CacheModel
  import opened CacheInvariant
  import opened CacheSteps
  import opened CacheReads
  import opened CacheKeepsBlocks
  import opened CacheRuns
  import opened CacheFlows
  import opened CacheHoles

  // The configuration never changes.

  lemma {:induction false} RunConfig(s: State, t: Truth, acts: seq<Action>)
    requires Inv(s, t) && LawfulRun(s, t, acts)
    ensures Run(s, t, acts).cfg == s.cfg
    decreases |acts|
  {
    hide Inv, Enabled, Honest, SpoilsNothing, Next;
    if acts != [] {
      StepConfig(s, t, acts[0]);
      StepKeeps(s, t, acts[0]);
      RunConfig(Next(s, acts[0]), t, acts[1..]);
    }
  }

  /** How much of a range is fetched: no more than the length it was located with. */
  function Clipped(at: nat, off: nat, n: nat): nat {
    if off >= at then 0 else if n > at - off then at - off else n
  }

  /** Where the second section decides to read: bytes it has in hand, the sparse file it
      found, the block's own file with sub-blocks in hand over it, or the complete file. */
  datatype Source = InHand(data: Bytes) | Sparse(tag: nat) | OnDisk(subs: map<nat, Bytes>, len: nat) | Merged

  function Choose(s: State, k: FileKey, idx: nat): Source {
    var id := BlockId(k, idx);
    if k in s.parts && idx in s.parts[k].bits then Sparse(s.parts[k].tag)
    else if id !in s.blocks then Merged
    else if s.blocks[id].bits.Some? && s.blocks[id].subs != map[] then
      OnDisk(s.blocks[id].subs, BlockLen(s.cfg, idx, if k in s.files then s.files[k].size else 0))
    else if s.blocks[id].mem.Some? then InHand(s.blocks[id].mem.value)
    else OnDisk(map[], 0)
  }

  /** The bytes of the block as the source has them by now. */
  function Text(s: State, src: Source, k: FileKey, idx: nat): Option<Bytes> {
    var id := BlockId(k, idx);
    match src
    case InHand(data) => Some(data)
    case Sparse(u) =>
      if k in s.parts && s.parts[k].tag == u && k in s.partFile then Some(Piece(s.partFile[k], s.cfg.blockSize, idx))
      else None
    case OnDisk(subs, L) =>
      if subs != map[] then Some(Overlay(BaseFile(s, id, L), subs, s.cfg.subSize)) else Lookup(s.blockFile, id)
    case Merged =>
      if k in s.files && s.files[k].whole.Some? && s.files[k].whole.value in s.inodes then
        Some(Piece(s.inodes[s.files[k].whole.value], s.cfg.blockSize, idx))
      else None
  }

  /** What is read from it; None when the file is gone. */
  function ReadFrom(s: State, src: Source, k: FileKey, idx: nat, off: nat, n: nat): Option<Bytes> {
    if n == 0 then Some([])
    else if src.OnDisk? && BlockId(k, idx) !in s.blockFile &&
            exists x :: off <= x < off + n && x / s.cfg.subSize !in src.subs then None
    else
      match Text(s, src, k, idx)
      case None => None
      case Some(text) => Some(Cut(text, off, n))
  }

  /** When nothing happens in between, this is the read of the one-step model. */
  lemma ChooseAndRead(s: State, t: Truth, k: FileKey, idx: nat, off: nat, n: nat)
    requires Inv(s, t) && off + n <= |BlockTruth(s.cfg, t, BlockId(k, idx))|
    ensures ReadFrom(s, Choose(s, k, idx), k, idx, off, n) == ReadBlock(s, k, idx, off, n)
  {
    hide Inv, Cut, Overlay, Sized, Piece, BlockTruth, BlockLen;
    if k in s.parts && idx in s.parts[k].bits {
      SparseSpan(s, t, k, idx, off, n);
    } else if BlockId(k, idx) !in s.blocks && k in s.files && s.files[k].whole.Some? {
      MergedSpan(s, t, k, idx, off, n);
    }
  }

  /** A range inside a block, in the sparse file and in the block. */
  lemma SparseSpan(s: State, t: Truth, k: FileKey, idx: nat, off: nat, n: nat)
    requires Inv(s, t) && k in s.parts && off + n <= |BlockTruth(s.cfg, t, BlockId(k, idx))|
    ensures k in s.partFile
    ensures Cut(s.partFile[k], idx * s.cfg.blockSize + off, n) ==
      Cut(Piece(s.partFile[k], s.cfg.blockSize, idx), off, n)
  {
    hide WholeInv, TagsInv, FlushInv, InstallInv, HandInv, LockOk, BlockAt, PresentAt, Cut, Piece;
    assert KeyOk(s, t, k) && PartAt(s, t, k);
    CutOfPiece(s.partFile[k], s.cfg.blockSize, idx, off, n);
  }

  /** The same in the complete file. */
  lemma MergedSpan(s: State, t: Truth, k: FileKey, idx: nat, off: nat, n: nat)
    requires Inv(s, t) && k in s.files && s.files[k].whole.Some?
    requires off + n <= |BlockTruth(s.cfg, t, BlockId(k, idx))|
    ensures var o := s.files[k].whole.value;
      && o in s.inodes
      && Cut(s.inodes[o], idx * s.cfg.blockSize + off, n) == Cut(Piece(s.inodes[o], s.cfg.blockSize, idx), off, n)
  {
    hide KeysInv, TagsInv, FlushInv, InstallInv, HandInv, LockOk, ObjectAt, Cut, Piece;
    assert WholeAt(s, t, k);
    CutOfPiece(t(k), s.cfg.blockSize, idx, off, n);
  }

  /** Sub-block i is on disk and the index knows it. */
  predicate OnFile(s: State, id: BlockId, i: nat) {
    && id in s.blocks && s.blocks[id].mem.None?
    && (s.blocks[id].bits.Some? ==> i in s.blocks[id].bits.value && i !in s.blocks[id].subs)
  }

  /** The state answers for byte x of the source. */
  predicate Vouched(s: State, src: Source, k: FileKey, idx: nat, x: nat) {
    match src
    case InHand(_) => true
    case Sparse(_) => k in s.parts && idx in s.parts[k].bits
    case OnDisk(subs, _) => x / s.cfg.subSize in subs || OnFile(s, BlockId(k, idx), x / s.cfg.subSize)
    case Merged => true
  }

  predicate SameByte(r: Bytes, T: Bytes, x: nat) {
    x < |r| && x < |T| && r[x] == T[x]
  }

  lemma SameBytes(r: Bytes, T: Bytes, off: nat, m: nat)
    requires off + m <= |T|
    ensures Cut(r, off, m) == Cut(T, off, m) <==> forall x :: off <= x < off + m ==> SameByte(r, T, x)
  {
    if Cut(r, off, m) == Cut(T, off, m) {
      forall x | off <= x < off + m ensures SameByte(r, T, x) {
        assert Cut(r, off, m)[x - off] == Cut(T, off, m)[x - off];
      }
    } else if forall x :: off <= x < off + m ==> SameByte(r, T, x) {
      if m > 0 { assert SameByte(r, T, off + m - 1); }
      forall y | 0 <= y < m ensures y < |Cut(r, off, m)| && Cut(r, off, m)[y] == Cut(T, off, m)[y] {
        assert SameByte(r, T, off + y);
      }
    }
  }

  /** The source was chosen in a state the invariant describes. */
  ghost predicate ChosenOk(c: Config, src: Source, T: Bytes) {
    match src
    case InHand(data) => data == T
    case OnDisk(subs, L) =>
      subs != map[] ==> L == |T| && forall i :: i in subs ==> subs[i] == Piece(T, c.subSize, i)
    case _ => true
  }

  lemma ChoiceIsOk(s: State, t: Truth, k: FileKey, idx: nat)
    requires KeysInv(s, t)
    ensures ChosenOk(s.cfg, Choose(s, k, idx), BlockTruth(s.cfg, t, BlockId(k, idx)))
  {
    hide PartOk, Covered;
    var id := BlockId(k, idx);
    if id in s.blocks && !(k in s.parts && idx in s.parts[k].bits) {
      assert KeyOk(s, t, k) && BlockAt(s, t, id);
      if s.blocks[id].bits.Some? {
        PartialBlock(s, t, id);
        forall i | i in s.blocks[id].subs
          ensures s.blocks[id].subs[i] == Piece(BlockTruth(s.cfg, t, id), s.cfg.subSize, i)
        {
          assert SubOk(s.cfg, s.blocks[id], Lookup(s.blockFile, id), BlockTruth(s.cfg, t, id), i);
        }
      }
    }
  }

  lemma PartialBlock(s: State, t: Truth, id: BlockId)
    requires id in s.blocks && BlockAt(s, t, id) && s.blocks[id].bits.Some?
    ensures PartialOk(s.cfg, s.blocks[id], Lookup(s.blockFile, id), BlockTruth(s.cfg, t, id)) && s.blocks[id].mem.None?
    ensures BlockLen(s.cfg, id.index, s.files[id.file].size) == |BlockTruth(s.cfg, t, id)|
  {
  }

  /** What the index knows to be on disk is the real bytes. */
  lemma OnFileByte(s: State, t: Truth, id: BlockId, x: nat)
    requires KeysInv(s, t) && x < |BlockTruth(s.cfg, t, id)| && OnFile(s, id, x / s.cfg.subSize)
    ensures id in s.blockFile && |s.blockFile[id]| == |BlockTruth(s.cfg, t, id)|
    ensures s.blockFile[id][x] == BlockTruth(s.cfg, t, id)[x]
  {
    hide PartOk, Covered, Piece, BlockTruth;
    var T, i := BlockTruth(s.cfg, t, id), x / s.cfg.subSize;
    assert KeyOk(s, t, id.file) && BlockAt(s, t, id);
    if s.blocks[id].bits.Some? {
      PartialBlock(s, t, id);
      assert SubOk(s.cfg, s.blocks[id], Lookup(s.blockFile, id), T, i);
      ByteInPiece(T, s.cfg.subSize, x);
      ByteInPiece(s.blockFile[id], s.cfg.subSize, x);
    }
  }

  /** A byte of memory over whatever file there is. */
  lemma OverlaidByte(base: Bytes, subs: map<nat, Bytes>, sub: nat, T: Bytes, x: nat)
    requires sub > 0 && |base| == |T| && x < |T| && (x / sub in subs ==> subs[x / sub] == Piece(T, sub, x / sub))
    ensures Overlay(base, subs, sub)[x] == if x / sub in subs then T[x] else base[x]
  {
    hide Overlay, Piece;
    var r, i := Overlay(base, subs, sub), x / sub;
    ByteInPiece(T, sub, x);
    ByteInPiece(base, sub, x);
    ByteInPiece(r, sub, x);
    OverlayPiece(base, subs, sub, i);
  }

  /** What the state answers for is right, whatever happened since the choice. */
  lemma VouchedByte(s: State, t: Truth, src: Source, k: FileKey, idx: nat, x: nat)
    requires KeysInv(s, t) && WholeInv(s, t) && ChosenOk(s.cfg, src, BlockTruth(s.cfg, t, BlockId(k, idx)))
    requires x < |BlockTruth(s.cfg, t, BlockId(k, idx))| && Vouched(s, src, k, idx, x)
    ensures var text, T := Text(s, src, k, idx), BlockTruth(s.cfg, t, BlockId(k, idx));
      text.Some? ==> SameByte(text.value, T, x)
  {
    hide Overlay, Piece, Sized, BlockOk, Covered, OnFile;
    var id, T := BlockId(k, idx), BlockTruth(s.cfg, t, BlockId(k, idx));
    match src
    case InHand(_) =>
    case Sparse(_) =>
      assert KeyOk(s, t, k) && PartAt(s, t, k);
    case OnDisk(subs, L) =>
      if x / s.cfg.subSize !in subs { OnFileByte(s, t, id, x); }
      if subs != map[] {
        OverlaidByte(BaseFile(s, id, L), subs, s.cfg.subSize, T, x);
        if id in s.blockFile && |s.blockFile[id]| == L { SizedFits(s.blockFile[id], L); }
      }
    case Merged =>
      if k in s.files { assert KeyOk(s, t, k) && WholeAt(s, t, k); }
  }

  lemma SizedFits(file: Bytes, n: nat)
    requires |file| == n
    ensures Sized(file, n) == file
  {
  }

  /** Every byte of [off, off+n) that the state does not answer for is real all the same. */
  ghost predicate RestIsReal(s: State, src: Source, T: Bytes, k: FileKey, idx: nat, off: nat, n: nat) {
    forall x :: off <= x < off + n && !Vouched(s, src, k, idx, x) ==>
      Text(s, src, k, idx).Some? && SameByte(Text(s, src, k, idx).value, T, x)
  }

  lemma ReadLater(s: State, t: Truth, src: Source, k: FileKey, idx: nat, off: nat, m: nat)
    requires Inv(s, t) && ChosenOk(s.cfg, src, BlockTruth(s.cfg, t, BlockId(k, idx)))
    requires m > 0 && off + m <= |BlockTruth(s.cfg, t, BlockId(k, idx))|
    ensures var d, T := ReadFrom(s, src, k, idx, off, m), BlockTruth(s.cfg, t, BlockId(k, idx));
      d.Some? ==> (d.value == Cut(T, off, m) <==> RestIsReal(s, src, T, k, idx, off, m))
  {
    hide KeysInv, WholeInv, TagsInv, FlushInv, InstallInv, LockOk, Vouched, Text, Cut, BlockTruth, ChosenOk, SameByte;
    var T := BlockTruth(s.cfg, t, BlockId(k, idx));
    if ReadFrom(s, src, k, idx, off, m).Some? {
      var text := Text(s, src, k, idx).value;
      SameBytes(text, T, off, m);
      forall x: nat | off <= x < off + m && Vouched(s, src, k, idx, x) ensures SameByte(text, T, x) {
        VouchedByte(s, t, src, k, idx, x);
      }
    }
  }

  /** Whatever lawful steps happen between locating and choosing and between choosing and
      reading: the bytes of a hit are right exactly when the source holds the real bytes of
      what the index does not answer for by then. */
  lemma LateFetchIsReal(s: State, t: Truth, acts: seq<Action>, more: seq<Action>, k: FileKey, idx: nat, off: nat,
                        n: nat)
    requires Inv(s, t) && LawfulRun(s, t, acts) && LawfulRun(Run(s, t, acts), t, more)
    requires Locate(s, k, idx, off, n).Some?
    ensures var s2, T := Run(s, t, acts), BlockTruth(s.cfg, t, BlockId(k, idx));
      var s3, src, m := Run(s2, t, more), Choose(s2, k, idx), Clipped(Locate(s, k, idx, off, n).value, off, n);
      var d := ReadFrom(s3, src, k, idx, off, m);
      d.Some? ==> (d.value == Cut(T, off, n) <==> RestIsReal(s3, src, T, k, idx, off, m))
  {
    hide KeysInv, WholeInv, Locate, LawfulRun, Run, TagsInv, FlushInv, InstallInv, LockOk, BlockTruth, Vouched, Text,
         ChosenOk, Choose;
    var at, T, s2 := Locate(s, k, idx, off, n).value, BlockTruth(s.cfg, t, BlockId(k, idx)), Run(s, t, acts);
    var s3, m, src := Run(s2, t, more), Clipped(at, off, n), Choose(s2, k, idx);
    LocatedLength(s, t, k, idx, off, n);
    RunKeeps(s, t, acts);
    RunConfig(s, t, acts);
    RunKeeps(s2, t, more);
    RunConfig(s2, t, more);
    assert Cut(T, off, n) == Cut(T, off, m);
    SameTruth(s, s2, t, BlockId(k, idx));
    SameTruth(s, s3, t, BlockId(k, idx));
    ChoiceIsOk(s2, t, k, idx);
    if m > 0 { ReadLater(s3, t, src, k, idx, off, m); }
  }

  /** A read from an empty cache on, its three parts anywhere in the run. */
  lemma EveryReadIsReal(s: State, t: Truth, before: seq<Action>, acts: seq<Action>, more: seq<Action>, k: FileKey,
                        idx: nat, off: nat, n: nat)
    requires Fresh(s) && LawfulRun(s, t, before) && LawfulRun(Run(s, t, before), t, acts)
    requires LawfulRun(Run(Run(s, t, before), t, acts), t, more) && Locate(Run(s, t, before), k, idx, off, n).Some?
    ensures var s1, T := Run(s, t, before), BlockTruth(s.cfg, t, BlockId(k, idx));
      var s2, m := Run(s1, t, acts), Clipped(Locate(s1, k, idx, off, n).value, off, n);
      var s3, src := Run(s2, t, more), Choose(s2, k, idx);
      var d := ReadFrom(s3, src, k, idx, off, m);
      d.Some? ==> (d.value == Cut(T, off, n) <==> RestIsReal(s3, src, T, k, idx, off, m))
  {
    hide Inv, LawfulRun, Run, Locate, ReadFrom, Choose, BlockTruth, RestIsReal;
    FreshInv(s, t);
    RunKeeps(s, t, before);
    RunConfig(s, t, before);
    SameTruth(s, Run(s, t, before), t, BlockId(k, idx));
    LateFetchIsReal(Run(s, t, before), t, acts, more, k, idx, off, n);
  }

  /** Otherwise it can be wrong: a whole block is located, evicted, and made anew by a
      range put without sub-block i; the read of sub-block i is then a hit of zeros,
      whether the choice of where to read came after that or before it, though locating
      it again would have been a miss. */
  lemma StaleLocateReadsZeros(s: State, t: Truth, id: BlockId, off: nat, data: Bytes, size: nat, now: int, i: nat)
    requires Inv(s, t) && id in s.blocks && s.blocks[id].bits.None? &&
      !(id.file in s.parts && id.index in s.parts[id.file].bits)
    requires RangeSlice(s.cfg, t, id, off, data, size)
    requires !Named(s.cfg.subSize, off, |data|, i) && i < PieceCount(s.cfg.subSize, |BlockTruth(s.cfg, t, id)|)
    ensures var L := |BlockTruth(s.cfg, t, id)|;
      var p, at := PieceLen(s.cfg.subSize, i, L), SubStart(s.cfg, i);
      var s' := PutRangeSync(DropBlock(s, id), id, off, data, size, now);
      && Locate(s, id.file, id.index, at, p) == Some(L)
      && ReadBlock(s', id.file, id.index, at, p) == Some(Zeros(p))
      && (s.blocks[id].mem.None? ==>
            ReadFrom(s', Choose(s, id.file, id.index), id.file, id.index, at, p) == Some(Zeros(p)))
      && Locate(s', id.file, id.index, at, p) == None
  {
    hide Inv, WriteAt, Cut, Aligned, PutRangeSync, DropBlock, Locate, ReadBlock, RangeSlice, BlockTruth, RangeBits,
         Remade;
    var L := |BlockTruth(s.cfg, t, id)|;
    var s' := PutRangeSync(DropBlock(s, id), id, off, data, size, now);
    WholeLocated(s, t, id, i);
    RemadeBlock(s, t, id, off, data, size, now);
    RemadeReads(s', t, id, off, data, size, i);
  }

  /** That happens in a lawful run, from every state with the admission lock free in which
      nothing protects the block and the range fits without it. */
  lemma StaleLocateIsReachable(s: State, t: Truth, id: BlockId, off: nat, data: Bytes, size: nat, now: int)
    returns (acts: seq<Action>)
    requires Inv(s, t) && s.lock.Free? && id in s.blocks && Evictable(s, BlockVictim(id), None)
    requires RangeSlice(s.cfg, t, id, off, data, size) && CapsHold(DropBlock(s, id), |data|, 1)
    ensures LawfulRun(s, t, acts) && Run(s, t, acts) == PutRangeSync(DropBlock(s, id), id, off, data, size, now)
  {
    hide Inv, LawfulRun, Run, Enabled, Honest, SpoilsNothing, Next, PutRangeSync, DropBlock, RangeSlice, CapsHold,
         Evictable;
    var a1, a2, a3 := Admit(AskSweep), Admit(Evicts(BlockVictim(id))), Admit(Unlock);
    var a4, a5, a6 := Admit(AskRange(id, off, |data|, size)), Admit(Grant), Store(CommitRangeSync(data, now));
    var s3 := DropBlock(s, id);
    SweptOut(s, t, id);
    DroppedFree(s, t, id);
    PutBack(s3, t, id, off, data, size, now);
    var s5 := s3.(lock := Granted(RangeReq(id, off, |data|, size)));
    NoMoreSteps(Next(s5, a6), t);
    LawfulCons(s5, t, a6, []);
    LawfulCons(Next(s3, a4), t, a5, [a6] + []);
    LawfulCons(s3, t, a4, [a5] + ([a6] + []));
    LawfulCons(Next(Next(s, a1), a2), t, a3, [a4] + ([a5] + ([a6] + [])));
    LawfulCons(Next(s, a1), t, a2, [a3] + ([a4] + ([a5] + ([a6] + []))));
    LawfulCons(s, t, a1, [a2] + ([a3] + ([a4] + ([a5] + ([a6] + [])))));
    acts := [a1] + ([a2] + ([a3] + ([a4] + ([a5] + ([a6] + [])))));
  }

  lemma DroppedFree(s: State, t: Truth, id: BlockId)
    requires Inv(s, t) && id in s.blocks
    ensures var s' := DropBlock(s, id);
      s'.lock == s.lock && s'.cfg == s.cfg && id !in s'.blocks && id.file in s'.files
  {
    hide WholeInv, TagsInv, FlushInv, InstallInv, HandInv, LockOk, PartAt, PresentAt, BlockOk;
    assert KeyOk(s, t, id.file) && BlockAt(s, t, id);
  }

  lemma SweptOut(s: State, t: Truth, id: BlockId)
    requires s.lock.Free? && Evictable(s, BlockVictim(id), None)
    ensures var a1, a2, a3 := Admit(AskSweep), Admit(Evicts(BlockVictim(id))), Admit(Unlock);
      && Lawful(s, t, a1) && Lawful(Next(s, a1), t, a2) && Lawful(Next(Next(s, a1), a2), t, a3)
      && Next(Next(Next(s, a1), a2), a3) == DropBlock(s, id)
  {
  }

  lemma PutBack(s: State, t: Truth, id: BlockId, off: nat, data: Bytes, size: nat, now: int)
    requires s.lock.Free? && id !in s.blocks && id.file in s.files && CapsHold(s, |data|, 1)
    requires RangeSlice(s.cfg, t, id, off, data, size)
    ensures var a1, a2, a3 := Admit(AskRange(id, off, |data|, size)), Admit(Grant), Store(CommitRangeSync(data, now));
      var s' := s.(lock := Granted(RangeReq(id, off, |data|, size)));
      && Lawful(s, t, a1) && Lawful(Next(s, a1), t, a2) && Next(Next(s, a1), a2) == s'
      && Lawful(s', t, a3) && Next(s', a3) == PutRangeSync(s, id, off, data, size, now)
  {
    hide Enabled, Honest, SpoilsNothing, Next, PutRangeSync, RangeSlice, Aligned, BlockLen, CapsHold;
    SliceAligned(s.cfg, t, id, off, data, size);
    Granting(s, t, id, off, |data|, size);
    SyncStep(s.(lock := Granted(RangeReq(id, off, |data|, size))), t, id, off, data, size, now);
    LockIsFreed(s, id, off, data, size, now, Granted(RangeReq(id, off, |data|, size)));
  }

  lemma SyncStep(s: State, t: Truth, id: BlockId, off: nat, data: Bytes, size: nat, now: int)
    requires s.lock == Granted(RangeReq(id, off, |data|, size)) && id !in s.blocks
    requires data == Cut(BlockTruth(s.cfg, t, id), off, |data|)
    ensures Lawful(s, t, Store(CommitRangeSync(data, now)))
    ensures Next(s, Store(CommitRangeSync(data, now))) == PutRangeSync(s, id, off, data, size, now)
  {
    hide PutRangeSync, Cut, BlockTruth, Spoils;
    NothingToSpoil(s, t, id, off, |data|, size);
  }

  lemma NothingToSpoil(s: State, t: Truth, id: BlockId, off: nat, n: nat, size: nat)
    requires id !in s.blocks
    ensures !Spoils(s, t, id, off, n, size)
  {
  }

  lemma SliceAligned(c: Config, t: Truth, id: BlockId, off: nat, data: Bytes, size: nat)
    requires RangeSlice(c, t, id, off, data, size)
    ensures size == |t(id.file)| && id.index < BlockTotal(c, t, id.file)
    ensures Aligned(c.subSize, off, |data|, BlockLen(c, id.index, size))
    ensures data == Cut(BlockTruth(c, t, id), off, |data|)
  {
  }

  lemma LockIsFreed(s: State, id: BlockId, off: nat, data: Bytes, size: nat, now: int, l: Lock)
    requires id !in s.blocks && id.file in s.files
    ensures PutRangeSync(s.(lock := l), id, off, data, size, now) == PutRangeSync(s, id, off, data, size, now)
  {
    hide AddRangeSync, WriteAt, BaseFile, BlockLen;
  }

  lemma WholeLocated(s: State, t: Truth, id: BlockId, i: nat)
    requires Inv(s, t) && id in s.blocks && s.blocks[id].bits.None? &&
      !(id.file in s.parts && id.index in s.parts[id.file].bits)
    ensures var L := |BlockTruth(s.cfg, t, id)|;
      Locate(s, id.file, id.index, SubStart(s.cfg, i), PieceLen(s.cfg.subSize, i, L)) == Some(L)
  {
    hide TagsInv, WholeInv, FlushInv, InstallInv, LockOk, PartOk, BlockTruth;
    assert KeyOk(s, t, id.file) && BlockAt(s, t, id);
  }

  /** The block is a new one with just the range in its file. */
  ghost predicate Remade(s: State, id: BlockId, off: nat, data: Bytes, L: nat) {
    && id in s.blocks && !(id.file in s.parts && id.index in s.parts[id.file].bits)
    && Lookup(s.blockFile, id) == Some(WriteAt(Zeros(L), off, data))
    && s.blocks[id].subs == map[] && s.blocks[id].mem.None?
    && (s.blocks[id].bits == Some(RangeBits(s.cfg, off, |data|)) ||
        (s.blocks[id].bits.None? && |RangeBits(s.cfg, off, |data|)| == PieceCount(s.cfg.subSize, L)))
  }

  lemma DroppedBlock(s: State, id: BlockId)
    requires id.file in s.files
    ensures var s1 := DropBlock(s, id);
      s1.cfg == s.cfg && s1.parts == s.parts && id !in s1.blocks && id !in s1.blockFile && id.file in s1.files
  {
  }

  /** A new entry has the sub-blocks of its range and nothing in memory. */
  lemma NewEntry(s: State, id: BlockId, off: nat, data: Bytes, L: nat, open: nat, pinned: bool, now: int)
    requires id !in s.blocks
    ensures var b :=
      Settled(s.cfg, open,
              Extended(s.cfg, RangeBlock(s, id, now), Missing(s.cfg, s.blocks, id, off, |data|), off, data, L, false,
                       pinned, now), L);
      && b.subs == map[] && b.mem.None?
      && (b.bits == Some(RangeBits(s.cfg, off, |data|)) ||
          (b.bits.None? && |RangeBits(s.cfg, off, |data|)| == PieceCount(s.cfg.subSize, L)))
  {
    hide Covered, PieceCount, Missing, RangeBits;
    NewMissing(s.cfg, s.blocks, id, off, |data|);
    assert {} + RangeBits(s.cfg, off, |data|) == RangeBits(s.cfg, off, |data|);
  }

  lemma NewRange(s: State, id: BlockId, off: nat, data: Bytes, size: nat, now: int)
    requires id !in s.blocks && id !in s.blockFile && id.file in s.files &&
      !(id.file in s.parts && id.index in s.parts[id.file].bits)
    ensures var s' := PutRangeSync(s, id, off, data, size, now);
      Remade(s', id, off, data, BlockLen(s.cfg, id.index, size)) && s'.cfg == s.cfg
  {
    hide WriteAt, Covered, PieceCount, BlockLen, Missing, Settled, Extended, RangeBits, OpenCount;
    var s1, L := s.(lock := Free), BlockLen(s.cfg, id.index, size);
    var f := RangeFile(s1, id.file, size);
    NewEntry(s1, id, off, data, L, OpenCount(s.blocks), f.pinned || f.userPinned, now);
    assert Sized([], L) == Zeros(L);
    assert Known(s, id.file) == s;
  }

  lemma RemadeBlock(s: State, t: Truth, id: BlockId, off: nat, data: Bytes, size: nat, now: int)
    requires Inv(s, t) && id in s.blocks && RangeSlice(s.cfg, t, id, off, data, size)
    requires !(id.file in s.parts && id.index in s.parts[id.file].bits)
    ensures var s' := PutRangeSync(DropBlock(s, id), id, off, data, size, now);
      Remade(s', id, off, data, |BlockTruth(s.cfg, t, id)|) && s'.cfg == s.cfg
  {
    hide TagsInv, WholeInv, FlushInv, InstallInv, LockOk, PartOk, Aligned, PutRangeSync, DropBlock, Remade, BlockOk;
    assert KeyOk(s, t, id.file) && BlockAt(s, t, id);
    DroppedBlock(s, id);
    NewRange(DropBlock(s, id), id, off, data, size, now);
  }

  /** Piece i of a file that was never written reads as zeros, outside the range. */
  lemma UnwrittenPiece(sub: nat, off: nat, n: nat, data: Bytes, L: nat, i: nat)
    requires sub > 0 && Aligned(sub, off, n, L) && |data| == n && !Named(sub, off, n, i) && i < PieceCount(sub, L)
    ensures Cut(WriteAt(Zeros(L), off, data), i * sub, PieceLen(sub, i, L)) == Zeros(PieceLen(sub, i, L))
  {
    InsideNamed(sub, off, n, L, i);
    PieceInRange(sub, i, L);
    assert Sized(Zeros(L), L) == Zeros(L);
    var p, r := PieceLen(sub, i, L), WriteAt(Zeros(L), off, data);
    assert r == Zeros(L)[..off] + data + Zeros(L)[off + n..];
    assert r[i * sub..i * sub + p] == Zeros(p);
  }

  lemma RemadeReads(s: State, t: Truth, id: BlockId, off: nat, data: Bytes, size: nat, i: nat)
    requires RangeSlice(s.cfg, t, id, off, data, size) && Remade(s, id, off, data, |BlockTruth(s.cfg, t, id)|)
    requires !Named(s.cfg.subSize, off, |data|, i) && i < PieceCount(s.cfg.subSize, |BlockTruth(s.cfg, t, id)|)
    ensures var L := |BlockTruth(s.cfg, t, id)|;
      var p, at := PieceLen(s.cfg.subSize, i, L), SubStart(s.cfg, i);
      && ReadBlock(s, id.file, id.index, at, p) == Some(Zeros(p)) && Locate(s, id.file, id.index, at, p) == None
      && ReadFrom(s, OnDisk(map[], 0), id.file, id.index, at, p) == Some(Zeros(p))
  {
    hide WriteAt, Cut, Aligned, BlockTruth, BlockLen;
    var L, sub := |BlockTruth(s.cfg, t, id)|, s.cfg.subSize;
    PieceInRange(sub, i, L);
    UnwrittenPiece(sub, off, |data|, data, L, i);
    NotAllNamed(s.cfg, off, |data|, L, i);
    SubStarts(s.cfg, i);
    hide PieceCount, Named;
    var at := SubStart(s.cfg, i);
    assert at <= at < at + PieceLen(sub, i, L) && at / sub !in s.blocks[id].bits.value;
  }

  lemma SubStarts(c: Config, i: nat)
    ensures SubStart(c, i) / c.subSize == i
  {
    DivUnique(i * c.subSize, i, c.subSize);
  }

  lemma NotAllNamed(c: Config, off: nat, n: nat, L: nat, i: nat)
    requires Aligned(c.subSize, off, n, L) && !Named(c.subSize, off, n, i) && i < PieceCount(c.subSize, L)
    ensures i !in RangeBits(c, off, n) && |RangeBits(c, off, n)| != PieceCount(c.subSize, L)
  {
    var bits := RangeBits(c, off, n);
    forall j | j in bits ensures j < PieceCount(c.subSize, L) { NamedInside(c.subSize, off, n, L, j); }
    FullMeansAll(bits, PieceCount(c.subSize, L));
  }
}
