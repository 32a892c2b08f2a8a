/** What has been stored is found: after every step that stores or moves bytes, a read of
    them is a hit, and it stays one until a step that may hide it. */
module CacheServes {

  import opened Common
  import opened Bitmap
  import opened Geometry
  import opened Ranges
  import opened CacheModel
  import opened CacheInvariant
  import opened CacheSteps
  import opened CacheEdits
  import opened CacheKeepsBlocks
  import opened CacheKeepsParts
  import opened CacheKeepsWhole
  import opened CacheBudgetSteps
  import opened CacheRuns
  import opened CacheCaps
  import opened CacheHoles
  import opened CacheHits
  import opened CacheFlows

  /** The commit stores [off, off+n) of block idx. */
  ghost predicate StoredBy(s: State, x: Commit, k: FileKey, idx: nat, off: nat, n: nat)
    requires CanStore(s, x)
  {
    var r, id := s.lock.req, BlockId(k, idx);
    match x
    case CommitPut(_, _) => r.id == id
    case CommitAsync(_, _) => r.id == id
    case CommitRange(_, _) => r.id == id && r.off <= off && off + n <= r.off + r.n
    case CommitRangeSync(_, _) => r.id == id && r.off <= off && off + n <= r.off + r.n
    case CommitPart(_, _) => r.id == id
    case CommitReserve => false
    case CommitLink(_, _) => r.key == k
  }

  /** The work moves block idx to another form. */
  predicate MovedBy(s: State, x: Work, k: FileKey, idx: nat) {
    var id := BlockId(k, idx);
    match x
    case EndFlush(u, ok) => ok && u in s.flushes && Owns(s, u) && s.flushes[u].id == id
    case NoteHanded(u, _) => u in s.notes && Live(s, s.notes[u]) && s.notes[u].id == id
    case AdoptBlock(i, _) => i == id
    case Publish(j, _, _) => j == k
    case FinishHydrate(u, _, _) => u in s.installs && s.installs[u].key == k
    case FinishPutWhole(u, _, _, _) => u in s.installs && s.installs[u].key == k
    case _ => false
  }

  ghost predicate Stores(s: State, a: Action, k: FileKey, idx: nat, off: nat, n: nat)
    requires Enabled(s, a)
  {
    match a
    case Admit(_) => false
    case Store(x) => StoredBy(s, x, k, idx, off, n)
    case Do(x) => MovedBy(s, x, k, idx)
  }

  lemma PutIsThere(s: State, id: BlockId, data: Bytes, size: nat, async: bool, now: int, i: nat)
    ensures Covers(PutBlock(s, id, data, size, async, now), id.file, id.index, i)
  {
    hide Known, DropAll;
  }

  /** The sub-block of a byte of the range is one the range names. */
  lemma ByteIsNamed(sub: nat, off: nat, n: nat, x: nat)
    requires sub > 0 && off % sub == 0 && off <= x < off + n
    ensures Named(sub, off, n, x / sub)
  {
    var q := off / sub;
    Multiple(off, sub);
    DivMonotone(off, x, sub);
    var i := x / sub - q;
    assert x / sub * sub <= x;
    assert i * sub == x / sub * sub - off;
    PieceInRange(sub, i, n);
  }

  lemma ExtendedHas(s: State, id: BlockId, off: nat, data: Bytes, L: nat, inMemory: bool, pinned: bool, now: int,
                    i: nat)
    requires Named(s.cfg.subSize, off, |data|, i)
    ensures var b := Extended(s.cfg, RangeBlock(s, id, now), Missing(s.cfg, s.blocks, id, off, |data|), off, data, L,
                              inMemory, pinned, now);
      b.bits.Some? && i in b.bits.value
  {
    hide Covered, Cut;
  }

  lemma RangeIsThere(s: State, id: BlockId, off: nat, data: Bytes, size: nat, now: int, i: nat)
    requires Named(s.cfg.subSize, off, |data|, i)
    ensures Covers(PutRange(s, id, off, data, size, now), id.file, id.index, i)
    ensures Covers(PutRangeSync(s, id, off, data, size, now), id.file, id.index, i)
  {
    hide Known, AddRange, AddRangeSync, WriteAt, BaseFile, BlockLen;
    if !(id in s.blocks && s.blocks[id].bits.None?) {
      KnownFields(s, id.file);
      AddedIsThere(Known(s, id.file).(lock := Free), id, off, data, size, now, i);
    }
  }

  lemma AddedIsThere(s: State, id: BlockId, off: nat, data: Bytes, size: nat, now: int, i: nat)
    requires Named(s.cfg.subSize, off, |data|, i)
    ensures Covers(AddRange(s, id, off, data, size, now), id.file, id.index, i)
    ensures Covers(AddRangeSync(s, id, off, data, size, now), id.file, id.index, i)
  {
    hide Edited, AddRange, AddRangeSync, Extended, Missing, RangeBlock, BlockLen;
    var f, L := RangeFile(s, id.file, size), BlockLen(s.cfg, id.index, size);
    PutRangeIsEdit(s, id, off, data, size, now);
    PutRangeSyncIsEdit(s, id, off, data, size, now);
    EditFields(s, RangeEdit(s, id, off, data, size, true, now), false, {}, 1);
    EditFields(s, SyncEdit(s, id, off, data, size, now), false, {}, 1);
    ExtendedHas(s, id, off, data, L, true, f.pinned || f.userPinned, now, i);
    ExtendedHas(s, id, off, data, L, false, f.pinned || f.userPinned, now, i);
  }

  lemma PartIsThere(s: State, t: Truth, id: BlockId, data: Bytes, size: nat, token: nat, fileTag: nat, now: int)
    requires Inv(s, t) && size == |t(id.file)|
    ensures InSparse(PutPart(s, id, data, size, token, fileTag, now), id.file, id.index)
  {
    hide WholeInv, TagsInv, FlushInv, InstallInv, HandInv, LockOk, WithBlock, Sized, ReleaseHold, FillPart, BlockOk;
    if id.file in s.parts { assert KeyOk(s, t, id.file) && PartAt(s, t, id.file); }
    var files := ReleaseIs(s, id.file, fileTag, token);
    FillFields(s.(files := files, lock := Free), id.file, size, id.index, data, now);
  }

  /** A complete file is there, whatever the block. */
  ghost predicate Complete(s: State, k: FileKey) {
    k in s.files && s.files[k].whole.Some? && forall i :: BlockId(k, i) !in s.blocks
  }

  lemma CompleteIsThere(s: State, k: FileKey, idx: nat, i: nat)
    requires Complete(s, k)
    ensures Covers(s, k, idx, i)
  {
  }

  lemma WipedIsComplete(s: State, k: FileKey, f: FileState)
    requires f.whole.Some?
    ensures Complete(Wiped(s, k, f), k)
  {
    var s' := Wiped(s, k, f);
    assert s'.files == s.files[k := f.(present := {})] && s'.blocks == s.blocks - BlocksOf(s, k);
  }

  lemma InstalledIsComplete(s: State, t: Truth, k: FileKey, o: nat, data: Bytes, pinned: bool, now: int)
    requires Inv(s, t) && k in s.files
    ensures Complete(Installed(s, k, o, data, pinned, now), k)
  {
    hide Inv, Attach, RemoveFileBlocks, Wiped;
    var s1 := Attach(s, k, o, data, now);
    AttachFiles(s, t, k, o, data, now);
    var f := s1.files[k].(pinned := s1.files[k].pinned || pinned, generation := s1.files[k].generation + 1);
    WipedIs(s1, k, f);
    WipedIsComplete(s1, k, f);
  }

  lemma HydratedIsComplete(s: State, t: Truth, u: nat, o: nat, now: int)
    requires Inv(s, t) && u in s.installs && s.installs[u].key in s.files
    ensures Complete(HydrateFinish(s, u, o, now), s.installs[u].key)
  {
    hide Inv, Attach, RemoveFileBlocks, Wiped, EndInstall;
    var i, s0 := s.installs[u], EndInstall(s, u);
    EndInstallKeeps(s, t, u);
    EndInstallIs(s, u);
    var s1 := Attach(s0, i.key, o, i.temp, now);
    AttachFiles(s0, t, i.key, o, i.temp, now);
    assert SetFile(s1, i.key, s1.files[i.key]) == s1;
    WipedIs(s1, i.key, s1.files[i.key]);
    WipedIsComplete(s1, i.key, s1.files[i.key]);
  }

  lemma PutWholeIsComplete(s: State, t: Truth, u: nat, o: nat, data: Bytes, now: int)
    requires Inv(s, t) && u in s.installs && s.installs[u].key in s.files
    ensures Complete(PutWholeFinish(s, u, o, data, now), s.installs[u].key)
  {
    hide Inv, Installed, EndInstall;
    EndInstallKeeps(s, t, u);
    EndInstallIs(s, u);
    InstalledIsComplete(EndInstall(s, u), t, s.installs[u].key, o, data, false, now);
  }

  lemma LinkedIsComplete(s: State, t: Truth, k: FileKey, o: nat, data: Bytes, pinned: bool, now: int)
    requires Inv(s, t)
    ensures Complete(Installed(Known(s, k).(lock := Free), k, o, data, pinned, now), k)
  {
    hide Inv, Installed, Known;
    KnownFields(s, k);
    KnownKeeps(s, t, k);
    InstalledIsComplete(Known(s, k).(lock := Free), t, k, o, data, pinned, now);
  }

  lemma FlushedIsThere(s: State, t: Truth, u: nat, ok: bool, i: nat)
    requires Inv(s, t) && CanDo(s, EndFlush(u, ok)) && ok && Owns(s, u)
    ensures Covers(FlushFinish(s, u, ok), s.flushes[u].id.file, s.flushes[u].id.index, i)
  {
    hide Inv, Edited, FlushFinish;
    var id := s.flushes[u].id;
    InvKnown(s, t, id);
    MemoryIsWhole(s, t, id);
    FlushIsEdit(s, u, ok);
    EditFields(s, FlushedEdit(s, u), false, {u}, 0);
  }

  lemma MemoryIsWhole(s: State, t: Truth, id: BlockId)
    requires Inv(s, t) && id in s.blocks && s.blocks[id].mem.Some?
    ensures s.blocks[id].bits.None?
  {
    hide WholeInv, TagsInv, FlushInv, InstallInv, HandInv, LockOk, PartAt, PresentAt;
    assert KeyOk(s, t, id.file) && BlockAt(s, t, id);
  }

  lemma NotedIsThere(s: State, u: nat, now: int)
    requires u in s.notes && Live(s, s.notes[u])
    ensures InSparse(HandNote(s, u, now), s.notes[u].id.file, s.notes[u].id.index)
  {
    hide FillPart;
    var n := s.notes[u];
    FillFields(s.(notes := s.notes - {u}), n.id.file, s.parts[n.id.file].size, n.id.index, n.data, now);
  }

  lemma AdoptedIsThere(s: State, id: BlockId, now: int)
    requires id in s.blockFile && id.file in s.files
    ensures InSparse(Adopt(s, id, now), id.file, id.index)
  {
    hide Edited, Adopt, WithBlock, PartBefore;
    AdoptIsEdit(s, id, now);
    var f := FileOf(s, id.file);
    EditFields(s, FillEdit(s, id, s.blockFile[id], f.size, f.holds, true, true, now), true, {}, 1);
  }

  lemma GrantedFor(s: State, t: Truth)
    requires Inv(s, t) && s.lock.Granted?
    ensures s.lock.req.RangeReq? ==> s.lock.req.off % s.cfg.subSize == 0
    ensures s.lock.req.PartReq? ==> s.lock.req.size == |t(s.lock.req.id.file)|
  {
    hide KeysInv, TagsInv, WholeInv, FlushInv, InstallInv, HandInv, InstallOk;
  }

  lemma StoreIsThere(s: State, t: Truth, a: Commit, k: FileKey, idx: nat, off: nat, n: nat, x: nat, i: nat)
    requires off <= x < off + n && i == x / s.cfg.subSize && CanStore(s, a)
    requires StoredBy(s, a, k, idx, off, n) && Inv(s, t)
    ensures Covers(Stored(s, a), k, idx, i)
  {
    hide Inv, PutBlock, PutRange, PutRangeSync, PutPart, Installed, Known, Named, Complete, Covers;
    var r := s.lock.req;
    GrantedFor(s, t);
    match a {
      case CommitPut(data, now) => PutIsThere(s, r.id, data, r.size, false, now, i);
      case CommitAsync(data, now) => PutIsThere(s, r.id, data, r.size, true, now, i);
      case CommitRange(data, now) =>
        ByteIsNamed(s.cfg.subSize, r.off, r.n, x);
        RangeIsThere(s, r.id, r.off, data, r.size, now, i);
      case CommitRangeSync(data, now) =>
        ByteIsNamed(s.cfg.subSize, r.off, r.n, x);
        RangeIsThere(s, r.id, r.off, data, r.size, now, i);
      case CommitPart(data, now) =>
        PartIsThere(s, t, r.id, data, r.size, r.token, r.fileTag, now);
        SparseIsThere(Stored(s, a), k, idx, i);
      case CommitLink(data, now) =>
        LinkedIsComplete(s, t, r.key, r.inode, data, r.pinned, now);
        CompleteIsThere(Stored(s, a), k, idx, i);
    }
  }

  lemma SparseIsThere(s: State, k: FileKey, idx: nat, i: nat)
    requires InSparse(s, k, idx)
    ensures Covers(s, k, idx, i)
  {
  }

  lemma WorkIsThere(s: State, t: Truth, a: Work, k: FileKey, idx: nat, i: nat)
    requires CanDo(s, a) && MovedBy(s, a, k, idx) && Inv(s, t)
    ensures Covers(Done(s, a), k, idx, i)
  {
    hide Inv, FlushFinish, HandNote, Adopt, Installed, HydrateFinish, PutWholeFinish, Complete, PieceCount, Covers;
    match a {
      case EndFlush(u, ok) => FlushedIsThere(s, t, u, ok, i);
      case NoteHanded(u, now) =>
        NotedIsThere(s, u, now);
        SparseIsThere(Done(s, a), k, idx, i);
      case AdoptBlock(id, now) =>
        InvKnown(s, t, id);
        AdoptedIsThere(s, id, now);
        SparseIsThere(Done(s, a), k, idx, i);
      case Publish(j, o, now) =>
        InstalledIsComplete(s, t, k, o, s.partFile[k], false, now);
        CompleteIsThere(Done(s, a), k, idx, i);
      case FinishHydrate(u, o, now) =>
        HydratedIsComplete(s, t, u, o, now);
        CompleteIsThere(Done(s, a), k, idx, i);
      case FinishPutWhole(u, o, data, now) =>
        PutWholeIsComplete(s, t, u, o, data, now);
        CompleteIsThere(Done(s, a), k, idx, i);
    }
  }

  /** Whatever a lawful step stores or moves is found by the next read, with its real bytes. */
  lemma StoredIsHit(s: State, t: Truth, a: Action, k: FileKey, idx: nat, off: nat, n: nat)
    requires Inv(s, t) && Lawful(s, t, a) && Stores(s, a, k, idx, off, n)
    requires n > 0 && off + n <= |BlockTruth(s.cfg, t, BlockId(k, idx))|
    ensures ReadAt(Next(s, a), k, idx, off, n) == Some(Cut(BlockTruth(s.cfg, t, BlockId(k, idx)), off, n))
  {
    hide Inv, CanAdmit, CanStore, CanDo, Stored, Done, Admitted, Honest, SpoilsNothing, Covers, Held, ReadAt,
         BlockTruth, Cut, StoredBy, MovedBy;
    var s' := Next(s, a);
    StepKeeps(s, t, a);
    StepConfig(s, t, a);
    forall x | off <= x < off + n ensures Covers(s', k, idx, x / s.cfg.subSize) {
      match a {
        case Store(c) => StoreIsThere(s, t, c, k, idx, off, n, x, x / s.cfg.subSize);
        case Do(w) => WorkIsThere(s, t, w, k, idx, x / s.cfg.subSize);
      }
    }
    HeldIsCovered(s', k, idx, off, n);
    SameTruth(s, s', t, BlockId(k, idx));
    HitsExactly(s', t, k, idx, off, n);
  }

  // Runs.

  ghost predicate NoneHides(s: State, t: Truth, acts: seq<Action>)
    requires LawfulRun(s, t, acts)
    decreases |acts|
  {
    acts == [] || (!MayHide(s, acts[0]) && NoneHides(Next(s, acts[0]), t, acts[1..]))
  }

  /** What is there stays there through every run without a step that may hide it. */
  lemma {:induction false} HeldStays(s: State, t: Truth, acts: seq<Action>, k: FileKey, idx: nat, off: nat, n: nat)
    requires Inv(s, t) && LawfulRun(s, t, acts) && NoneHides(s, t, acts) && n > 0 && Held(s, k, idx, off, n)
    ensures Held(Run(s, t, acts), k, idx, off, n) && Run(s, t, acts).cfg == s.cfg
    decreases |acts|
  {
    hide Inv, Held, Covers, Enabled, Honest, SpoilsNothing, Next, MayHide, PinsMatch, SameFlags;
    if acts != [] {
      var s' := Next(s, acts[0]);
      StepKeeps(s, t, acts[0]);
      StepFlows(s, t, acts[0]);
      HeldIsCovered(s, k, idx, off, n);
      HeldIsCovered(s', k, idx, off, n);
      HeldStays(s', t, acts[1..], k, idx, off, n);
    }
  }

  /** So a range that a step stored is found, with its real bytes, after whatever lawful run
      follows in which nothing is evicted or forgotten, no flush fails, no block is on its
      way into a sparse file, and no range is put beside a complete file. */
  lemma StoredIsFound(s: State, t: Truth, a: Action, acts: seq<Action>, k: FileKey, idx: nat, off: nat, n: nat)
    requires Inv(s, t) && Lawful(s, t, a) && Stores(s, a, k, idx, off, n)
    requires n > 0 && off + n <= |BlockTruth(s.cfg, t, BlockId(k, idx))|
    requires LawfulRun(Next(s, a), t, acts) && NoneHides(Next(s, a), t, acts)
    ensures ReadAt(Run(Next(s, a), t, acts), k, idx, off, n) ==
      Some(Cut(BlockTruth(s.cfg, t, BlockId(k, idx)), off, n))
  {
    hide Inv, Held, Enabled, Honest, SpoilsNothing, Next, MayHide, LawfulRun, Run, NoneHides, BlockTruth, Cut, ReadAt,
         Stores;
    var s' := Next(s, a);
    StoredIsHit(s, t, a, k, idx, off, n);
    StepKeeps(s, t, a);
    StepConfig(s, t, a);
    SameTruth(s, s', t, BlockId(k, idx));
    HitsExactly(s', t, k, idx, off, n);
    HeldStays(s', t, acts, k, idx, off, n);
    RunKeeps(s', t, acts);
    SameTruth(s, Run(s', t, acts), t, BlockId(k, idx));
    HitsExactly(Run(s', t, acts), t, k, idx, off, n);
  }

  /** A forgotten file is not found any more, in any form. */
  lemma ForgottenIsGone(s: State, t: Truth, k: FileKey, idx: nat, off: nat, n: nat)
    requires Inv(s, t) && n > 0
    ensures ReadAt(Forget(s, k), k, idx, off, n) == None
  {
    hide Inv, ReadAt, Forget;
    GoneFromIndex(s, t, k, idx);
    UnheldIsMiss(Forget(s, k), k, idx, off, n);
  }

  lemma GoneFromIndex(s: State, t: Truth, k: FileKey, idx: nat)
    requires Inv(s, t)
    ensures var s' := Forget(s, k); BlockId(k, idx) !in s'.blocks && k !in s'.parts && k !in s'.files
  {
    hide Inv, Detach;
    if k in s.files {
      DetachKeeps(s, t, k);
      ForgetIs(s, k);
    } else {
      if BlockId(k, idx) in s.blocks { InvKnown(s, t, BlockId(k, idx)); }
      if k in s.parts { InvPart(s, t, k); }
    }
  }

  // A range put beside a complete file.

  /** The entry it makes has the sub-blocks of the range, and hides the others. */
  lemma RangeHidesRest(s: State, id: BlockId, off: nat, data: Bytes, size: nat, now: int, i: nat)
    requires Shadows(s, id)
    ensures Covers(s, id.file, id.index, i)
    ensures Covers(PutRange(s, id, off, data, size, now), id.file, id.index, i) <==>
      Named(s.cfg.subSize, off, |data|, i)
  {
    hide AddRange, BlockLen;
    var s1, f := s.(lock := Free), RangeFile(s, id.file, size);
    assert Known(s, id.file) == s;
    AddedHas(s1, id, off, data, size, now, i);
  }

  lemma AddedHas(s: State, id: BlockId, off: nat, data: Bytes, size: nat, now: int, i: nat)
    requires id !in s.blocks
    ensures var s' := AddRange(s, id, off, data, size, now);
      && s'.parts == s.parts && id in s'.blocks && s'.blocks[id].bits.Some?
      && (i in s'.blocks[id].bits.value <==> Named(s.cfg.subSize, off, |data|, i))
  {
    hide Covered, Cut, BlockLen, RangeFile;
  }

  lemma CutLength(T: Bytes, off: nat, n: nat)
    requires off + n <= |T|
    ensures |Cut(T, off, n)| == n
  {
  }

  lemma RangeStep(s: State, t: Truth, id: BlockId, off: nat, data: Bytes, size: nat, now: int)
    requires s.lock == Granted(RangeReq(id, off, |data|, size)) && data == Cut(BlockTruth(s.cfg, t, id), off, |data|)
    ensures Lawful(s, t, Store(CommitRange(data, now)))
    ensures Next(s, Store(CommitRange(data, now))) == PutRange(s, id, off, data, size, now)
  {
    hide PutRange, Cut, BlockTruth;
  }

  lemma ByteOutside(sub: nat, off: nat, n: nat, L: nat, x: nat)
    requires sub > 0 && Aligned(sub, off, n, L) && x < L && !(off <= x < off + n)
    ensures !Named(sub, off, n, x / sub)
  {
    var i := x / sub;
    DivUnique(x, i, sub);
    assert (i + 1) * sub == i * sub + sub;
    if Named(sub, off, n, i) {
      hide Named, Aligned;
      NamedInside(sub, off, n, L, i);
    }
  }

  /** A range that finds room, asked for, granted and put. */
  lemma RangeRun(s: State, t: Truth, id: BlockId, off: nat, n: nat, now: int) returns (acts: seq<Action>)
    requires s.lock.Free? && id !in s.blocks && CapsHold(s, n, 1) && id.index < BlockTotal(s.cfg, t, id.file)
    requires Aligned(s.cfg.subSize, off, n, |BlockTruth(s.cfg, t, id)|)
    ensures LawfulRun(s, t, acts) && |acts| == 3
    ensures var size, data := |t(id.file)|, Cut(BlockTruth(s.cfg, t, id), off, n);
      && |data| == n
      && Run(s, t, acts) == PutRange(s.(lock := Granted(RangeReq(id, off, n, size))), id, off, data, size, now)
  {
    hide Enabled, Honest, SpoilsNothing, Next, LawfulRun, Run, PutRange, Cut, CapsHold, BlockTruth, Aligned, BlockTotal,
         BlockLen;
    var T, size := BlockTruth(s.cfg, t, id), |t(id.file)|;
    var data := Cut(T, off, n);
    var a1, a2, a3 := Admit(AskRange(id, off, n, size)), Admit(Grant), Store(CommitRange(data, now));
    EndsInside(s.cfg.subSize, off, n, |T|);
    CutLength(T, off, n);
    TruthLength(s.cfg, t, id);
    Granting(s, t, id, off, n, size);
    var s2 := s.(lock := Granted(RangeReq(id, off, n, size)));
    RangeStep(s2, t, id, off, data, size, now);
    NoMoreSteps(Next(s2, a3), t);
    LawfulCons(s2, t, a3, []);
    LawfulCons(Next(s, a1), t, a2, [a3] + []);
    LawfulCons(s, t, a1, [a2] + ([a3] + []));
    acts := [a1] + ([a2] + ([a3] + []));
  }

  lemma TruthLength(c: Config, t: Truth, id: BlockId)
    ensures BlockLen(c, id.index, |t(id.file)|) == |BlockTruth(c, t, id)|
  {
  }

  lemma ByteIsHeld(s: State, k: FileKey, idx: nat, x: nat)
    ensures Held(s, k, idx, x, 1) <==> Covers(s, k, idx, x / s.cfg.subSize)
  {
    hide Held, Covers;
    HeldIsCovered(s, k, idx, x, 1);
    if Held(s, k, idx, x, 1) { assert x <= x < x + 1; }
  }

  /** With every block of a file in its complete file, a range put by an honest caller makes
      every read outside the range that was a hit before a miss. */
  lemma CompleteIsHidden(s: State, t: Truth, id: BlockId, off: nat, n: nat, now: int, x: nat)
    returns (acts: seq<Action>)
    requires Inv(s, t) && s.lock.Free? && Shadows(s, id) && CapsHold(s, n, 1)
    requires id.index < BlockTotal(s.cfg, t, id.file) && x < |BlockTruth(s.cfg, t, id)|
    requires Aligned(s.cfg.subSize, off, n, |BlockTruth(s.cfg, t, id)|) && !(off <= x < off + n)
    ensures LawfulRun(s, t, acts) && |acts| == 3
    ensures ReadAt(s, id.file, id.index, x, 1) == Some(Cut(BlockTruth(s.cfg, t, id), x, 1))
    ensures ReadAt(Run(s, t, acts), id.file, id.index, x, 1) == None
  {
    hide *;
    NoEntry(s, id);
    acts := RangeRun(s, t, id, off, n, now);
    ByteOutside(s.cfg.subSize, off, n, |BlockTruth(s.cfg, t, id)|, x);
    var s2 := s.(lock := Granted(RangeReq(id, off, n, |t(id.file)|)));
    SameShadow(s, s2.lock, id);
    HiddenByte(s2, id, off, Cut(BlockTruth(s.cfg, t, id), off, n), |t(id.file)|, now, x);
    ByteIsThere(s, t, id, x);
  }

  lemma NoEntry(s: State, id: BlockId)
    requires Shadows(s, id)
    ensures id !in s.blocks
  {
  }

  lemma SameShadow(s: State, l: Lock, id: BlockId)
    ensures Shadows(s.(lock := l), id) == Shadows(s, id)
  {
  }

  lemma HiddenByte(s: State, id: BlockId, off: nat, data: Bytes, size: nat, now: int, x: nat)
    requires Shadows(s, id) && !Named(s.cfg.subSize, off, |data|, x / s.cfg.subSize)
    ensures ReadAt(PutRange(s, id, off, data, size, now), id.file, id.index, x, 1) == None
  {
    hide *;
    var s' := PutRange(s, id, off, data, size, now);
    PutRangeFields(s, id, off, data, size, now);
    RangeHidesRest(s, id, off, data, size, now, x / s.cfg.subSize);
    ByteIsHeld(s', id.file, id.index, x);
    UnheldIsMiss(s', id.file, id.index, x, 1);
  }

  lemma ByteIsThere(s: State, t: Truth, id: BlockId, x: nat)
    requires Inv(s, t) && Shadows(s, id) && x < |BlockTruth(s.cfg, t, id)|
    ensures ReadAt(s, id.file, id.index, x, 1) == Some(Cut(BlockTruth(s.cfg, t, id), x, 1))
  {
    hide Inv, ReadAt, BlockTruth, Cut;
    HitsExactly(s, t, id.file, id.index, x, 1);
  }
}
