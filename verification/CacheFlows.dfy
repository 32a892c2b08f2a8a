/** What every step does to the pins of files and blocks and to the ranges that are there:
    pins change by the calls that set them alone, blocks carry the pin of their file, and
    no step but a few takes anything away that a reader could find. */
module CacheFlows {

  import opened Common
  import opened Sums
  import opened Geometry
  import opened CacheModel
  import opened CacheInvariant
  import opened CacheSteps
  import opened CacheEdits
  import opened CacheCharge
  import opened CacheBudgetSteps
  import opened CacheBudgetRuns
  import opened CacheKeepsBlocks
  import opened CacheKeepsParts
  import opened CacheKeepsWhole
  import opened CacheKeepsHands
  import opened CacheRuns
  import opened CacheCaps
  import opened CacheHits

  /** The file is pinned, for a while or by policy. */
  predicate Guarded(s: State, k: FileKey) {
    k in s.files && (s.files[k].pinned || s.files[k].userPinned)
  }

  /** Every block carries the pin of its file. */
  ghost predicate PinsMatch(s: State) {
    forall id :: id in s.blocks ==> (s.blocks[id].pinned <==> Guarded(s, id.file))
  }

  /** Whether the file is pinned for a while. */
  predicate Saved(files: Files, k: FileKey) {
    k in files && files[k].pinned
  }

  /** Whether it is pinned by policy. */
  predicate Wanted(files: Files, k: FileKey) {
    k in files && files[k].userPinned
  }

  predicate SameFlags(files: Files, files': Files, k: FileKey) {
    Saved(files', k) == Saved(files, k) && Wanted(files', k) == Wanted(files, k)
  }

  /** No more descriptors are open than may be. */
  ghost predicate FewOpen(s: State) {
    OpenCount(s.blocks) <= MAX_OPEN_PARTIALS
  }

  /** Pins of files outside `but` stay, blocks go on carrying them, and, if `hits`, whatever
      was there still is. */
  ghost predicate Flows(s: State, s': State, hits: bool, but: set<FileKey>) {
    && s'.cfg == s.cfg
    && (forall k :: k !in but ==> SameFlags(s.files, s'.files, k))
    && (PinsMatch(s) ==> PinsMatch(s')) && (FewOpen(s) ==> FewOpen(s'))
    && (hits ==> forall k, idx, i :: Covers(s, k, idx, i) ==> Covers(s', k, idx, i))
  }

  lemma FlowOn(s: State, s1: State, s2: State, hits: bool, but: set<FileKey>)
    requires Flows(s, s1, hits, but) && Flows(s1, s2, hits, but)
    ensures Flows(s, s2, hits, but)
  {
    hide Covers, PinsMatch, FewOpen;
    forall k | k !in but ensures SameFlags(s.files, s2.files, k) {
      assert SameFlags(s.files, s1.files, k) && SameFlags(s1.files, s2.files, k);
    }
  }

  lemma FlowLess(s: State, s': State)
    requires Flows(s, s', true, {})
    ensures forall hits, but :: Flows(s, s', hits, but)
  {
    hide Covers, PinsMatch, SameFlags, FewOpen;
  }

  // Steps that leave blocks and sparse files alone.

  predicate SameRecord(files: Files, files': Files, k: FileKey) {
    SameFlags(files, files', k) && (k in files && files[k].whole.Some? ==> k in files' && files'[k].whole.Some?)
  }

  lemma SameFlow(s: State, s': State)
    requires s'.cfg == s.cfg && s'.blocks == s.blocks && s'.parts == s.parts
    requires forall k :: SameRecord(s.files, s'.files, k)
    ensures Flows(s, s', true, {})
  {
    forall k ensures SameFlags(s.files, s'.files, k) { assert SameRecord(s.files, s'.files, k); }
    forall k, idx, i | Covers(s, k, idx, i) ensures Covers(s', k, idx, i) { assert SameRecord(s.files, s'.files, k); }
    forall id | id in s'.blocks ensures Guarded(s', id.file) == Guarded(s, id.file) {
      assert SameFlags(s.files, s'.files, id.file);
    }
  }

  lemma SameFiles(s: State, s': State)
    requires s'.cfg == s.cfg && s'.blocks == s.blocks && s'.parts == s.parts && s'.files == s.files
    ensures Flows(s, s', true, {})
  {
    hide Flows;
    SameFlow(s, s');
  }

  lemma KnownFlow(s: State, k: FileKey)
    ensures Flows(s, Known(s, k), true, {}) && Flows(s, Known(s, k).(lock := Free), true, {})
  {
    hide Flows, Known;
    KnownFields(s, k);
    KnownRecords(s, k);
    SameFlow(s, Known(s, k));
    SameFlow(s, Known(s, k).(lock := Free));
  }

  lemma KnownRecords(s: State, k: FileKey)
    ensures forall j :: SameRecord(s.files, Known(s, k).files, j)
  {
    var files := Known(s, k).files;
    assert k in s.files ==> files == s.files;
    assert k !in s.files ==> files == s.files[k := FileState(s.nextTag, 0, {}, false, false, None, {}, 0)];
    hide Known;
  }

  lemma HoldFlow(s: State, k: FileKey, size: nat)
    requires k in s.files
    ensures Flows(s, Hold(s, k), true, {}) && Flows(s, Hold(SetFile(s, k, FileOf(s, k).(size := size)), k), true, {})
  {
    hide Flows;
    SameFlow(s, Hold(s, k));
    SameFlow(s, Hold(SetFile(s, k, FileOf(s, k).(size := size)), k));
  }

  lemma AskFlow(s: State, s1: State, r: Request)
    requires Flows(s, s1, true, {})
    ensures Flows(s, Asked(s1, r), true, {})
  {
    hide Flows, Room;
    SameFiles(s1, Asked(s1, r));
    FlowOn(s, s1, Asked(s1, r), true, {});
  }

  /** A hold let go, if the file is still the one it was taken on. */
  function LetGo(files: Files, k: FileKey, fileTag: nat, token: nat): Files {
    if k in files && files[k].tag == fileTag then files[k := files[k].(holds := files[k].holds - {token})] else files
  }

  lemma LetGoRecords(files: Files, k: FileKey, fileTag: nat, token: nat)
    ensures forall j :: SameRecord(files, LetGo(files, k, fileTag, token), j)
  {
  }

  lemma ReleaseFiles(s: State, k: FileKey, fileTag: nat, token: nat)
    ensures ReleaseHold(s, k, fileTag, token).files == LetGo(s.files, k, fileTag, token)
  {
    if k in s.files && s.files[k].tag == fileTag {
      assert ReleaseHold(s, k, fileTag, token) == SetFile(s, k, s.files[k].(holds := s.files[k].holds - {token}));
    } else {
      assert ReleaseHold(s, k, fileTag, token) == s;
    }
  }

  lemma UnlockFlow(s: State)
    requires !s.lock.Free?
    ensures Flows(s, Freed(s), true, {})
  {
    hide Flows, Freed;
    FreedIs(s);
    FreedRecords(s);
    SameFlow(s, Freed(s));
  }

  lemma FreedRecords(s: State)
    requires !s.lock.Free?
    ensures forall j :: SameRecord(s.files, Freed(s).files, j)
  {
    hide ReleaseHold, SameRecord, LetGo;
    match s.lock.req {
      case PartReq(id, _, _, token, fileTag) =>
        ReleaseFiles(s, id.file, fileTag, token);
        LetGoRecords(s.files, id.file, fileTag, token);
      case InstallReq(token, i) =>
        ReleaseFiles(s, i.key, i.fileTag, token);
        LetGoRecords(s.files, i.key, i.fileTag, token);
      case _ => KeptRecords(s.files);
    }
  }

  lemma KeptRecords(files: Files)
    ensures forall j :: SameRecord(files, files, j)
  {
  }

  lemma AdmissionFlow(s: State, a: Admission)
    requires CanAdmit(s, a) && !a.Evicts?
    ensures Flows(s, Admitted(s, a), true, {})
  {
    hide Flows, Known, Hold, Asked, Freed, CapsHold, AnyInMemory;
    SameFiles(s, s);
    match a {
      case AskBlock(id, n, size) => AskFlow(s, s, BlockReq(id, n, size));
      case AskRange(id, off, n, size) => AskFlow(s, s, RangeReq(id, off, n, size));
      case AskPart(id, n, size) =>
        var s1 := Known(s, id.file);
        KnownFlow(s, id.file);
        KnownFields(s, id.file);
        HoldFlow(s1, id.file, size);
        var s2 := Hold(SetFile(s1, id.file, FileOf(s1, id.file).(size := size)), id.file);
        FlowOn(s, s1, s2, true, {});
        AskFlow(s, s2, PartReq(id, n, size, s1.nextTag, FileOf(s1, id.file).tag));
      case AskHydrate(k) =>
        HoldFlow(s, k, 0);
        AskFlow(s, Hold(s, k), InstallReq(s.nextTag, NewInstall(s, k, true, s.files[k].size)));
      case AskPutWhole(k, size) =>
        var s1 := Known(s, k);
        KnownFlow(s, k);
        KnownFields(s, k);
        HoldFlow(s1, k, 0);
        FlowOn(s, s1, Hold(s1, k), true, {});
        AskFlow(s, Hold(s1, k), InstallReq(s1.nextTag, NewInstall(s1, k, false, size)));
      case AskLink(k, o, size, pinned) => AskFlow(s, s, LinkReq(k, o, size, pinned));
      case AskSweep => AskFlow(s, s, SweepReq);
      case Grant => SameFiles(s, s.(lock := Granted(s.lock.req)));
      case Unlock => UnlockFlow(s);
    }
  }

  // Edits.

  /** The edit leaves the file's pins and its complete file alone, and the block it writes
      carries the pin. */
  ghost predicate EditPins(s: State, e: Edit) {
    var k := e.id.file;
    && k in s.files && e.file.pinned == s.files[k].pinned && e.file.userPinned == s.files[k].userPinned
    && e.file.whole == s.files[k].whole
    && (PinsMatch(s) && e.block.Some? ==> (e.block.value.pinned <==> Guarded(s, k)))
    && (e.block.Some? && e.block.value.open ==>
          (e.id in s.blocks && s.blocks[e.id].open) || OpenCount(s.blocks) < MAX_OPEN_PARTIALS)
  }

  /** The edit takes nothing away. */
  predicate EditCovers(s: State, e: Edit) {
    var k, b := e.id.file, e.block;
    && (k in s.parts ==> e.part.Some? && s.parts[k].bits <= e.part.value.bits)
    && (|| (e.part.Some? && e.id.index in e.part.value.bits)
        || (if b.Some? then
              || b.value.bits.None?
              || (if e.id in s.blocks then s.blocks[e.id].bits.Some? && s.blocks[e.id].bits.value <= b.value.bits.value
                  else e.file.whole.None?)
            else e.id !in s.blocks || e.file.whole.Some?))
  }

  lemma EditOpens(s: State, e: Edit)
    requires EditPins(s, e)
    ensures FewOpen(s) ==> OpenCount(Put(s.blocks, e.id, e.block)) <= MAX_OPEN_PARTIALS
  {
    hide PinsMatch;
    SumPut(s.blocks, e.id, e.block, OpenOne);
  }

  /** Fewer blocks have no more descriptors. */
  lemma {:induction false} FewerOpen(blocks: map<BlockId, Block>, gone: set<BlockId>)
    ensures OpenCount(blocks - gone) <= OpenCount(blocks)
    decreases |gone|
  {
    if gone == {} {
      assert blocks - gone == blocks;
    } else {
      var id :| id in gone;
      FewerOpen(blocks, gone - {id});
      SumPut(blocks - (gone - {id}), id, None, OpenOne);
      assert (blocks - (gone - {id})) - {id} == blocks - gone;
    }
  }

  lemma EditFlow(s: State, e: Edit, detach: bool, ended: set<nat>, tags: nat, hits: bool)
    requires EditPins(s, e) && (hits ==> EditCovers(s, e))
    ensures Flows(s, Edited(s, e, detach, ended, tags), hits, {})
  {
    hide Edited, OpenCount;
    EditFields(s, e, detach, ended, tags);
    EditOpens(s, e);
    var s' := Edited(s, e, detach, ended, tags);
    if hits {
      forall k, idx, i | Covers(s, k, idx, i) ensures Covers(s', k, idx, i) {
        EditCoversAt(s, e, s', k, idx, i);
      }
    }
  }

  lemma EditCoversAt(s: State, e: Edit, s': State, k: FileKey, idx: nat, i: nat)
    requires e.id.file in s.files && e.file.whole == s.files[e.id.file].whole && EditCovers(s, e)
    requires s'.files == s.files[e.id.file := e.file] && s'.blocks == Put(s.blocks, e.id, e.block)
    requires s'.parts == Put(s.parts, e.id.file, e.part) && Covers(s, k, idx, i)
    ensures Covers(s', k, idx, i)
  {
  }

  lemma PutBlockFlow(s: State, id: BlockId, data: Bytes, size: nat, async: bool, now: int)
    ensures Flows(s, PutBlock(s, id, data, size, async, now), true, {})
  {
    hide Known, ReplaceBlock, Flows, Edited;
    var s1 := Known(s, id.file).(lock := Free);
    KnownFlow(s, id.file);
    KnownFields(s, id.file);
    PutBlockIsEdit(s1, id, data, size, async, now);
    EditFlow(s1, PutBlockEdit(s1, id, data, size, async, now), true, {}, 1, true);
    FlowOn(s, s1, PutBlock(s, id, data, size, async, now), true, {});
  }

  /** A range made into an entry where there was none, beside a complete file. */
  predicate Shadows(s: State, id: BlockId) {
    id !in s.blocks && id.file in s.files && s.files[id.file].whole.Some? && !InSparse(s, id.file, id.index)
  }

  lemma RangePins(s: State, id: BlockId, off: nat, data: Bytes, size: nat, now: int)
    requires id.file in s.files && !(id in s.blocks && s.blocks[id].bits.None?)
    ensures EditPins(s, RangeEdit(s, id, off, data, size, true, now))
    ensures EditPins(s, SyncEdit(s, id, off, data, size, now))
  {
    hide Missing, WriteAt, BaseFile, Cut;
  }

  lemma RangeCovers(s: State, id: BlockId, off: nat, data: Bytes, size: nat, now: int)
    requires id.file in s.files && !(id in s.blocks && s.blocks[id].bits.None?) && !Shadows(s, id)
    ensures EditCovers(s, RangeEdit(s, id, off, data, size, true, now))
    ensures EditCovers(s, SyncEdit(s, id, off, data, size, now))
  {
    hide Missing, WriteAt, BaseFile, Cut;
  }

  lemma AddRangeFlow(s: State, id: BlockId, off: nat, data: Bytes, size: nat, now: int)
    requires id.file in s.files && !(id in s.blocks && s.blocks[id].bits.None?)
    ensures Flows(s, AddRange(s, id, off, data, size, now), !Shadows(s, id), {})
    ensures Flows(s, AddRangeSync(s, id, off, data, size, now), !Shadows(s, id), {})
  {
    hide Flows, Edited, AddRange, AddRangeSync, RangeEdit, SyncEdit, EditPins, EditCovers, Shadows;
    RangePins(s, id, off, data, size, now);
    if !Shadows(s, id) { RangeCovers(s, id, off, data, size, now); }
    PutRangeIsEdit(s, id, off, data, size, now);
    EditFlow(s, RangeEdit(s, id, off, data, size, true, now), false, {}, 1, !Shadows(s, id));
    PutRangeSyncIsEdit(s, id, off, data, size, now);
    EditFlow(s, SyncEdit(s, id, off, data, size, now), false, {}, 1, !Shadows(s, id));
  }

  lemma PutRangeFlow(s: State, id: BlockId, off: nat, data: Bytes, size: nat, now: int)
    ensures Flows(s, PutRange(s, id, off, data, size, now), !Shadows(s, id), {})
    ensures Flows(s, PutRangeSync(s, id, off, data, size, now), !Shadows(s, id), {})
  {
    hide Known, Flows, AddRange, AddRangeSync, WriteAt, BaseFile;
    if id in s.blocks && s.blocks[id].bits.None? {
      SameFiles(s, PutRange(s, id, off, data, size, now));
      SameFiles(s, PutRangeSync(s, id, off, data, size, now));
    } else {
      var s1 := Known(s, id.file).(lock := Free);
      KnownFlow(s, id.file);
      FlowLess(s, s1);
      KnownFields(s, id.file);
      KnownShadows(s, id);
      AddRangeFlow(s1, id, off, data, size, now);
      FlowOn(s, s1, AddRange(s1, id, off, data, size, now), !Shadows(s, id), {});
      FlowOn(s, s1, AddRangeSync(s1, id, off, data, size, now), !Shadows(s, id), {});
    }
  }

  lemma KnownShadows(s: State, id: BlockId)
    ensures Shadows(Known(s, id.file).(lock := Free), id) == Shadows(s, id)
  {
    KnownFields(s, id.file);
    if id.file in s.files {
      assert Known(s, id.file) == s;
    } else {
      assert Known(s, id.file).files[id.file].whole.None?;
    }
    hide Known;
  }

  lemma FillPins(s: State, id: BlockId, data: Bytes, size: nat, holds: set<nat>, gone: bool, unlink: bool, now: int)
    requires id.file in s.files
    ensures var e := FillEdit(s, id, data, size, holds, gone, unlink, now); EditPins(s, e) && EditCovers(s, e)
  {
    hide WithBlock, Sized;
  }

  lemma PutPartFlow(s: State, id: BlockId, data: Bytes, size: nat, token: nat, fileTag: nat, now: int)
    requires id.file in s.files && s.files[id.file].tag == fileTag
    ensures Flows(s, PutPart(s, id, data, size, token, fileTag, now), true, {})
  {
    hide Flows, Edited, PutPart, FillEdit, Refused, EditPins, EditCovers;
    var f := s.files[id.file];
    if Refused(s, id, size) {
      RefusedIsEdit(s, id, data, size, token, now);
      KeptPins(s, id, f.(holds := f.holds - {token}));
      var e := Kept(s, id).(file := f.(holds := f.holds - {token}));
      EditFlow(s, e, false, {}, 0, true);
      LockFlow(s, Edited(s, e, false, {}, 0));
    } else {
      PutPartIsEdit(s, id, data, size, token, now);
      FillPins(s, id, data, size, f.holds - {token}, false, false, now);
      var e := FillEdit(s, id, data, size, f.holds - {token}, false, false, now);
      EditFlow(s, e, false, {}, 1, true);
      LockFlow(s, Edited(s, e, false, {}, 1));
    }
  }

  lemma KeptPins(s: State, id: BlockId, f: FileState)
    requires id.file in s.files && f == s.files[id.file].(holds := f.holds)
    ensures EditPins(s, Kept(s, id).(file := f)) && EditCovers(s, Kept(s, id).(file := f))
  {
  }

  lemma LockFlow(s: State, s': State)
    requires Flows(s, s', true, {})
    ensures Flows(s, s'.(lock := Free), true, {})
  {
    hide Flows;
    SameFiles(s', s'.(lock := Free));
    FlowOn(s, s', s'.(lock := Free), true, {});
  }

  lemma AdoptFlow(s: State, t: Truth, id: BlockId, now: int)
    requires Inv(s, t) && id in s.blocks && id in s.blockFile
    ensures Flows(s, Adopt(s, id, now), true, {})
  {
    hide Inv, Flows, Edited, FillEdit, Adopt, EditPins, EditCovers;
    InvKnown(s, t, id);
    AdoptIsEdit(s, id, now);
    var f := FileOf(s, id.file);
    FillPins(s, id, s.blockFile[id], f.size, f.holds, true, true, now);
    EditFlow(s, FillEdit(s, id, s.blockFile[id], f.size, f.holds, true, true, now), true, {}, 1, true);
  }

  lemma SubsPins(s: State, id: BlockId)
    requires id in s.blocks && id.file in s.files && s.blocks[id].bits.Some?
    ensures EditPins(s, SubsEdit(s, id)) && EditCovers(s, SubsEdit(s, id))
    ensures EditPins(s, Kept(s, id).(block := None, onDisk := None))
  {
    hide Overlay, BaseFile, PieceCount;
  }

  lemma FlushSubsFlow(s: State, t: Truth, id: BlockId, ok: bool)
    requires Inv(s, t) && id in s.blocks && s.blocks[id].bits.Some?
    ensures Flows(s, FlushSubs(s, id, ok), ok, {})
  {
    hide Inv, Flows, Edited, FlushSubs, SubsEdit, EditPins, EditCovers;
    InvKnown(s, t, id);
    if s.blocks[id].subs == map[] {
      NothingToFlush(s, id, ok);
      SameFiles(s, s);
      FlowLess(s, s);
    } else {
      FlushSubsIsEdit(s, id);
      SubsPins(s, id);
      EditFlow(s, SubsEdit(s, id), false, {}, 0, true);
      EditFlow(s, Kept(s, id).(block := None, onDisk := None), true, {}, 0, false);
    }
  }

  /** The flush ends with its block on disk, or has no block any more. */
  predicate Lands(s: State, u: nat, ok: bool)
    requires u in s.flushes
  {
    !Owns(s, u) || (ok && !s.flushes[u].sparse)
  }

  lemma EndFlushFlow(s: State, t: Truth, u: nat, ok: bool)
    requires Inv(s, t) && u in s.flushes
    ensures Flows(s, FlushFinish(s, u, ok), Lands(s, u, ok), {})
  {
    hide Inv, Flows, Edited, FlushFinish;
    if Owns(s, u) {
      InvKnown(s, t, s.flushes[u].id);
      FlushIsEdit(s, u, ok);
      EditFlow(s, FlushedEdit(s, u), false, {u}, 0, true);
      EditFlow(s, LostEdit(s, u), false, {u}, 0, false);
    } else {
      StaleIs(s, u, ok);
      SameFiles(s, s.(flushes := s.flushes - {u}));
    }
  }

  lemma EnsureFlow(s: State, u: nat, now: int)
    requires u in s.flushes
    ensures Flows(s, HandEnsure(s, u, now), true, {})
  {
    hide Flows, Edited, Known, MadePart, EnsureEdit, EditPins, EditCovers;
    var f := s.flushes[u];
    var k, s1, s2 := f.id.file, Known(s, f.id.file), WithPart(s, f.id.file, f.size, now);
    KnownFields(s, k);
    WithPartFields(s, k, f.size, now);
    if k in s.parts {
      SameFiles(s, s2);
    } else {
      KnownFlow(s, k);
      MadePartIsEdit(s1, k, f.size, now);
      MadePins(s1, k, f.size, now);
      EditFlow(s1, EnsureEdit(s1, k, f.size, now), false, {}, 1, true);
      FlowOn(s, s1, s2, true, {});
    }
    SameFiles(s2, HandEnsure(s, u, now));
    FlowOn(s, s2, HandEnsure(s, u, now), true, {});
  }

  lemma MadePins(s: State, k: FileKey, size: nat, now: int)
    requires k in s.files && k !in s.parts
    ensures var e := EnsureEdit(s, k, size, now); EditPins(s, e) && EditCovers(s, e)
  {
    hide PartBefore;
  }

  lemma HandDropFlow(s: State, t: Truth, u: nat)
    requires Inv(s, t) && u in s.flushes && s.flushes[u].part.Some? && Owns(s, u)
    ensures Flows(s, HandDrop(s, u), false, {})
  {
    hide Inv, Flows, Edited, HandDrop;
    InvKnown(s, t, s.flushes[u].id);
    HandDropIsEdit(s, u);
    var s1 := Edited(s, HandDropEdit(s, u), false, {u}, 0);
    EditFlow(s, HandDropEdit(s, u), false, {u}, 0, false);
    SameFiles(s1, HandDrop(s, u));
    FlowLess(s1, HandDrop(s, u));
    FlowOn(s, s1, HandDrop(s, u), false, {});
  }

  lemma HandNoteFlow(s: State, t: Truth, u: nat, now: int)
    requires Inv(s, t) && u in s.notes
    ensures Flows(s, HandNote(s, u, now), true, {})
  {
    hide Inv, Flows, HandNote, FillEdit, Edited, EditPins, EditCovers;
    var n, s1 := s.notes[u], s.(notes := s.notes - {u});
    SameFiles(s, s1);
    if Live(s, n) {
      LivePart(s, t, n);
      HandNoteIs(s, t, u, now);
      var e := FillEdit(s1, n.id, n.data, s.parts[n.id.file].size, FileOf(s, n.id.file).holds, false, false, now);
      FillPins(s1, n.id, n.data, s.parts[n.id.file].size, FileOf(s, n.id.file).holds, false, false, now);
      EditFlow(s1, e, false, {}, 1, true);
      FlowOn(s, s1, HandNote(s, u, now), true, {});
    } else {
      NotNoted(s, u, now);
    }
  }

  // Recency.

  lemma TouchFlow(s: State, k: FileKey, idx: nat, now: int)
    ensures Flows(s, TouchWhole(TouchBlock(s, k, idx, now), k, now), true, {})
  {
    hide Flows, TouchBlock;
    var s1 := TouchBlock(s, k, idx, now);
    TouchBlockFlow(s, k, idx, now);
    SameFiles(s1, TouchWhole(s1, k, now));
    FlowOn(s, s1, TouchWhole(s1, k, now), true, {});
  }

  lemma TouchBlockFlow(s: State, k: FileKey, idx: nat, now: int)
    ensures Flows(s, TouchBlock(s, k, idx, now), true, {})
  {
    var s', id := TouchBlock(s, k, idx, now), BlockId(k, idx);
    if s'.blocks != s.blocks { SumUpdate(s.blocks, OpenOne, id, s.blocks[id].(lastAccess := now, hot := true)); }
    forall j, x, i | Covers(s, j, x, i) ensures Covers(s', j, x, i) {
    }
  }

  // Complete files.

  lemma AttachFiles(s: State, t: Truth, k: FileKey, o: nat, data: Bytes, now: int)
    requires Inv(s, t) && k in s.files
    ensures var s' := Attach(s, k, o, data, now);
      && s'.cfg == s.cfg && s'.blocks == s.blocks && s'.parts == s.parts
      && s'.files == s.files[k := s.files[k].(whole := Some(o), size := |data|)]
  {
    hide Inv, Detach;
    if s.files[k].whole != Some(o) { DetachKeeps(s, t, k); }
  }

  lemma AttachFlow(s: State, t: Truth, k: FileKey, o: nat, data: Bytes, now: int)
    requires Inv(s, t) && k in s.files
    ensures Flows(s, Attach(s, k, o, data, now), true, {})
  {
    hide Inv, Flows, Attach;
    AttachFiles(s, t, k, o, data, now);
    SameFlow(s, Attach(s, k, o, data, now));
  }

  /** A complete file takes the place of the blocks and the sparse file. */
  lemma WipedFlow(s: State, k: FileKey, f: FileState, but: set<FileKey>)
    requires k in s.files && f.whole.Some?
    requires k in but || (f.pinned == s.files[k].pinned && f.userPinned == s.files[k].userPinned)
    ensures Flows(s, Wiped(s, k, f), true, but)
  {
    var s' := Wiped(s, k, f);
    assert s'.files == s.files[k := f.(present := {})] && s'.parts == s.parts - {k};
    assert s'.blocks == s.blocks - BlocksOf(s, k);
    FewerOpen(s.blocks, BlocksOf(s, k));
    forall j, idx, i | Covers(s, j, idx, i) ensures Covers(s', j, idx, i) {
    }
    forall id | id in s'.blocks ensures id.file != k && s'.blocks[id] == s.blocks[id] {
    }
  }

  lemma InstalledFlow(s: State, t: Truth, k: FileKey, o: nat, data: Bytes, pinned: bool, now: int)
    requires Inv(s, t) && k in s.files
    ensures Flows(s, Installed(s, k, o, data, pinned, now), true, if pinned then {k} else {})
  {
    hide Inv, Flows, Attach, RemoveFileBlocks, Wiped;
    var s1, but: set<FileKey> := Attach(s, k, o, data, now), if pinned then {k} else {};
    AttachFlow(s, t, k, o, data, now);
    AttachFiles(s, t, k, o, data, now);
    FlowLess(s, s1);
    var f := s1.files[k].(pinned := s1.files[k].pinned || pinned, generation := s1.files[k].generation + 1);
    WipedIs(s1, k, f);
    WipedFlow(s1, k, f, but);
    FlowOn(s, s1, Wiped(s1, k, f), true, but);
  }

  lemma EndInstallFlow(s: State, u: nat)
    requires u in s.installs
    ensures Flows(s, EndInstall(s, u), true, {})
  {
    hide Flows, EndInstall;
    EndInstallIndex(s, u);
    EndInstallFiles(s, u);
    SameFlow(s, EndInstall(s, u));
  }

  lemma HydrateFlow(s: State, t: Truth, u: nat, o: nat, now: int)
    requires Inv(s, t) && u in s.installs && s.installs[u].key in s.files
    ensures Flows(s, HydrateFinish(s, u, o, now), true, {})
  {
    hide Inv, Flows, Attach, RemoveFileBlocks, Wiped, EndInstall;
    var i, s0 := s.installs[u], EndInstall(s, u);
    EndInstallFlow(s, u);
    EndInstallKeeps(s, t, u);
    EndInstallIs(s, u);
    var s1 := Attach(s0, i.key, o, i.temp, now);
    AttachFlow(s0, t, i.key, o, i.temp, now);
    AttachFiles(s0, t, i.key, o, i.temp, now);
    assert SetFile(s1, i.key, s1.files[i.key]) == s1;
    WipedIs(s1, i.key, s1.files[i.key]);
    WipedFlow(s1, i.key, s1.files[i.key], {});
    FlowOn(s, s0, s1, true, {});
    FlowOn(s, s1, HydrateFinish(s, u, o, now), true, {});
  }

  lemma PutWholeFlow(s: State, t: Truth, u: nat, o: nat, data: Bytes, now: int)
    requires Inv(s, t) && u in s.installs && s.installs[u].key in s.files
    ensures Flows(s, PutWholeFinish(s, u, o, data, now), true, {})
  {
    hide Inv, Flows, Installed, EndInstall;
    var s0 := EndInstall(s, u);
    EndInstallFlow(s, u);
    EndInstallKeeps(s, t, u);
    EndInstallIs(s, u);
    InstalledFlow(s0, t, s.installs[u].key, o, data, false, now);
    FlowOn(s, s0, PutWholeFinish(s, u, o, data, now), true, {});
  }

  // Steps that take something away.

  lemma FlagsFlow(s: State, s': State)
    requires s'.cfg == s.cfg && s'.blocks == s.blocks && forall k :: SameFlags(s.files, s'.files, k)
    ensures Flows(s, s', false, {})
  {
    forall id | id in s'.blocks ensures Guarded(s', id.file) == Guarded(s, id.file) {
      assert SameFlags(s.files, s'.files, id.file);
    }
  }

  lemma EvictFlow(s: State, t: Truth, v: Victim)
    requires Inv(s, t) && Evictable(s, v, None)
    ensures Flows(s, Evict(s, v), v.TempVictim?, {})
  {
    hide Inv, Flows, DropBlock, EvictObject, ForgetPart, Edited;
    match v {
      case TempVictim(p) => SameFiles(s, s.(temps := s.temps - {p}));
      case BlockVictim(id) =>
        InvKnown(s, t, id);
        DropBlockIsEdit(s, id);
        EditFlow(s, EvictEdit(s, id), true, {}, 0, false);
      case ObjectVictim(o) =>
        EvictObjectFlags(s, o);
        FlagsFlow(s, EvictObject(s, o));
      case PartVictim(k) =>
        ForgetPartFlags(s, k);
        FlagsFlow(s, ForgetPart(s, k));
    }
  }

  lemma EvictObjectFlags(s: State, o: nat)
    requires o in s.objects
    ensures var s' := EvictObject(s, o);
      s'.cfg == s.cfg && s'.blocks == s.blocks && forall k :: SameFlags(s.files, s'.files, k)
  {
    hide Released;
    var refs := s.objects[o].refs;
    var s1 := s.(files := Unlinked(s.files, refs), objects := s.objects[o := s.objects[o].(refs := {})]);
    if refs != {} { ReleasedIs(s1, o); }
  }

  lemma ForgetPartFlags(s: State, k: FileKey)
    requires k in s.parts
    ensures var s' := ForgetPart(s, k);
      s'.cfg == s.cfg && s'.blocks == s.blocks && forall j :: SameFlags(s.files, s'.files, j)
  {
  }

  lemma ForgetFlow(s: State, t: Truth, k: FileKey)
    requires Inv(s, t)
    ensures Flows(s, Forget(s, k), false, {k})
  {
    hide Inv, Flows, Detach, Emptied, Forget;
    if k in s.files {
      var s1 := Detach(s, k);
      DetachKeeps(s, t, k);
      FlagsFlow(s, s1);
      FlowBut(s, s1, {k});
      ForgetIs(s, k);
      GoneFlow(s1, k);
      FlowOn(s, s1, Forget(s, k), false, {k});
    } else {
      ForgetNothing(s, k);
      SameFiles(s, s);
      FlowLess(s, s);
    }
  }

  lemma FlowBut(s: State, s': State, but: set<FileKey>)
    requires Flows(s, s', false, {})
    ensures Flows(s, s', false, but)
  {
    hide PinsMatch, SameFlags, FewOpen;
  }

  lemma GoneFlow(s: State, k: FileKey)
    ensures Flows(s, Emptied(s, k, s.files - {k}), false, {k})
  {
    var s' := Emptied(s, k, s.files - {k});
    assert s'.blocks == s.blocks - BlocksOf(s, k);
    FewerOpen(s.blocks, BlocksOf(s, k));
    forall id | id in s'.blocks ensures id.file != k && s'.blocks[id] == s.blocks[id] {
    }
  }

  // Pins.

  lemma PinFlow(s: State, k: FileKey, pinned: bool, user: bool)
    ensures Flows(s, Pinned(s, k, pinned, user), true, {k})
  {
    hide Flows, Known, Repinned;
    if user && FileOf(s, k).userPinned == pinned {
      SameFiles(s, s);
      FlowLess(s, s);
    } else {
      var s1 := Known(s, k);
      KnownFlow(s, k);
      FlowLess(s, s1);
      KnownFields(s, k);
      var f := if user then FileOf(s1, k).(userPinned := pinned) else FileOf(s1, k).(pinned := pinned);
      RepinFlow(s1, k, f);
      FlowOn(s, s1, Pinned(s, k, pinned, user), true, {k});
    }
  }

  lemma RepinFlow(s: State, k: FileKey, f: FileState)
    requires k in s.files && f.whole == s.files[k].whole
    ensures Flows(s, SetFile(s, k, f).(blocks := Repinned(s.blocks, k, f.pinned || f.userPinned)), true, {k})
  {
    var s' := SetFile(s, k, f).(blocks := Repinned(s.blocks, k, f.pinned || f.userPinned));
    RepinOpens(s, k, f);
    forall j, idx, i | Covers(s, j, idx, i) ensures Covers(s', j, idx, i) {
    }
  }

  lemma RepinOpens(s: State, k: FileKey, f: FileState)
    ensures OpenCount(Repinned(s.blocks, k, f.pinned || f.userPinned)) == OpenCount(s.blocks)
  {
    SumAlike(s.blocks, Repinned(s.blocks, k, f.pinned || f.userPinned), OpenOne);
  }

  // All steps.

  /** The steps after which something that was there may not be: an eviction, a flush that
      fails, a block on its way into its sparse file, Forget, and a range put that makes an
      entry beside a complete file. */
  ghost predicate MayHide(s: State, a: Action)
    requires Enabled(s, a)
  {
    match a
    case Admit(x) => x.Evicts? && !x.victim.TempVictim?
    case Store(x) => (x.CommitRange? || x.CommitRangeSync?) && Shadows(s, s.lock.req.id)
    case Do(x) =>
      match x
      case EndFlush(u, ok) => !Lands(s, u, ok)
      case FlushPartial(_, ok) => !ok
      case DropHanded(_) => true
      case ForgetFile(_) => true
      case _ => false
  }

  /** The files whose pins the step sets. */
  ghost function Repins(s: State, a: Action): set<FileKey>
    requires Enabled(s, a)
  {
    match a
    case Admit(_) => {}
    case Store(x) => if x.CommitLink? && s.lock.req.pinned then {s.lock.req.key} else {}
    case Do(x) => if x.SetPin? || x.ForgetFile? then {x.key} else {}
  }

  lemma StoreFlow(s: State, t: Truth, a: Commit)
    requires Inv(s, t) && CanStore(s, a)
    ensures Flows(s, Stored(s, a), !MayHide(s, Store(a)), Repins(s, Store(a)))
  {
    hide KeysInv, TagsInv, WholeInv, FlushInv, InstallInv, HandInv, InstallOk, Flows, PutBlock, PutRange,
         PutRangeSync, PutPart, Installed, Known, Shadows;
    var r := s.lock.req;
    match a {
      case CommitPut(data, now) => PutBlockFlow(s, r.id, data, r.size, false, now);
      case CommitAsync(data, now) => PutBlockFlow(s, r.id, data, r.size, true, now);
      case CommitRange(data, now) => PutRangeFlow(s, r.id, r.off, data, r.size, now);
      case CommitRangeSync(data, now) => PutRangeFlow(s, r.id, r.off, data, r.size, now);
      case CommitPart(data, now) => PutPartFlow(s, r.id, data, r.size, r.token, r.fileTag, now);
      case CommitReserve => SameFiles(s, s.(installs := s.installs[r.token := r.install], lock := Free));
      case CommitLink(data, now) => LinkFlow(s, t, r.key, r.inode, data, r.pinned, now);
    }
  }

  lemma LinkFlow(s: State, t: Truth, k: FileKey, o: nat, data: Bytes, pinned: bool, now: int)
    requires Inv(s, t)
    ensures Flows(s, Installed(Known(s, k).(lock := Free), k, o, data, pinned, now), true, if pinned then {k} else {})
  {
    hide Inv, Flows, Installed, Known;
    var s1 := Known(s, k).(lock := Free);
    KnownFlow(s, k);
    FlowLess(s, s1);
    KnownFields(s, k);
    KnownKeeps(s, t, k);
    InstalledFlow(s1, t, k, o, data, pinned, now);
    FlowOn(s, s1, Installed(s1, k, o, data, pinned, now), true, if pinned then {k} else {});
  }

  lemma WorkFlow(s: State, t: Truth, a: Work)
    requires Inv(s, t) && CanDo(s, a)
    ensures Flows(s, Done(s, a), !MayHide(s, Do(a)), Repins(s, Do(a)))
  {
    hide Inv, Flows, FlushFinish, HandDrop, FlushSubs, Forget, Pinned, PieceCount, Lands, Owns;
    match a {
      case EndFlush(u, ok) => EndFlushFlow(s, t, u, ok);
      case DropHanded(u) => HandDropFlow(s, t, u);
      case FlushPartial(id, ok) => FlushSubsFlow(s, t, id, ok);
      case ForgetFile(k) => ForgetFlow(s, t, k);
      case SetPin(k, pinned, user) => PinFlow(s, k, pinned, user);
      case _ => QuietFlow(s, t, a);
    }
  }

  /** Work that takes nothing away and sets no pin. */
  lemma QuietFlow(s: State, t: Truth, a: Work)
    requires Inv(s, t) && CanDo(s, a)
    requires !a.EndFlush? && !a.DropHanded? && !a.FlushPartial? && !a.ForgetFile? && !a.SetPin?
    ensures Flows(s, Done(s, a), true, {})
  {
    hide Inv, Flows, HandEnsure, HandNote, Adopt, Installed, HydrateFinish, PutWholeFinish, EndInstall, TouchBlock,
         TouchWhole, PieceCount, CloseWhole;
    match a {
      case BeginFlush(id) => SameFiles(s, FlushBegin(s, id));
      case EnsurePart(u, now) => EnsureFlow(s, u, now);
      case NoteHanded(u, now) => HandNoteFlow(s, t, u, now);
      case AdoptBlock(id, now) => AdoptFlow(s, t, id, now);
      case Lease(k, now) => SameFiles(s, OpenWhole(s, k, now));
      case Unlease(o) => UnleaseFlow(s, o);
      case LookUp(k, idx, now) => TouchFlow(s, k, idx, now);
      case CloseCache => SameFiles(s, s.(closed := true));
      case _ => InstallFlow(s, t, a);
    }
  }

  /** Publications and installs in flight. */
  lemma InstallFlow(s: State, t: Truth, a: Work)
    requires Inv(s, t) && CanDo(s, a)
    requires a.Publish? || a.CopyNext? || a.FinishHydrate? || a.FinishPutWhole? || a.AbortInstall?
    ensures Flows(s, Done(s, a), true, {})
  {
    hide Inv, Flows, Installed, HydrateFinish, PutWholeFinish, EndInstall, PieceCount;
    match a {
      case Publish(k, o, now) => InstalledFlow(s, t, k, o, s.partFile[k], false, now);
      case CopyNext(u) => SameFiles(s, HydrateCopy(s, u));
      case FinishHydrate(u, o, now) => HydrateFlow(s, t, u, o, now);
      case FinishPutWhole(u, o, data, now) => PutWholeFlow(s, t, u, o, data, now);
      case AbortInstall(u) => EndInstallFlow(s, u);
    }
  }

  lemma UnleaseFlow(s: State, o: nat)
    requires o in s.objects && s.objects[o].readers > 0
    ensures Flows(s, CloseWhole(s, o), true, {})
  {
    hide Flows, CloseWhole;
    CloseIs(s, o);
    SameFiles(s, CloseWhole(s, o));
  }

  /** Every step: pins change for the files it sets them on alone, blocks go on carrying
      them, and unless it is one of the few that may hide something, whatever a reader
      could find before it can be found after it. */
  lemma StepFlows(s: State, t: Truth, a: Action)
    requires Inv(s, t) && Enabled(s, a)
    ensures Flows(s, Next(s, a), !MayHide(s, a), Repins(s, a))
  {
    hide Inv, Flows, CanAdmit, CanStore, CanDo, Admitted, Stored, Done, Evict;
    match a {
      case Admit(x) => if x.Evicts? { EvictAsked(s, t, x.victim); } else { AdmissionFlow(s, x); }
      case Store(x) => StoreFlow(s, t, x);
      case Do(x) => WorkFlow(s, t, x);
    }
  }

  lemma EvictAsked(s: State, t: Truth, v: Victim)
    requires Inv(s, t) && CanAdmit(s, Evicts(v))
    ensures Flows(s, Admitted(s, Evicts(v)), v.TempVictim?, {})
  {
    hide Inv, Flows, Evict;
    EvictFlow(s, t, v);
  }
  lemma StepConfig(s: State, t: Truth, a: Action)
    requires Inv(s, t) && Enabled(s, a)
    ensures Next(s, a).cfg == s.cfg
  {
    hide Inv, Enabled, Next;
    StepFlows(s, t, a);
  }

  lemma SameTruth(s: State, s': State, t: Truth, id: BlockId)
    requires s'.cfg == s.cfg
    ensures BlockTruth(s'.cfg, t, id) == BlockTruth(s.cfg, t, id)
  {
  }

  // Runs.

  /** The blocks with an open descriptor. */
  function OpenBlocks(blocks: map<BlockId, Block>): set<BlockId> {
    set id | id in blocks && blocks[id].open
  }

  lemma {:induction false} OpenCountIs(blocks: map<BlockId, Block>)
    ensures OpenCount(blocks) == |OpenBlocks(blocks)|
    decreases |blocks|
  {
    if blocks == map[] {
      assert OpenBlocks(blocks) == {};
    } else {
      var id :| id in blocks;
      var rest := blocks - {id};
      SumRemove(blocks, OpenOne, id);
      SizeRemove(blocks, id);
      OpenCountIs(rest);
      assert OpenBlocks(blocks) == if blocks[id].open then OpenBlocks(rest) + {id} else OpenBlocks(rest);
    }
  }

  /** After every run blocks carry the pin of their file, and no more than 256 descriptors of
      blocks being filled are open. */
  lemma {:induction false} RunFlows(s: State, t: Truth, acts: seq<Action>)
    requires Inv(s, t) && LawfulRun(s, t, acts) && PinsMatch(s) && FewOpen(s)
    ensures PinsMatch(Run(s, t, acts)) && FewOpen(Run(s, t, acts)) && |OpenBlocks(Run(s, t, acts).blocks)| <= 256
    decreases |acts|
  {
    hide Inv, PinsMatch, Enabled, Honest, SpoilsNothing, Next, OpenCount, OpenBlocks;
    OpenCountIs(s.blocks);
    if acts != [] {
      StepKeeps(s, t, acts[0]);
      StepFlows(s, t, acts[0]);
      RunFlows(Next(s, acts[0]), t, acts[1..]);
    }
  }
}
