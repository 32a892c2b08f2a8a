/** The blocks a file claims to have. A claim is backed by the block or by the sparse file,
    or the block is on its way into the sparse file. Which steps leave a claim with
    nothing behind it, exactly. */
module CacheClaims {

  import opened Common
  import opened Geometry
  import opened CacheModel
  import opened CacheInvariant
  import opened CacheSteps
  import opened CacheEdits
  import opened CacheBudgetSteps
  import opened CacheKeepsBlocks
  import opened CacheKeepsParts
  import opened CacheKeepsWhole
  import opened CacheKeepsCalls
  import opened CacheKeepsHands
  import opened CacheRuns
  import opened CacheCaps

  /** The file claims the block, and it is neither in the index nor in the sparse file. */
  predicate Unbacked(s: State, k: FileKey, i: nat) {
    k in s.files && i in s.files[k].present && !Backed(s, k, i)
  }

  /** It is on its way into the sparse file that is there. */
  ghost predicate Coming(s: State, k: FileKey, i: nat) {
    exists u :: u in s.notes && s.notes[u].id == BlockId(k, i) && Live(s, s.notes[u])
  }

  ghost predicate ClaimsHold(s: State) {
    forall k, i :: Unbacked(s, k, i) ==> Coming(s, k, i)
  }

  predicate PartStays(s: State, s': State, k: FileKey) {
    k in s.parts ==> k in s'.parts && s'.parts[k].tag == s.parts[k].tag
  }

  /** No claim lost what was behind it. */
  ghost predicate ClaimsMove(s: State, s': State) {
    forall k, i :: Unbacked(s', k, i) ==> Unbacked(s, k, i) && PartStays(s, s', k)
  }

  lemma MoveOn(s: State, s1: State, s2: State)
    requires ClaimsMove(s, s1) && ClaimsMove(s1, s2)
    ensures ClaimsMove(s, s2)
  {
    hide Unbacked;
  }

  lemma MovedHold(s: State, s': State)
    requires ClaimsMove(s, s') && s'.notes == s.notes && ClaimsHold(s)
    ensures ClaimsHold(s')
  {
    hide Unbacked;
    forall k, i | Unbacked(s', k, i) ensures Coming(s', k, i) {
      var u :| u in s.notes && s.notes[u].id == BlockId(k, i) && Live(s, s.notes[u]);
      assert u in s'.notes && Live(s', s'.notes[u]);
    }
  }

  // Steps that leave blocks and sparse files alone.

  predicate SamePresent(s: State, s': State) {
    forall k :: k in s'.files ==>
      s'.files[k].present == {} || (k in s.files && s'.files[k].present == s.files[k].present)
  }

  lemma SameMove(s: State, s': State)
    requires s'.blocks == s.blocks && s'.parts == s.parts && SamePresent(s, s')
    ensures ClaimsMove(s, s')
  {
  }

  lemma KnownMove(s: State, k: FileKey)
    ensures ClaimsMove(s, Known(s, k).(lock := Free)) && ClaimsMove(s, Known(s, k))
  {
    hide ClaimsMove;
    KnownPresent(s, k);
    KnownFields(s, k);
    SameMove(s, Known(s, k));
    SameMove(s, Known(s, k).(lock := Free));
  }

  lemma KnownPresent(s: State, k: FileKey)
    ensures SamePresent(s, Known(s, k)) && SamePresent(s, Known(s, k).(lock := Free))
  {
    if k in s.files { assert Known(s, k) == s; }
  }

  // Edits.

  /** The edit backs what it claims, or the claim was there before with nothing of what the
      edit takes away behind it. */
  ghost predicate EditStays(s: State, e: Edit) {
    var k := e.id.file;
    && k in s.files
    && (k in s.parts ==>
          && e.part.Some? && e.part.value.tag == s.parts[k].tag && s.parts[k].bits <= e.part.value.bits)
    && forall i :: i in e.file.present ==>
         || Backs(e, i)
         || (i in s.files[k].present && (i == e.id.index ==> !(e.id in s.blocks && s.blocks[e.id].bits.None?)))
  }

  lemma EditMove(s: State, e: Edit, detach: bool, ended: set<nat>, tags: nat)
    requires EditStays(s, e)
    ensures ClaimsMove(s, Edited(s, e, detach, ended, tags))
  {
    hide Edited;
    EditFields(s, e, detach, ended, tags);
    var s' := Edited(s, e, detach, ended, tags);
    forall k, i | Unbacked(s', k, i) ensures Unbacked(s, k, i) && PartStays(s, s', k) {
      if k == e.id.file { assert !Backs(e, i); }
    }
  }

  lemma PutBlockMove(s: State, id: BlockId, data: Bytes, size: nat, async: bool, now: int)
    ensures ClaimsMove(s, PutBlock(s, id, data, size, async, now))
  {
    hide Known, ReplaceBlock, ClaimsMove, Edited;
    var s1 := Known(s, id.file).(lock := Free);
    KnownMove(s, id.file);
    KnownFields(s, id.file);
    PutBlockIsEdit(s1, id, data, size, async, now);
    EditMove(s1, PutBlockEdit(s1, id, data, size, async, now), true, {}, 1);
    MoveOn(s, s1, PutBlock(s, id, data, size, async, now));
  }

  lemma AddRangeMove(s: State, id: BlockId, off: nat, data: Bytes, size: nat, now: int)
    requires id.file in s.files && !(id in s.blocks && s.blocks[id].bits.None?)
    ensures ClaimsMove(s, AddRange(s, id, off, data, size, now))
    ensures ClaimsMove(s, AddRangeSync(s, id, off, data, size, now))
  {
    hide ClaimsMove, Edited, AddRange, AddRangeSync, Extended, Settled, Missing, WriteAt, BaseFile;
    PutRangeIsEdit(s, id, off, data, size, now);
    EditMove(s, RangeEdit(s, id, off, data, size, true, now), false, {}, 1);
    PutRangeSyncIsEdit(s, id, off, data, size, now);
    EditMove(s, SyncEdit(s, id, off, data, size, now), false, {}, 1);
  }

  lemma PutRangeMove(s: State, t: Truth, id: BlockId, off: nat, data: Bytes, size: nat, now: int)
    requires Inv(s, t)
    ensures ClaimsMove(s, PutRange(s, id, off, data, size, now))
    ensures ClaimsMove(s, PutRangeSync(s, id, off, data, size, now))
  {
    hide Inv, Known, ClaimsMove, AddRange, AddRangeSync, WriteAt, BaseFile;
    if id in s.blocks && s.blocks[id].bits.None? {
      InvKnown(s, t, id);
      SameMove(s, PutRange(s, id, off, data, size, now));
      SameMove(s, PutRangeSync(s, id, off, data, size, now));
    } else {
      var s1 := Known(s, id.file).(lock := Free);
      KnownMove(s, id.file);
      KnownFields(s, id.file);
      AddRangeMove(s1, id, off, data, size, now);
      MoveOn(s, s1, AddRange(s1, id, off, data, size, now));
      MoveOn(s, s1, AddRangeSync(s1, id, off, data, size, now));
    }
  }

  lemma FillStays(s: State, id: BlockId, data: Bytes, size: nat, holds: set<nat>, gone: bool, unlink: bool, now: int)
    requires id.file in s.files
    ensures EditStays(s, FillEdit(s, id, data, size, holds, gone, unlink, now))
  {
    hide WithBlock, Sized;
  }

  lemma PutPartMove(s: State, id: BlockId, data: Bytes, size: nat, token: nat, fileTag: nat, now: int)
    requires id.file in s.files && s.files[id.file].tag == fileTag
    ensures ClaimsMove(s, PutPart(s, id, data, size, token, fileTag, now))
  {
    hide ClaimsMove, Edited, PutPart, FillEdit, Refused, EditStays;
    var f := s.files[id.file];
    if Refused(s, id, size) {
      RefusedIsEdit(s, id, data, size, token, now);
      HeldStays(s, id, f.(holds := f.holds - {token}));
      var e := Kept(s, id).(file := f.(holds := f.holds - {token}));
      EditMove(s, e, false, {}, 0);
      LockMove(s, Edited(s, e, false, {}, 0));
    } else {
      PutPartIsEdit(s, id, data, size, token, now);
      FillStays(s, id, data, size, f.holds - {token}, false, false, now);
      var e := FillEdit(s, id, data, size, f.holds - {token}, false, false, now);
      EditMove(s, e, false, {}, 1);
      LockMove(s, Edited(s, e, false, {}, 1));
    }
  }

  lemma HeldStays(s: State, id: BlockId, f: FileState)
    requires id.file in s.files && f.present == s.files[id.file].present
    ensures EditStays(s, Kept(s, id).(file := f))
  {
  }

  lemma LockMove(s: State, s': State)
    requires ClaimsMove(s, s')
    ensures ClaimsMove(s, s'.(lock := Free))
  {
    hide ClaimsMove;
    SameMove(s', s'.(lock := Free));
    MoveOn(s, s', s'.(lock := Free));
  }

  lemma AdoptMove(s: State, t: Truth, id: BlockId, now: int)
    requires Inv(s, t) && id in s.blocks && id in s.blockFile
    ensures ClaimsMove(s, Adopt(s, id, now))
  {
    hide Inv, ClaimsMove, Edited, FillEdit, Adopt, EditStays;
    InvKnown(s, t, id);
    AdoptIsEdit(s, id, now);
    var f := FileOf(s, id.file);
    FillStays(s, id, s.blockFile[id], f.size, f.holds, true, true, now);
    EditMove(s, FillEdit(s, id, s.blockFile[id], f.size, f.holds, true, true, now), true, {}, 1);
  }

  lemma FlushSubsMove(s: State, t: Truth, id: BlockId, ok: bool)
    requires Inv(s, t) && id in s.blocks && s.blocks[id].bits.Some?
    ensures ClaimsMove(s, FlushSubs(s, id, ok))
  {
    hide Inv, ClaimsMove, Edited, FlushSubs, Settled, Overlay, BaseFile;
    InvKnown(s, t, id);
    if s.blocks[id].subs == map[] {
      NothingToFlush(s, id, ok);
      SameMove(s, s);
    } else {
      FlushSubsIsEdit(s, id);
      EditMove(s, SubsEdit(s, id), false, {}, 0);
      EditMove(s, Kept(s, id).(block := None, onDisk := None), true, {}, 0);
    }
  }

  lemma EndFlushMove(s: State, t: Truth, u: nat, ok: bool)
    requires Inv(s, t) && u in s.flushes
    ensures ClaimsMove(s, FlushFinish(s, u, ok))
  {
    hide Inv, ClaimsMove, Edited, FlushFinish;
    if Owns(s, u) {
      InvKnown(s, t, s.flushes[u].id);
      FlushIsEdit(s, u, ok);
      EditMove(s, FlushedEdit(s, u), false, {u}, 0);
      EditMove(s, LostEdit(s, u), false, {u}, 0);
    } else {
      StaleIs(s, u, ok);
      SameMove(s, s.(flushes := s.flushes - {u}));
    }
  }

  lemma EvictBlockMove(s: State, t: Truth, id: BlockId)
    requires Inv(s, t) && id in s.blocks
    ensures ClaimsMove(s, DropBlock(s, id))
  {
    hide Inv, ClaimsMove, Edited, DropBlock;
    InvKnown(s, t, id);
    DropBlockIsEdit(s, id);
    EditMove(s, EvictEdit(s, id), true, {}, 0);
  }

  lemma EnsureMove(s: State, u: nat, now: int)
    requires u in s.flushes
    ensures ClaimsMove(s, HandEnsure(s, u, now))
  {
    hide ClaimsMove, Edited, Known, MadePart, EnsureEdit;
    var f := s.flushes[u];
    var k, s1, s2 := f.id.file, Known(s, f.id.file), WithPart(s, f.id.file, f.size, now);
    KnownFields(s, k);
    WithPartFields(s, k, f.size, now);
    if k in s.parts {
      SameMove(s, s2);
    } else {
      KnownMove(s, k);
      MadePartIsEdit(s1, k, f.size, now);
      MadeStays(s1, k, f.size, now);
      EditMove(s1, EnsureEdit(s1, k, f.size, now), false, {}, 1);
      MoveOn(s, s1, s2);
    }
    SameMove(s2, HandEnsure(s, u, now));
    MoveOn(s, s2, HandEnsure(s, u, now));
  }

  lemma MadeStays(s: State, k: FileKey, size: nat, now: int)
    requires k in s.files && k !in s.parts
    ensures EditStays(s, EnsureEdit(s, k, size, now))
  {
    hide PartBefore;
  }

  // Complete files.

  lemma WholeMove(s: State, s': State)
    requires WholeOnly(s, s')
    ensures ClaimsMove(s, s')
  {
    forall k | k in s'.files ensures s'.files[k].present == s.files[k].present {
      assert s'.files[k].(whole := None) == s.files[k].(whole := None);
    }
    SameMove(s, s');
  }

  lemma EmptiedMove(s: State, k: FileKey, files: Files)
    requires forall j :: j in files ==> if j == k then files[j].present == {}
                                        else j in s.files && files[j].present == s.files[j].present
    ensures ClaimsMove(s, Emptied(s, k, files))
  {
    var s' := Emptied(s, k, files);
    forall j, i | Unbacked(s', j, i) ensures Unbacked(s, j, i) && PartStays(s, s', j) {
    }
  }

  lemma InstalledMove(s: State, t: Truth, k: FileKey, o: nat, data: Bytes, pinned: bool, now: int)
    requires Inv(s, t) && k in s.files && s.lock.Free?
    ensures ClaimsMove(s, Installed(s, k, o, data, pinned, now))
  {
    hide Inv, ClaimsMove, Attach, RemoveFileBlocks, Emptied;
    var s1 := Attach(s, k, o, data, now);
    AttachMove(s, t, k, o, data, now);
    AttachFields(s, t, k, o, data, now);
    var f := s1.files[k].(pinned := s1.files[k].pinned || pinned, generation := s1.files[k].generation + 1);
    WipedIs(s1, k, f);
    EmptiedMove(s1, k, s1.files[k := f.(present := {})]);
    MoveOn(s, s1, Wiped(s1, k, f));
  }

  lemma AttachMove(s: State, t: Truth, k: FileKey, o: nat, data: Bytes, now: int)
    requires Inv(s, t) && k in s.files
    ensures ClaimsMove(s, Attach(s, k, o, data, now))
  {
    hide Inv, ClaimsMove, Cleared, Detach;
    ClearedKeeps(s, t, k, o);
    var s1 := Cleared(s, k, o);
    WholeMove(s, s1);
    AttachPresent(s, k, o, data, now);
    SameMove(s1, Attach(s, k, o, data, now));
    MoveOn(s, s1, Attach(s, k, o, data, now));
  }

  lemma AttachPresent(s: State, k: FileKey, o: nat, data: Bytes, now: int)
    requires k in Cleared(s, k, o).files
    ensures var s1, s' := Cleared(s, k, o), Attach(s, k, o, data, now);
      s'.blocks == s1.blocks && s'.parts == s1.parts && SamePresent(s1, s')
  {
    hide Detach;
  }

  lemma HydrateMove(s: State, t: Truth, u: nat, o: nat, now: int)
    requires Inv(s, t) && s.lock.Free? && u in s.installs && s.installs[u].key in s.files
    ensures ClaimsMove(s, HydrateFinish(s, u, o, now))
  {
    hide Inv, ClaimsMove, Attach, RemoveFileBlocks, Emptied, EndInstall;
    var i, s0 := s.installs[u], EndInstall(s, u);
    EndInstallMove(s, u);
    EndInstallKeeps(s, t, u);
    EndInstallIs(s, u);
    var s1 := Attach(s0, i.key, o, i.temp, now);
    AttachMove(s0, t, i.key, o, i.temp, now);
    AttachFields(s0, t, i.key, o, i.temp, now);
    assert SetFile(s1, i.key, s1.files[i.key]) == s1;
    WipedIs(s1, i.key, s1.files[i.key]);
    EmptiedMove(s1, i.key, s1.files[i.key := s1.files[i.key].(present := {})]);
    MoveOn(s, s0, s1);
    MoveOn(s, s1, HydrateFinish(s, u, o, now));
  }

  lemma PutWholeMove(s: State, t: Truth, u: nat, o: nat, data: Bytes, now: int)
    requires Inv(s, t) && s.lock.Free? && u in s.installs && s.installs[u].key in s.files
    ensures ClaimsMove(s, PutWholeFinish(s, u, o, data, now))
  {
    hide Inv, ClaimsMove, Installed, EndInstall;
    var s0 := EndInstall(s, u);
    EndInstallMove(s, u);
    EndInstallKeeps(s, t, u);
    EndInstallIs(s, u);
    InstalledMove(s0, t, s.installs[u].key, o, data, false, now);
    MoveOn(s, s0, PutWholeFinish(s, u, o, data, now));
  }

  lemma EndInstallMove(s: State, u: nat)
    requires u in s.installs
    ensures ClaimsMove(s, EndInstall(s, u))
  {
    hide ClaimsMove, EndInstall;
    EndInstallIndex(s, u);
    EndInstallFiles(s, u);
    SameMove(s, EndInstall(s, u));
  }

  lemma ForgetMove(s: State, t: Truth, k: FileKey)
    requires Inv(s, t)
    ensures ClaimsMove(s, Forget(s, k))
  {
    hide Inv, ClaimsMove, Detach, Emptied, Forget;
    if k in s.files {
      var s1 := Detach(s, k);
      DetachKeeps(s, t, k);
      WholeMove(s, s1);
      ForgetIs(s, k);
      EmptiedMove(s1, k, s1.files - {k});
      MoveOn(s, s1, Forget(s, k));
    } else {
      ForgetNothing(s, k);
      SameMove(s, s);
    }
  }

  // Recency and pins.

  lemma CosmeticMove(s: State, s': State)
    requires Cosmetic(s, s')
    ensures ClaimsMove(s, s')
  {
    forall k, i | Unbacked(s', k, i) ensures Unbacked(s, k, i) && PartStays(s, s', k) {
      assert FileLike(s.files[k], s'.files[k]);
      if k in s.parts { assert PartLike(s.parts[k], s'.parts[k]); }
      if BlockId(k, i) in s.blocks { assert BlockLike(s.blocks[BlockId(k, i)], s'.blocks[BlockId(k, i)]); }
    }
  }

  lemma TouchMove(s: State, k: FileKey, idx: nat, now: int)
    ensures ClaimsMove(s, TouchWhole(TouchBlock(s, k, idx, now), k, now))
  {
    hide ClaimsMove, TouchBlock;
    var s1 := TouchBlock(s, k, idx, now);
    TouchBlockMove(s, k, idx, now);
    SameMove(s1, TouchWhole(s1, k, now));
    MoveOn(s, s1, TouchWhole(s1, k, now));
  }

  lemma TouchBlockMove(s: State, k: FileKey, idx: nat, now: int)
    ensures ClaimsMove(s, TouchBlock(s, k, idx, now))
  {
    var s' := TouchBlock(s, k, idx, now);
    forall j, i | Unbacked(s', j, i) ensures Unbacked(s, j, i) && PartStays(s, s', j) {
    }
  }

  lemma PinMove(s: State, k: FileKey, pinned: bool, user: bool)
    ensures ClaimsMove(s, Pinned(s, k, pinned, user))
  {
    hide ClaimsMove, Known, Repinned, Cosmetic, AllLike;
    if user && FileOf(s, k).userPinned == pinned {
      SameMove(s, s);
    } else {
      var s1 := Known(s, k);
      KnownMove(s, k);
      KnownFields(s, k);
      var f := if user then FileOf(s1, k).(userPinned := pinned) else FileOf(s1, k).(pinned := pinned);
      var s2 := SetFile(s1, k, f);
      SameMove(s1, s2);
      RepinMove(s2, k, f.pinned || f.userPinned);
      MoveOn(s, s1, s2);
      MoveOn(s, s2, Pinned(s, k, pinned, user));
    }
  }

  lemma RepinMove(s: State, k: FileKey, pinned: bool)
    ensures ClaimsMove(s, s.(blocks := Repinned(s.blocks, k, pinned)))
  {
    hide Repinned, AllLike;
    Alike(s);
    RepinnedLike(s.blocks, k, pinned);
    CosmeticMove(s, s.(blocks := Repinned(s.blocks, k, pinned)));
  }

  // All steps but those of a hand-over and the eviction of a sparse file.

  lemma ReleasePresent(s: State, k: FileKey, fileTag: nat, token: nat)
    ensures var s' := ReleaseHold(s, k, fileTag, token);
      s'.blocks == s.blocks && s'.parts == s.parts && SamePresent(s, s')
  {
  }

  lemma UnlockMove(s: State)
    requires !s.lock.Free?
    ensures ClaimsMove(s, Freed(s))
  {
    hide ClaimsMove, ReleaseHold;
    match s.lock.req {
      case PartReq(id, _, _, token, fileTag) => ReleasePresent(s, id.file, fileTag, token);
      case InstallReq(token, i) => ReleasePresent(s, i.key, i.fileTag, token);
      case _ =>
    }
    SameMove(s, Freed(s));
  }

  lemma HoldMove(s: State, k: FileKey, size: nat)
    requires k in s.files
    ensures ClaimsMove(s, Hold(s, k)) && ClaimsMove(s, Hold(SetFile(s, k, FileOf(s, k).(size := size)), k))
  {
    hide ClaimsMove;
    SameMove(s, Hold(s, k));
    SameMove(s, Hold(SetFile(s, k, FileOf(s, k).(size := size)), k));
  }

  lemma AskMove(s: State, s1: State, r: Request)
    requires ClaimsMove(s, s1)
    ensures ClaimsMove(s, Asked(s1, r))
  {
    hide ClaimsMove, Room;
    SameMove(s1, Asked(s1, r));
    MoveOn(s, s1, Asked(s1, r));
  }

  lemma AdmissionMove(s: State, a: Admission)
    requires CanAdmit(s, a) && !a.Evicts?
    ensures ClaimsMove(s, Admitted(s, a))
  {
    hide ClaimsMove, Known, Hold, Asked, Freed, CapsHold, AnyInMemory;
    SameMove(s, s);
    match a {
      case AskBlock(id, n, size) => AskMove(s, s, BlockReq(id, n, size));
      case AskRange(id, off, n, size) => AskMove(s, s, RangeReq(id, off, n, size));
      case AskPart(id, n, size) =>
        var s1 := Known(s, id.file);
        KnownMove(s, id.file);
        KnownFields(s, id.file);
        HoldMove(s1, id.file, size);
        var s2 := Hold(SetFile(s1, id.file, FileOf(s1, id.file).(size := size)), id.file);
        MoveOn(s, s1, s2);
        AskMove(s, s2, PartReq(id, n, size, s1.nextTag, FileOf(s1, id.file).tag));
      case AskHydrate(k) =>
        HoldMove(s, k, 0);
        AskMove(s, Hold(s, k), InstallReq(s.nextTag, NewInstall(s, k, true, s.files[k].size)));
      case AskPutWhole(k, size) =>
        var s1 := Known(s, k);
        KnownMove(s, k);
        KnownFields(s, k);
        HoldMove(s1, k, 0);
        MoveOn(s, s1, Hold(s1, k));
        AskMove(s, Hold(s1, k), InstallReq(s1.nextTag, NewInstall(s1, k, false, size)));
      case AskLink(k, o, size, pinned) => AskMove(s, s, LinkReq(k, o, size, pinned));
      case AskSweep => AskMove(s, s, SweepReq);
      case Grant => SameMove(s, s.(lock := Granted(s.lock.req)));
      case Unlock => UnlockMove(s);
    }
  }

  lemma EvictMove(s: State, t: Truth, v: Victim)
    requires Inv(s, t) && Evictable(s, v, None) && !v.PartVictim?
    ensures ClaimsMove(s, Evict(s, v))
  {
    hide Inv, ClaimsMove, DropBlock, EvictObject;
    match v {
      case TempVictim(p) => SameMove(s, s.(temps := s.temps - {p}));
      case BlockVictim(id) => EvictBlockMove(s, t, id);
      case ObjectVictim(o) =>
        EvictObjectPresent(s, o);
        SameMove(s, EvictObject(s, o));
    }
  }

  lemma EvictObjectPresent(s: State, o: nat)
    requires o in s.objects
    ensures var s' := EvictObject(s, o); s'.blocks == s.blocks && s'.parts == s.parts && SamePresent(s, s')
  {
    hide Released;
    var refs := s.objects[o].refs;
    var s1 := s.(files := Unlinked(s.files, refs), objects := s.objects[o := s.objects[o].(refs := {})]);
    if refs != {} { ReleasedIs(s1, o); }
  }

  lemma StoreMove(s: State, t: Truth, a: Commit)
    requires Inv(s, t) && CanStore(s, a)
    ensures ClaimsMove(s, Stored(s, a))
  {
    hide KeysInv, TagsInv, WholeInv, FlushInv, InstallInv, HandInv, InstallOk, ClaimsMove, PutBlock, PutRange,
         PutRangeSync, PutPart, Installed, Known;
    var r := s.lock.req;
    match a {
      case CommitPut(data, now) => PutBlockMove(s, r.id, data, r.size, false, now);
      case CommitAsync(data, now) => PutBlockMove(s, r.id, data, r.size, true, now);
      case CommitRange(data, now) => PutRangeMove(s, t, r.id, r.off, data, r.size, now);
      case CommitRangeSync(data, now) => PutRangeMove(s, t, r.id, r.off, data, r.size, now);
      case CommitPart(data, now) => PutPartMove(s, r.id, data, r.size, r.token, r.fileTag, now);
      case CommitReserve => SameMove(s, s.(installs := s.installs[r.token := r.install], lock := Free));
      case CommitLink(data, now) =>
        var s1 := Known(s, r.key).(lock := Free);
        KnownMove(s, r.key);
        KnownFields(s, r.key);
        KnownKeeps(s, t, r.key);
        InstalledMove(s1, t, r.key, r.inode, data, r.pinned, now);
        MoveOn(s, s1, Stored(s, a));
    }
  }

  lemma WorkMove(s: State, t: Truth, a: Work)
    requires Inv(s, t) && CanDo(s, a) && !a.DropHanded? && !a.NoteHanded?
    ensures ClaimsMove(s, Done(s, a))
  {
    hide Inv, ClaimsMove, FlushFinish, HandEnsure, FlushSubs, Adopt, Installed, HydrateFinish, PutWholeFinish,
         EndInstall, Forget, Pinned, TouchBlock, TouchWhole, PieceCount, CloseWhole;
    match a {
      case BeginFlush(id) => SameMove(s, FlushBegin(s, id));
      case EndFlush(u, ok) => EndFlushMove(s, t, u, ok);
      case EnsurePart(u, now) => EnsureMove(s, u, now);
      case FlushPartial(id, ok) => FlushSubsMove(s, t, id, ok);
      case AdoptBlock(id, now) => AdoptMove(s, t, id, now);
      case Publish(k, o, now) => InstalledMove(s, t, k, o, s.partFile[k], false, now);
      case CopyNext(u) => SameMove(s, HydrateCopy(s, u));
      case FinishHydrate(u, o, now) => HydrateMove(s, t, u, o, now);
      case FinishPutWhole(u, o, data, now) => PutWholeMove(s, t, u, o, data, now);
      case AbortInstall(u) => EndInstallMove(s, u);
      case ForgetFile(k) => ForgetMove(s, t, k);
      case SetPin(k, pinned, user) => PinMove(s, k, pinned, user);
      case Lease(k, now) => SameMove(s, OpenWhole(s, k, now));
      case Unlease(o) => UnleaseMove(s, o);
      case LookUp(k, idx, now) => TouchMove(s, k, idx, now);
      case CloseCache => SameMove(s, s.(closed := true));
    }
  }

  lemma UnleaseMove(s: State, o: nat)
    requires o in s.objects && s.objects[o].readers > 0
    ensures ClaimsMove(s, CloseWhole(s, o))
  {
    hide ClaimsMove, CloseWhole;
    CloseIs(s, o);
    SameMove(s, CloseWhole(s, o));
  }

  // A block leaves the index, is noted, or loses its sparse file.

  /** The block leaves the index for a sparse file that is gone, or is not the one it was
      written to: the claim has nothing behind it unless another flush of the block is on
      its way, or the sparse file has it. */
  ghost predicate DropOrphans(s: State, u: nat)
    requires u in s.flushes && s.flushes[u].part.Some?
  {
    var f := s.flushes[u];
    var k, i := f.id.file, f.id.index;
    && k in s.files && i in s.files[k].present && !(k in s.parts && i in s.parts[k].bits)
    && !Live(s, Note(f.id, f.data, f.part.value)) && !Coming(s, k, i)
  }

  lemma DropClaims(s: State, t: Truth, u: nat)
    requires Inv(s, t) && CanDo(s, DropHanded(u)) && ClaimsHold(s)
    ensures ClaimsHold(HandDrop(s, u)) <==> !DropOrphans(s, u)
  {
    hide KeysInv, TagsInv, WholeInv, FlushInv, InstallInv, LockOk, SparseAt, NoteAt;
    var f, s' := s.flushes[u], HandDrop(s, u);
    var n := Note(f.id, f.data, f.part.value);
    assert u !in s.notes by { assert Owns(s, u); }
    forall k, i ensures Coming(s', k, i) <==> Coming(s, k, i) || (BlockId(k, i) == f.id && Live(s, n)) {
      DropComing(s, u, k, i);
    }
    forall k, i | BlockId(k, i) != f.id ensures Unbacked(s', k, i) <==> Unbacked(s, k, i) {
    }
    assert Unbacked(s', f.id.file, f.id.index) <==>
      f.id.file in s.files && f.id.index in s.files[f.id.file].present &&
      !(f.id.file in s.parts && f.id.index in s.parts[f.id.file].bits);
  }

  lemma DropComing(s: State, u: nat, k: FileKey, i: nat)
    requires u in s.flushes && s.flushes[u].part.Some? && u !in s.notes
    ensures var f := s.flushes[u];
      Coming(HandDrop(s, u), k, i) <==>
        Coming(s, k, i) || (BlockId(k, i) == f.id && Live(s, Note(f.id, f.data, f.part.value)))
  {
    var f, s' := s.flushes[u], HandDrop(s, u);
    if Coming(s', k, i) {
      var v :| v in s'.notes && s'.notes[v].id == BlockId(k, i) && Live(s', s'.notes[v]);
      if v != u { assert v in s.notes && Live(s, s.notes[v]); }
    }
    if Coming(s, k, i) {
      var v :| v in s.notes && s.notes[v].id == BlockId(k, i) && Live(s, s.notes[v]);
      assert v in s'.notes && Live(s', s'.notes[v]);
    }
    if BlockId(k, i) == f.id && Live(s, Note(f.id, f.data, f.part.value)) {
      assert u in s'.notes && Live(s', s'.notes[u]);
    }
  }

  /** Noting a block never takes anything away. */
  lemma NoteClaims(s: State, t: Truth, u: nat, now: int)
    requires Inv(s, t) && u in s.notes && ClaimsHold(s)
    ensures ClaimsHold(HandNote(s, u, now))
  {
    hide Inv, HandNote, FillEdit, Edited, ClaimsMove;
    var n, s1, s' := s.notes[u], s.(notes := s.notes - {u}), HandNote(s, u, now);
    if Live(s, n) {
      LivePart(s, t, n);
      HandNoteIs(s, t, u, now);
      var e := FillEdit(s1, n.id, n.data, s.parts[n.id.file].size, FileOf(s, n.id.file).holds, false, false, now);
      FillStays(s1, n.id, n.data, s.parts[n.id.file].size, FileOf(s, n.id.file).holds, false, false, now);
      EditMove(s1, e, false, {}, 1);
      EditFields(s1, e, false, {}, 1);
      NotedBacked(s, u, now);
      NotedHold(s, s1, s', u);
    } else {
      NotNoted(s, u, now);
      NothingLost(s, u);
    }
  }

  lemma NotedBacked(s: State, u: nat, now: int)
    requires u in s.notes && Live(s, s.notes[u])
    ensures Backed(HandNote(s, u, now), s.notes[u].id.file, s.notes[u].id.index)
  {
    hide FillPart;
    var n := s.notes[u];
    FillFields(s.(notes := s.notes - {u}), n.id.file, s.parts[n.id.file].size, n.id.index, n.data, now);
  }

  lemma NotedHold(s: State, s1: State, s': State, u: nat)
    requires u in s.notes && s1 == s.(notes := s.notes - {u}) && ClaimsHold(s) && ClaimsMove(s1, s')
    requires s'.notes == s1.notes && Backed(s', s.notes[u].id.file, s.notes[u].id.index)
    ensures ClaimsHold(s')
  {
    forall k, i | Unbacked(s', k, i) ensures Coming(s', k, i) {
      assert Unbacked(s1, k, i) && Unbacked(s, k, i);
      var v :| v in s.notes && s.notes[v].id == BlockId(k, i) && Live(s, s.notes[v]);
      assert v != u && v in s'.notes && Live(s', s'.notes[v]);
    }
  }

  lemma NothingLost(s: State, u: nat)
    requires u in s.notes && !Live(s, s.notes[u]) && ClaimsHold(s)
    ensures ClaimsHold(s.(notes := s.notes - {u}))
  {
    var s' := s.(notes := s.notes - {u});
    forall k, i | Unbacked(s', k, i) ensures Coming(s', k, i) {
      assert Unbacked(s, k, i);
      var v :| v in s.notes && s.notes[v].id == BlockId(k, i) && Live(s, s.notes[v]);
      assert v in s'.notes && Live(s', s'.notes[v]);
    }
  }

  /** A sparse file evicted takes its own claims with it, and not those of blocks on their
      way into it. */
  lemma EvictPartClaims(s: State, t: Truth, k: FileKey)
    requires Inv(s, t) && k in s.parts && ClaimsHold(s)
    ensures ClaimsHold(ForgetPart(s, k)) <==> !exists i :: Unbacked(s, k, i)
  {
    hide Inv;
    var s' := ForgetPart(s, k);
    InvPart(s, t, k);
    forall j, i ensures Unbacked(s', j, i) <==> Unbacked(s, j, i) {
    }
    forall i ensures !Coming(s', k, i) {
    }
    forall j, i | j != k && Coming(s, j, i) ensures Coming(s', j, i) {
      var v :| v in s.notes && s.notes[v].id == BlockId(j, i) && Live(s, s.notes[v]);
      assert v in s'.notes && Live(s', s'.notes[v]);
    }
  }

  /** The steps after which some claim has nothing behind it. */
  ghost predicate Orphans(s: State, a: Action)
    requires Enabled(s, a)
  {
    match a
    case Admit(x) => x.Evicts? && x.victim.PartVictim? && exists i :: Unbacked(s, x.victim.key, i)
    case Store(_) => false
    case Do(x) => x.DropHanded? && DropOrphans(s, x.tag)
  }

  /** Every claim has something behind it after a step exactly when the step is neither
      the eviction of a sparse file that a claimed block is on its way into, nor the second
      section of a hand-over whose sparse file is gone. */
  lemma StepClaims(s: State, t: Truth, a: Action)
    requires Inv(s, t) && Enabled(s, a) && ClaimsHold(s)
    ensures ClaimsHold(Next(s, a)) <==> !Orphans(s, a)
  {
    hide Inv, ClaimsHold, ClaimsMove, CanAdmit, CanStore, CanDo, Admitted, Stored, Done, DropOrphans, Unbacked;
    match a {
      case Admit(x) => AdmissionClaims(s, t, x);
      case Store(x) =>
        StoreMove(s, t, x);
        StoreNotes(s, x);
        MovedHold(s, Stored(s, x));
      case Do(x) => WorkClaims(s, t, x);
    }
  }

  lemma AdmissionClaims(s: State, t: Truth, x: Admission)
    requires Inv(s, t) && CanAdmit(s, x) && ClaimsHold(s)
    ensures ClaimsHold(Admitted(s, x)) <==> !Orphans(s, Admit(x))
  {
    hide Inv, ClaimsHold, ClaimsMove, Evict, Unbacked;
    if x.Evicts? {
      if x.victim.PartVictim? {
        EvictedPartIs(s, x.victim.key);
        EvictPartClaims(s, t, x.victim.key);
      } else {
        EvictMove(s, t, x.victim);
        EvictNotes(s, x.victim);
        MovedHold(s, Evict(s, x.victim));
      }
    } else {
      AdmissionMove(s, x);
      AdmissionNotes(s, x);
      MovedHold(s, Admitted(s, x));
    }
  }

  lemma EvictedPartIs(s: State, k: FileKey)
    requires Evictable(s, PartVictim(k), None)
    ensures Evict(s, PartVictim(k)) == ForgetPart(s, k)
  {
  }

  lemma WorkClaims(s: State, t: Truth, x: Work)
    requires Inv(s, t) && CanDo(s, x) && ClaimsHold(s)
    ensures ClaimsHold(Done(s, x)) <==> !Orphans(s, Do(x))
  {
    hide Inv, ClaimsHold, ClaimsMove, HandDrop, HandNote, DropOrphans;
    if x.DropHanded? {
      DropClaims(s, t, x.tag);
    } else if x.NoteHanded? {
      NoteClaims(s, t, x.tag, x.now);
    } else {
      WorkMove(s, t, x);
      WorkNotes(s, x);
      MovedHold(s, Done(s, x));
    }
  }

  lemma WorkNotes(s: State, x: Work)
    requires CanDo(s, x) && !x.DropHanded? && !x.NoteHanded?
    ensures Done(s, x).notes == s.notes
  {
    hide CanDo, Done;
    StepNotes(s, Do(x));
  }

  // Over a run.

  ghost predicate AlwaysClaimed(s: State, t: Truth, acts: seq<Action>)
    requires LawfulRun(s, t, acts)
    decreases |acts|
  {
    ClaimsHold(s) && (acts == [] || AlwaysClaimed(Next(s, acts[0]), t, acts[1..]))
  }

  ghost predicate SomeOrphan(s: State, t: Truth, acts: seq<Action>)
    requires LawfulRun(s, t, acts)
    decreases |acts|
  {
    acts != [] && (Orphans(s, acts[0]) || SomeOrphan(Next(s, acts[0]), t, acts[1..]))
  }

  /** Whatever comes between the sections of whatever hand-overs: every claim has something
      behind it after every step exactly when none of those two happened. */
  lemma {:induction false} ClaimsExactly(s: State, t: Truth, acts: seq<Action>)
    requires Inv(s, t) && LawfulRun(s, t, acts) && ClaimsHold(s)
    ensures AlwaysClaimed(s, t, acts) <==> !SomeOrphan(s, t, acts)
    decreases |acts|
  {
    hide Inv, ClaimsHold, Orphans, Enabled, Honest, SpoilsNothing, Next;
    if acts != [] {
      StepClaims(s, t, acts[0]);
      StepKeeps(s, t, acts[0]);
      if ClaimsHold(Next(s, acts[0])) {
        ClaimsExactly(Next(s, acts[0]), t, acts[1..]);
      }
    }
  }

  /** So it is from an empty cache on. */
  lemma ClaimsExactlyFromEmpty(s: State, t: Truth, acts: seq<Action>)
    requires Fresh(s) && LawfulRun(s, t, acts)
    ensures AlwaysClaimed(s, t, acts) <==> !SomeOrphan(s, t, acts)
  {
    hide Inv, LawfulRun, AlwaysClaimed, SomeOrphan;
    FreshInv(s, t);
    ClaimsExactly(s, t, acts);
  }

  /** A file with nothing on its way into its sparse file may be merged: where claims hold,
      it claims no block that is nowhere. */
  lemma ClaimsBack(s: State, k: FileKey)
    requires ClaimsHold(s) && forall u :: u in s.notes ==> s.notes[u].id.file != k
    ensures AllBacked(s, k)
  {
    forall i | k in s.files && i in s.files[k].present ensures Backed(s, k, i) {
      assert !Coming(s, k, i);
      assert Unbacked(s, k, i) ==> Coming(s, k, i);
    }
  }
}
