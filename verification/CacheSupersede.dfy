/** A Hydrate or PutWhole in flight publishes exactly when nothing touched its file
    since it began. */
module CacheSupersede {

  import opened Common
  import opened Geometry
  import opened CacheModel
  import opened CacheInvariant
  import opened CacheSteps
  import opened CacheEdits
  import opened CacheKeepsBlocks
  import opened CacheKeepsParts
  import opened CacheKeepsWhole
  import opened CacheKeepsHands
  import opened CacheRuns

  /** The record a step leaves: the same one unless `moved`, when it is gone or has a
      later generation; a new one has a tag of n or more. */
  predicate Record(files: Files, files': Files, k: FileKey, moved: bool, n: nat) {
    if k !in files then k in files' ==> files'[k].tag >= n
    else if moved then k in files' ==> files'[k].tag == files[k].tag && files'[k].generation > files[k].generation
    else k in files' && files'[k].tag == files[k].tag && files'[k].generation == files[k].generation
  }

  /** Commits that move file k on. */
  ghost predicate StoreTouches(s: State, a: Commit, k: FileKey)
    requires CanStore(s, a)
  {
    match a
    case CommitPut(_, _) => s.lock.req.id.file == k
    case CommitAsync(_, _) => s.lock.req.id.file == k
    case CommitRange(_, _) => s.lock.req.id.file == k &&
      !(s.lock.req.id in s.blocks && s.blocks[s.lock.req.id].bits.None?)
    case CommitRangeSync(_, _) => s.lock.req.id.file == k &&
      !(s.lock.req.id in s.blocks && s.blocks[s.lock.req.id].bits.None?)
    case CommitPart(_, _) => s.lock.req.id.file == k && !Refused(s, s.lock.req.id, s.lock.req.size)
    case CommitReserve => false
    case CommitLink(_, _) => s.lock.req.key == k
  }

  /** Background work that moves file k on. The end of a hydration is not among it. */
  ghost predicate WorkTouches(s: State, a: Work, k: FileKey)
    requires CanDo(s, a)
  {
    match a
    case NoteHanded(u, _) => s.notes[u].id.file == k && Live(s, s.notes[u])
    case AdoptBlock(id, _) => id.file == k
    case Publish(key, _, _) => key == k
    case FinishPutWhole(u, _, _, _) => s.installs[u].key == k
    case ForgetFile(key) => key == k
    case _ => false
  }

  ghost predicate Touches(s: State, a: Action, k: FileKey)
    requires Enabled(s, a)
  {
    (a.Store? && StoreTouches(s, a.commit, k)) || (a.Do? && WorkTouches(s, a.work, k))
  }

  // What each step does to a record.

  lemma Then(files: Files, files1: Files, files2: Files, k: FileKey, moved: bool, n: nat)
    requires Record(files, files1, k, false, n) && Record(files1, files2, k, moved, n)
    ensures Record(files, files2, k, moved, n)
  {
  }

  lemma SameRecord(files: Files, k: FileKey, n: nat)
    ensures Record(files, files, k, false, n)
  {
  }

  lemma KnownRecord(s: State, k: FileKey, j: FileKey, n: nat)
    requires n <= s.nextTag
    ensures Record(s.files, Known(s, j).files, k, false, n)
  {
    if j in s.files {
      assert Known(s, j).files == s.files;
    } else {
      assert Known(s, j).files == s.files[j := FileState(s.nextTag, 0, {}, false, false, None, {}, 0)];
    }
  }

  lemma ReplaceRecord(s: State, id: BlockId, data: Bytes, size: nat, async: bool, now: int, k: FileKey, n: nat)
    requires id.file in s.files
    ensures Record(s.files, ReplaceBlock(s, id, data, size, async, now).files, k, k == id.file, n)
  {
  }

  lemma AddRangeRecord(s: State, id: BlockId, off: nat, data: Bytes, size: nat, now: int, k: FileKey, n: nat)
    requires id.file in s.files
    ensures Record(s.files, AddRange(s, id, off, data, size, now).files, k, k == id.file, n)
    ensures Record(s.files, AddRangeSync(s, id, off, data, size, now).files, k, k == id.file, n)
  {
    hide Extended, Settled, WriteAt, Missing, RangeBlock;
  }

  lemma PutBlockRecord(s: State, id: BlockId, data: Bytes, size: nat, async: bool, now: int, k: FileKey, n: nat)
    requires n <= s.nextTag
    ensures Record(s.files, PutBlock(s, id, data, size, async, now).files, k, k == id.file, n)
  {
    hide Known, ReplaceBlock;
    KnownFields(s, id.file);
    KnownRecord(s, k, id.file, n);
    ReplaceRecord(Known(s, id.file).(lock := Free), id, data, size, async, now, k, n);
  }

  lemma PutRangeRecord(s: State, id: BlockId, off: nat, data: Bytes, size: nat, now: int, k: FileKey, n: nat)
    requires n <= s.nextTag
    ensures var moved := k == id.file && !(id in s.blocks && s.blocks[id].bits.None?);
      Record(s.files, PutRange(s, id, off, data, size, now).files, k, moved, n) &&
        Record(s.files, PutRangeSync(s, id, off, data, size, now).files, k, moved, n)
  {
    hide Known, AddRange, AddRangeSync, WriteAt, Record;
    if id in s.blocks && s.blocks[id].bits.None? {
      SameRecord(s.files, k, n);
    } else {
      var s1 := Known(s, id.file).(lock := Free);
      KnownFields(s, id.file);
      KnownRecord(s, k, id.file, n);
      AddRangeRecord(s1, id, off, data, size, now, k, n);
      Then(s.files, s1.files, AddRange(s1, id, off, data, size, now).files, k, k == id.file, n);
      Then(s.files, s1.files, AddRangeSync(s1, id, off, data, size, now).files, k, k == id.file, n);
    }
  }

  lemma ReleaseRecord(s: State, j: FileKey, fileTag: nat, token: nat, k: FileKey, n: nat)
    ensures Record(s.files, ReleaseHold(s, j, fileTag, token).files, k, false, n)
    ensures ReleaseHold(s, j, fileTag, token).parts == s.parts &&
      (j in s.files ==> j in ReleaseHold(s, j, fileTag, token).files)
  {
    if j in s.files && s.files[j].tag == fileTag {
      assert ReleaseHold(s, j, fileTag, token).files == s.files[j := s.files[j].(holds := s.files[j].holds - {token})];
    } else {
      assert ReleaseHold(s, j, fileTag, token) == s;
    }
  }

  lemma FillRecord(s: State, j: FileKey, size: nat, idx: nat, data: Bytes, now: int, k: FileKey, n: nat)
    requires j in s.files
    ensures Record(s.files, FillPart(s, j, size, idx, data, now).files, k, k == j, n)
  {
    hide PartBefore, WithBlock;
  }

  lemma PutPartRecord(s: State, id: BlockId, data: Bytes, size: nat, token: nat, fileTag: nat, now: int, k: FileKey,
                      n: nat)
    requires id.file in s.files
    ensures Record(s.files, PutPart(s, id, data, size, token, fileTag, now).files, k, k == id.file &&
                   !Refused(s, id, size), n)
  {
    hide ReleaseHold, FillPart;
    ReleaseRecord(s, id.file, fileTag, token, k, n);
    if !Refused(s, id, size) {
      FillRecord(ReleaseHold(s, id.file, fileTag, token).(lock := Free), id.file, size, id.index, data, now, k, n);
    }
  }

  lemma DetachFiles(s: State, j: FileKey)
    requires j in s.files
    ensures Detach(s, j).files == s.files[j := s.files[j].(whole := None)]
  {
    if s.files[j].whole.None? {
      assert Detach(s, j) == s && s.files[j := s.files[j].(whole := None)] == s.files;
    }
  }

  lemma AttachRecord(s: State, j: FileKey, o: nat, data: Bytes, now: int, k: FileKey, n: nat)
    requires j in s.files
    ensures Record(s.files, Attach(s, j, o, data, now).files, k, false, n) && j in Attach(s, j, o, data, now).files
  {
    hide Detach;
    DetachFiles(s, j);
  }

  lemma RemoveRecord(s: State, j: FileKey, k: FileKey, n: nat)
    requires j in s.files
    ensures Record(s.files, RemoveFileBlocks(s, j).files, k, false, n)
  {
  }

  lemma InstalledRecord(s: State, j: FileKey, o: nat, data: Bytes, pinned: bool, now: int, k: FileKey, n: nat)
    requires j in s.files
    ensures Record(s.files, Installed(s, j, o, data, pinned, now).files, k, k == j, n)
  {
    hide Attach, RemoveFileBlocks;
    var s1 := Attach(s, j, o, data, now);
    AttachRecord(s, j, o, data, now, k, n);
    var f := s1.files[j].(pinned := s1.files[j].pinned || pinned, generation := s1.files[j].generation + 1);
    BumpRecord(s1, j, f, k, n);
    Then(s.files, s1.files, RemoveFileBlocks(SetFile(s1, j, f), j).files, k, k == j, n);
  }

  lemma BumpRecord(s: State, j: FileKey, f: FileState, k: FileKey, n: nat)
    requires j in s.files && f.tag == s.files[j].tag && f.generation > s.files[j].generation
    ensures Record(s.files, RemoveFileBlocks(SetFile(s, j, f), j).files, k, k == j, n)
  {
    hide RemoveFileBlocks;
    RemoveRecord(SetFile(s, j, f), j, k, n);
  }

  lemma HoldRecord(s: State, j: FileKey, size: nat, k: FileKey, n: nat)
    requires j in s.files
    ensures Record(s.files, Hold(s, j).files, k, false, n)
    ensures Record(s.files, Hold(SetFile(s, j, FileOf(s, j).(size := size)), j).files, k, false, n)
  {
    var f := s.files[j];
    HoldFiles(s, j);
    HoldFiles(SetFile(s, j, f.(size := size)), j);
    hide Hold;
  }

  lemma HoldFiles(s: State, j: FileKey)
    requires j in s.files
    ensures Hold(s, j).files == s.files[j := s.files[j].(holds := s.files[j].holds + {s.nextTag})]
  {
  }

  lemma AskRecord(s: State, a: Admission, k: FileKey, n: nat)
    requires n <= s.nextTag
    requires CanAdmit(s, a) && !a.Evicts? && !a.Unlock?
    ensures Record(s.files, Admitted(s, a).files, k, false, n)
  {
    hide Known, Hold, Room, CapsHold, Record;
    SameRecord(s.files, k, n);
    match a {
      case AskPart(id, _, size) =>
        var s1 := Known(s, id.file);
        KnownFields(s, id.file);
        KnownRecord(s, k, id.file, n);
        HoldRecord(s1, id.file, size, k, n);
        Then(s.files, s1.files, Hold(SetFile(s1, id.file, FileOf(s1, id.file).(size := size)), id.file).files, k, false,
             n);
      case AskHydrate(j) => HoldRecord(s, j, 0, k, n);
      case AskPutWhole(j, _) =>
        var s1 := Known(s, j);
        KnownFields(s, j);
        KnownRecord(s, k, j, n);
        HoldRecord(s1, j, 0, k, n);
        Then(s.files, s1.files, Hold(s1, j).files, k, false, n);
      case _ =>
    }
  }

  lemma EvictRecord(s: State, v: Victim, k: FileKey, n: nat)
    requires Evictable(s, v, None)
    ensures Record(s.files, Evict(s, v).files, k, false, n)
  {
    match v {
      case TempVictim(_) =>
      case BlockVictim(id) => UnmarkedRecord(s, id, k, n);
      case ObjectVictim(o) => assert EvictObject(s, o).files == Unlinked(s.files, s.objects[o].refs);
      case PartVictim(j) => ForgetPartRecord(s, j, k, n);
    }
  }

  lemma UnmarkedFiles(s: State, k: FileKey, idx: nat)
    ensures Unmarked(s, k, idx).files == if k in s.files
      then s.files[k := s.files[k].(present := s.files[k].present - {idx})] else s.files
  {
  }

  lemma UnmarkedRecord(s: State, id: BlockId, k: FileKey, n: nat)
    ensures Record(s.files, DropBlock(s, id).files, k, false, n) &&
      Record(s.files, Unmarked(s, id.file, id.index).files, k, false, n)
  {
    hide Unmarked;
    UnmarkedFiles(s, id.file, id.index);
    UnmarkedFiles(DropAll(s, {id}), id.file, id.index);
  }

  lemma ForgetPartRecord(s: State, j: FileKey, k: FileKey, n: nat)
    ensures Record(s.files, ForgetPart(s, j).files, k, false, n)
  {
    if j in s.parts && j in s.files {
      assert ForgetPart(s, j).files == s.files[j := s.files[j].(present := s.files[j].present - s.parts[j].bits)];
    } else {
      assert ForgetPart(s, j).files == s.files;
    }
  }

  lemma WithoutHoldRecord(s: State, r: Request, k: FileKey, n: nat)
    ensures Record(s.files, WithoutHold(s, r).files, k, false, n)
  {
    hide ReleaseHold, Record;
    SameRecord(s.files, k, n);
    match r {
      case PartReq(id, _, _, token, fileTag) => ReleaseRecord(s, id.file, fileTag, token, k, n);
      case InstallReq(token, i) => ReleaseRecord(s, i.key, i.fileTag, token, k, n);
      case _ =>
    }
  }

  lemma UnlockRecord(s: State, k: FileKey, n: nat)
    requires !s.lock.Free?
    ensures Record(s.files, Freed(s).files, k, false, n)
  {
    hide WithoutHold, Record;
    WithoutHoldRecord(s, s.lock.req, k, n);
  }

  lemma AdmissionRecord(s: State, a: Admission, k: FileKey, n: nat)
    requires n <= s.nextTag
    requires CanAdmit(s, a)
    ensures Record(s.files, Admitted(s, a).files, k, false, n)
  {
    hide Record, Evict, Freed, Known, Hold, Asked, AnyInMemory, CapsHold;
    match a {
      case Evicts(v) => EvictRecord(s, v, k, n);
      case Unlock => UnlockRecord(s, k, n);
      case _ => AskRecord(s, a, k, n);
    }
  }

  lemma StoreRecord(s: State, t: Truth, a: Commit, k: FileKey, n: nat)
    requires n <= s.nextTag
    requires Inv(s, t) && CanStore(s, a)
    ensures Record(s.files, Stored(s, a).files, k, StoreTouches(s, a, k), n)
  {
    hide KeysInv, TagsInv, WholeInv, FlushInv, InstallInv, InstallOk, PutBlock, PutRange, PutRangeSync, PutPart,
         Installed, Known, Record, Refused;
    var r := s.lock.req;
    match a {
      case CommitPut(data, now) => PutBlockRecord(s, r.id, data, r.size, false, now, k, n);
      case CommitAsync(data, now) => PutBlockRecord(s, r.id, data, r.size, true, now, k, n);
      case CommitRange(data, now) => PutRangeRecord(s, r.id, r.off, data, r.size, now, k, n);
      case CommitRangeSync(data, now) => PutRangeRecord(s, r.id, r.off, data, r.size, now, k, n);
      case CommitPart(data, now) => PutPartRecord(s, r.id, data, r.size, r.token, r.fileTag, now, k, n);
      case CommitReserve => SameRecord(s.files, k, n);
      case CommitLink(data, now) =>
        var s1 := Known(s, r.key).(lock := Free);
        KnownFields(s, r.key);
        KnownRecord(s, k, r.key, n);
        InstalledRecord(s1, r.key, r.inode, data, r.pinned, now, k, n);
        Then(s.files, s1.files, Installed(s1, r.key, r.inode, data, r.pinned, now).files, k, k == r.key, n);
    }
  }

  lemma EnsureRecord(s: State, u: nat, now: int, k: FileKey, n: nat)
    requires u in s.flushes && n <= s.nextTag
    ensures Record(s.files, HandEnsure(s, u, now).files, k, false, n)
  {
    hide Known, MadePart, PartBefore, Record;
    var f := s.flushes[u];
    var j, s1 := f.id.file, Known(s, f.id.file);
    KnownFields(s, j);
    KnownRecord(s, k, j, n);
    SameRecord(s.files, k, n);
    if j !in s.parts {
      MadeFields(s1, j, f.size, now);
      PinFiles(s1.files, j, FileOf(s1, j).(size := f.size), k, n);
      Then(s.files, s1.files, MadePart(s1, j, f.size, now).files, k, false, n);
    }
  }

  lemma NoteRecord(s: State, t: Truth, u: nat, now: int, k: FileKey, n: nat)
    requires Inv(s, t) && u in s.notes
    ensures Record(s.files, HandNote(s, u, now).files, k, k == s.notes[u].id.file && Live(s, s.notes[u]), n)
  {
    hide Inv, FillPart, HandNote, Record;
    var m, s1 := s.notes[u], s.(notes := s.notes - {u});
    if Live(s, m) {
      LivePart(s, t, m);
      NotedIs(s, u, now);
      FillRecord(s1, m.id.file, s.parts[m.id.file].size, m.id.index, m.data, now, k, n);
    } else {
      NotNoted(s, u, now);
      SameRecord(s.files, k, n);
    }
  }

  lemma EndFlushRecord(s: State, u: nat, ok: bool, k: FileKey, n: nat)
    requires u in s.flushes
    ensures Record(s.files, FlushFinish(s, u, ok).files, k, false, n)
  {
    hide FlushFinish, Record;
    SameRecord(s.files, k, n);
    var id := s.flushes[u].id;
    if Owns(s, u) && (!ok || s.flushes[u].sparse) {
      LostIs(s, u, ok);
      UnmarkedRecord(s, id, k, n);
    } else {
      KeptFiles(s, u, ok);
    }
  }

  lemma KeptFiles(s: State, u: nat, ok: bool)
    requires u in s.flushes && !(Owns(s, u) && (!ok || s.flushes[u].sparse))
    ensures FlushFinish(s, u, ok).files == s.files
  {
    if !Owns(s, u) { StaleIs(s, u, ok); }
  }

  lemma DropRecord(s: State, u: nat, k: FileKey, n: nat)
    requires u in s.flushes && s.flushes[u].part.Some?
    ensures Record(s.files, HandDrop(s, u).files, k, false, n)
  {
  }

  lemma FlushSubsRecord(s: State, id: BlockId, ok: bool, k: FileKey, n: nat)
    requires id in s.blocks && id.file in s.files
    ensures Record(s.files, FlushSubs(s, id, ok).files, k, false, n)
  {
    hide Settled, Overlay;
  }

  lemma EndInstallRecord(s: State, u: nat, k: FileKey, n: nat)
    requires u in s.installs
    ensures Record(s.files, EndInstall(s, u).files, k, false, n)
  {
    hide EndInstall;
    EndInstallFiles(s, u);
  }

  lemma FinishRecord(s: State, u: nat, o: nat, data: Bytes, now: int, k: FileKey, n: nat)
    requires u in s.installs && s.installs[u].key in s.files
    ensures Record(s.files, HydrateFinish(s, u, o, now).files, k, false, n)
    ensures Record(s.files, PutWholeFinish(s, u, o, data, now).files, k, k == s.installs[u].key, n)
  {
    hide Attach, RemoveFileBlocks, EndInstall, Installed, Record;
    var j, s1 := s.installs[u].key, EndInstall(s, u);
    EndInstallRecord(s, u, k, n);
    EndInstallFiles(s, u);
    AttachRecord(s1, j, o, s.installs[u].temp, now, k, n);
    var s2 := Attach(s1, j, o, s.installs[u].temp, now);
    RemoveRecord(s2, j, k, n);
    Then(s.files, s1.files, s2.files, k, false, n);
    Then(s.files, s2.files, RemoveFileBlocks(s2, j).files, k, false, n);
    InstalledRecord(s1, j, o, data, false, now, k, n);
    Then(s.files, s1.files, Installed(s1, j, o, data, false, now).files, k, k == j, n);
  }

  lemma ForgetRecord(s: State, j: FileKey, k: FileKey, n: nat)
    ensures Record(s.files, Forget(s, j).files, k, k == j, n)
  {
    hide Detach;
    if j in s.files { DetachFiles(s, j); }
  }

  lemma PinRecordSame(s: State, j: FileKey, pinned: bool, user: bool, k: FileKey, n: nat)
    requires n <= s.nextTag
    ensures Record(s.files, Pinned(s, j, pinned, user).files, k, false, n)
  {
    hide Known, Repinned, Record;
    if user && FileOf(s, j).userPinned == pinned {
      SameRecord(s.files, k, n);
    } else {
      var s1 := Known(s, j);
      KnownFields(s, j);
      KnownRecord(s, k, j, n);
      var f := if user then FileOf(s1, j).(userPinned := pinned) else FileOf(s1, j).(pinned := pinned);
      assert Pinned(s, j, pinned, user).files == s1.files[j := f];
      PinFiles(s1.files, j, f, k, n);
      Then(s.files, s1.files, s1.files[j := f], k, false, n);
    }
  }

  lemma PinFiles(files: Files, j: FileKey, f: FileState, k: FileKey, n: nat)
    requires j in files && f.tag == files[j].tag && f.generation == files[j].generation
    ensures Record(files, files[j := f], k, false, n)
  {
  }

  lemma CloseRecord(s: State, o: nat, k: FileKey, n: nat)
    requires o in s.objects && s.objects[o].readers > 0
    ensures Record(s.files, CloseWhole(s, o).files, k, false, n)
  {
  }

  lemma WorkRecord(s: State, t: Truth, a: Work, k: FileKey, n: nat)
    requires n <= s.nextTag
    requires Inv(s, t) && CanDo(s, a)
    ensures Record(s.files, Done(s, a).files, k, WorkTouches(s, a, k), n)
  {
    hide Inv, Record, FlushFinish, HandEnsure, HandDrop, HandNote, FlushSubs, Adopt, PublishPart, HydrateFinish,
         PutWholeFinish, EndInstall, Forget, Pinned, CloseWhole, Installed, FillPart, TouchBlock, TouchWhole, Refused,
         PieceCount;
    SameRecord(s.files, k, n);
    match a {
      case EndFlush(u, ok) => EndFlushRecord(s, u, ok, k, n);
      case EnsurePart(u, now) => EnsureRecord(s, u, now, k, n);
      case DropHanded(u) => DropRecord(s, u, k, n);
      case NoteHanded(u, now) => NoteRecord(s, t, u, now, k, n);
      case FlushPartial(id, ok) =>
        WholeKnownInv(s, t, id);
        FlushSubsRecord(s, id, ok, k, n);
      case AdoptBlock(id, now) => AdoptRecord(s, t, id, now, k, n);
      case Publish(j, o, now) => PublishRecord(s, j, o, now, k, n);
      case FinishHydrate(u, o, now) => FinishRecord(s, u, o, [], now, k, n);
      case FinishPutWhole(u, o, data, now) => FinishRecord(s, u, o, data, now, k, n);
      case AbortInstall(u) => EndInstallRecord(s, u, k, n);
      case ForgetFile(j) => ForgetRecord(s, j, k, n);
      case SetPin(j, pinned, user) => PinRecordSame(s, j, pinned, user, k, n);
      case Unlease(o) => CloseRecord(s, o, k, n);
      case LookUp(j, idx, now) => LookUpFiles(s, j, idx, now);
      case _ =>
    }
  }

  lemma LookUpFiles(s: State, k: FileKey, idx: nat, now: int)
    ensures TouchWhole(TouchBlock(s, k, idx, now), k, now).files == s.files
  {
    hide TouchBlock;
    assert TouchBlock(s, k, idx, now).files == s.files by { TouchBlockFiles(s, k, idx, now); }
  }

  lemma TouchBlockFiles(s: State, k: FileKey, idx: nat, now: int)
    ensures TouchBlock(s, k, idx, now).files == s.files
  {
  }

  lemma AdoptRecord(s: State, t: Truth, id: BlockId, now: int, k: FileKey, n: nat)
    requires Inv(s, t) && id in s.blocks && id in s.blockFile
    ensures Record(s.files, Adopt(s, id, now).files, k, k == id.file, n)
  {
    hide Inv, FillPart;
    var s1 := s.(blockFile := s.blockFile - {id});
    assert id.file in s.files by { WholeKnownInv(s, t, id); }
    FillRecord(DropAll(s1, {id}), id.file, FileOf(s1, id.file).size, id.index, s.blockFile[id], now, k, n);
  }

  lemma WholeKnownInv(s: State, t: Truth, id: BlockId)
    requires Inv(s, t) && id in s.blocks
    ensures id.file in s.files
  {
    hide BlockOk, PartOk;
    assert KeyOk(s, t, id.file) && BlockAt(s, t, id);
  }

  lemma PublishRecord(s: State, j: FileKey, o: nat, now: int, k: FileKey, n: nat)
    requires j in s.partFile && j in s.files
    ensures Record(s.files, PublishPart(s, j, o, now).files, k, k == j, n)
  {
    hide Installed;
    InstalledRecord(s, j, o, s.partFile[j], false, now, k, n);
  }

  /** Every step moves on the records it touches and leaves the others. */
  lemma StepRecord(s: State, t: Truth, a: Action, k: FileKey)
    requires Inv(s, t) && Enabled(s, a)
    ensures Record(s.files, Next(s, a).files, k, Touches(s, a, k), s.nextTag)
  {
    hide Inv, Record, CanAdmit, CanStore, CanDo, Admitted, Stored, Done, StoreTouches, WorkTouches;
    match a {
      case Admit(x) => AdmissionRecord(s, x, k, s.nextTag);
      case Store(x) => StoreRecord(s, t, x, k, s.nextTag);
      case Do(x) => WorkRecord(s, t, x, k, s.nextTag);
    }
  }

  // Over a run.

  /** The same call. */
  predicate Same(i: Install, j: Install) {
    i.key == j.key && i.fileTag == j.fileTag && i.generation == j.generation
  }

  /** Install `i`, with token u, is in flight all through the run. */
  ghost predicate InFlight(s: State, t: Truth, acts: seq<Action>, u: nat, i: Install)
    requires LawfulRun(s, t, acts)
    decreases |acts|
  {
    && u in s.installs && Same(s.installs[u], i)
    && (acts == [] || InFlight(Next(s, acts[0]), t, acts[1..], u, i))
  }

  ghost predicate Touched(s: State, t: Truth, acts: seq<Action>, k: FileKey)
    requires LawfulRun(s, t, acts)
    decreases |acts|
  {
    acts != [] && (Touches(s, acts[0], k) || Touched(Next(s, acts[0]), t, acts[1..], k))
  }

  lemma FlightTag(s: State, t: Truth, u: nat, i: Install)
    requires Inv(s, t) && u in s.installs && Same(s.installs[u], i)
    ensures i.fileTag < s.nextTag
  {
    hide KeysInv, TagsInv, WholeInv, FlushInv, LockOk, SourceOk;
    assert InstallOk(s, t, u, s.installs[u]);
  }

  lemma CurrentStep(s: State, t: Truth, a: Action, i: Install)
    requires Inv(s, t) && Enabled(s, a) && i.fileTag < s.nextTag
    ensures Current(Next(s, a), i) <==> Current(s, i) && !Touches(s, a, i.key)
    requires i.key in s.files && s.files[i.key].tag == i.fileTag ==> i.generation <= s.files[i.key].generation
  {
    hide Inv, Enabled, Next, Touches;
    StepRecord(s, t, a, i.key);
  }

  lemma FlightGeneration(s: State, t: Truth, u: nat, i: Install)
    requires Inv(s, t) && u in s.installs && Same(s.installs[u], i)
    ensures i.key in s.files && s.files[i.key].tag == i.fileTag ==> i.generation <= s.files[i.key].generation
  {
    hide KeysInv, TagsInv, WholeInv, FlushInv, LockOk, SourceOk;
    assert InstallOk(s, t, u, s.installs[u]);
  }

  /** A call that began on the current record may publish at the end of a run exactly
      when no step of the run touched its file. */
  lemma {:induction false} SupersededExactly(s: State, t: Truth, acts: seq<Action>, u: nat, i: Install)
    requires Inv(s, t) && LawfulRun(s, t, acts) && InFlight(s, t, acts, u, i)
    ensures Current(Run(s, t, acts), i) <==> Current(s, i) && !Touched(s, t, acts, i.key)
    decreases |acts|
  {
    hide Inv, Enabled, Honest, SpoilsNothing, Next, Touches, Current;
    if acts != [] {
      FlightTag(s, t, u, i);
      FlightGeneration(s, t, u, i);
      CurrentStep(s, t, acts[0], i);
      StepKeeps(s, t, acts[0]);
      SupersededExactly(Next(s, acts[0]), t, acts[1..], u, i);
    }
  }

  /** PutWhole publishes only if nothing touched the file since it began. */
  lemma PutWholePublishesUntouched(s: State, t: Truth, acts: seq<Action>, u: nat, o: nat, data: Bytes, now: int)
    requires Inv(s, t) && LawfulRun(s, t, acts) && u in s.installs && InFlight(s, t, acts, u, s.installs[u])
    requires Enabled(Run(s, t, acts), Do(FinishPutWhole(u, o, data, now)))
    ensures !Touched(s, t, acts, s.installs[u].key)
  {
    hide Inv, LawfulRun, Run, Touched;
    var i := s.installs[u];
    SupersededExactly(s, t, acts, u, i);
    FlightEnd(s, t, acts, u, i);
  }

  lemma {:induction false} FlightEnd(s: State, t: Truth, acts: seq<Action>, u: nat, i: Install)
    requires LawfulRun(s, t, acts) && InFlight(s, t, acts, u, i)
    ensures u in Run(s, t, acts).installs && Same(Run(s, t, acts).installs[u], i)
    decreases |acts|
  {
    hide Enabled, Honest, SpoilsNothing, Next;
    if acts != [] { FlightEnd(Next(s, acts[0]), t, acts[1..], u, i); }
  }

  /** The end of a hydration of the same file does not stop a PutWhole: unlike every
      other publication it leaves the generation as it was. */
  lemma HydrationDoesNotSupersede(s: State, t: Truth, u: nat, v: nat, o: nat, now: int)
    requires Inv(s, t) && CanDo(s, FinishHydrate(u, o, now)) && v in s.installs && v != u && Current(s, s.installs[v])
    ensures Current(HydrateFinish(s, u, o, now), s.installs[v])
  {
    hide Inv, HydrateFinish, PieceCount;
    FinishRecord(s, u, o, [], now, s.installs[v].key, s.nextTag);
  }
}
