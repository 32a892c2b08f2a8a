/** The caps: after every step of every run, what is charged together with what has
    been granted stays within MaxBytes and MaxBlocks. */
module CacheCaps {

  import opened Common
  import opened Geometry
  import opened Ranges
  import opened Sums
  import opened CacheModel
  import opened CacheInvariant
  import opened CacheSteps
  import opened CacheCharge
  import opened CacheChargeWhole
  import opened CacheBudget
  import opened CacheBudgetSteps
  import opened CacheBudgetRuns
  import opened CacheBudgetHands
  import opened CacheKeepsBlocks
  import opened CacheKeepsWhole
  import opened CacheKeepsCalls
  import opened CacheKeepsAsks
  import opened CacheRuns

  // Leases and installs in flight.

  /** The last lease on an inode without names frees it. */
  predicate LastLease(s: State, o: nat)
    requires o in s.objects
  {
    s.objects[o].refs == {} && s.objects[o].readers == 1
  }

  lemma CloseIs(s: State, o: nat)
    requires o in s.objects && s.objects[o].readers > 0
    ensures var s' := CloseWhole(s, o);
      && s' == s.(objects := s'.objects, inodes := s'.inodes)
      && s'.objects.Keys == s.objects.Keys - (if LastLease(s, o) then {o} else {})
  {
    hide Released;
    var ob := s.objects[o].(readers := s.objects[o].readers - 1);
    assert s.objects[o := ob].Keys == s.objects.Keys;
    ReleasedIs(s.(objects := s.objects[o := ob]), o);
  }

  lemma ReleasedIs(s: State, o: nat)
    requires o in s.objects
    ensures s.objects[o].refs == {} && s.objects[o].readers == 0 ==>
      Released(s, o) == s.(objects := s.objects - {o}, inodes := s.inodes - {o})
    ensures !(s.objects[o].refs == {} && s.objects[o].readers == 0) ==> Released(s, o) == s
  {
  }

  /** A link waiting on the freed inode takes what the inode gave back. */
  lemma CloseGrowth(s: State, t: Truth, o: nat, r: Request)
    requires o in s.objects && s.objects[o].readers > 0 && ObjectAt(s, o) && RequestOk(s, t, r)
    ensures var s', n := CloseWhole(s, o), if LastLease(s, o) then 1 else 0;
      && GrowthBytes(s', r) <= GrowthBytes(s, r) + (if LastLease(s, o) then s.objects[o].size else 0)
      && GrowthEntries(s', r) <= GrowthEntries(s, r) + n
  {
    hide Covered, PieceCount, CloseWhole, InstallOk, Piece, Aligned;
    CloseIs(s, o);
  }

  lemma UnleaseNoMore(s: State, t: Truth, o: nat)
    requires Inv(s, t) && o in s.objects && s.objects[o].readers > 0
    ensures NoMore(s, CloseWhole(s, o))
  {
    hide KeysInv, TagsInv, FlushInv, InstallInv, RequestOk, Weight, GrowthBytes, GrowthEntries, CloseWhole, Charge,
         Entries;
    var s' := CloseWhole(s, o);
    assert ObjectAt(s, o);
    CloseWeight(s, o, InBytes());
    CloseWeight(s, o, InEntries());
    Ledger(s);
    Ledger(s');
    CloseIs(s, o);
    if s.lock.Granted? { CloseGrowth(s, t, o, s.lock.req); }
  }

  lemma CopyNoMore(s: State, u: nat)
    requires u in s.installs && BlockId(s.installs[u].key, s.installs[u].next) in s.blockFile
    ensures NoMore(s, HydrateCopy(s, u))
  {
    hide GrowthBytes, GrowthEntries, NoMore;
    var s' := HydrateCopy(s, u);
    SumUpdate(s.installs, InstallBytes, u, s'.installs[u]);
    SizeUpdate(s.installs, u, s'.installs[u]);
    assert Lighter(s, s');
    if s.lock.Granted? { IndexGrowth(s, s', s.lock.req); }
    UnderGrant(s, s');
  }

  lemma AbortNoMore(s: State, u: nat)
    requires u in s.installs
    ensures NoMore(s, EndInstall(s, u))
  {
    hide EndInstall, Weight, GrowthBytes, GrowthEntries, Charge, Entries;
    EndInstallWeight(s, u, InBytes());
    EndInstallWeight(s, u, InEntries());
    LighterByWeight(s, EndInstall(s, u));
    EndInstallIndex(s, u);
    if s.lock.Granted? { IndexGrowth(s, EndInstall(s, u), s.lock.req); }
    UnderGrant(s, EndInstall(s, u));
  }

  lemma IndexGrowth(s: State, s': State, r: Request)
    requires IndexSame(s, s')
    ensures GrowthBytes(s', r) == GrowthBytes(s, r) && GrowthEntries(s', r) == GrowthEntries(s, r)
  {
    hide Covered, PieceCount;
  }

  // Admission.

  ghost predicate WithinCaps(s: State) {
    && (s.cfg.maxBytes > 0 ==> Load(s) <= s.cfg.maxBytes)
    && (s.cfg.maxBlocks > 0 ==> Slots(s) <= s.cfg.maxBlocks)
  }

  /** LinkPinnedFile with an inode that is not charged yet: allowed to exceed. */
  predicate PinnedLink(s: State, a: Admission) {
    a.AskLink? && a.pinned && a.inode !in s.objects
  }

  lemma AskedNoMore(s: State, r: Request)
    requires s.lock.Free? && !(r.LinkReq? && r.pinned && r.inode !in s.objects)
    requires r.RangeReq? ==> Aligned(s.cfg.subSize, r.off, r.n, BlockLen(s.cfg, r.id.index, r.size))
    ensures NoMore(s, Asked(s, r))
  {
    hide Charge, Entries, GrowthBytes, GrowthEntries, Room, Aligned;
    var s' := Asked(s, r);
    RoomCovers(s, r);
    SameLedger(s, s', r);
  }

  lemma HoldNoMore(s: State, k: FileKey, size: nat)
    ensures NoMore(s, Hold(SetFile(s, k, FileOf(s, k).(size := size)), k)) && NoMore(s, Hold(s, k))
  {
    hide NoMore;
    RecordNoMore(s, Hold(SetFile(s, k, FileOf(s, k).(size := size)), k));
    RecordNoMore(s, Hold(s, k));
  }

  lemma AdmissionNoMore(s: State, t: Truth, a: Admission)
    requires Inv(s, t) && CanAdmit(s, a) && !PinnedLink(s, a) && !a.Grant? && !a.Evicts? && !a.Unlock?
    ensures NoMore(s, Admitted(s, a))
  {
    hide Inv, NoMore, Known, Hold, Asked, Covered, Aligned, AnyInMemory, PieceCount;
    match a {
      case AskBlock(id, n, size) => AskedNoMore(s, BlockReq(id, n, size));
      case AskRange(id, off, n, size) => AskedNoMore(s, RangeReq(id, off, n, size));
      case AskPart(id, n, size) =>
        var s1 := Known(s, id.file);
        var s2 := Hold(SetFile(s1, id.file, FileOf(s1, id.file).(size := size)), id.file);
        KnownNoMore(s, id.file);
        KnownFields(s, id.file);
        HoldNoMore(s1, id.file, size);
        HoldLock(s1, id.file, size);
        AskedNoMore(s2, PartReq(id, n, size, s1.nextTag, FileOf(s1, id.file).tag));
        Onward(s, s1, s2);
        Onward(s, s2, Admitted(s, a));
      case AskHydrate(k) =>
        HoldNoMore(s, k, 0);
        HoldLock(s, k, 0);
        AskedNoMore(Hold(s, k), InstallReq(s.nextTag, NewInstall(s, k, true, s.files[k].size)));
        Onward(s, Hold(s, k), Admitted(s, a));
      case AskPutWhole(k, size) =>
        var s1 := Known(s, k);
        KnownNoMore(s, k);
        KnownFields(s, k);
        HoldNoMore(s1, k, 0);
        HoldLock(s1, k, 0);
        AskedNoMore(Hold(s1, k), InstallReq(s1.nextTag, NewInstall(s1, k, false, size)));
        Onward(s, s1, Hold(s1, k));
        Onward(s, Hold(s1, k), Admitted(s, a));
      case AskLink(k, o, size, pinned) => AskedNoMore(s, LinkReq(k, o, size, pinned));
      case AskSweep => AskedNoMore(s, SweepReq);
    }
  }

  lemma HoldLock(s: State, k: FileKey, size: nat)
    ensures Hold(SetFile(s, k, FileOf(s, k).(size := size)), k).lock == s.lock && Hold(s, k).lock == s.lock
  {
  }

  lemma UnlockNoMore(s: State)
    requires !s.lock.Free?
    ensures NoMore(s, Freed(s))
  {
    hide Charge, Entries, GrowthBytes, GrowthEntries, ChargedSame, Freed;
    FreedIs(s);
    FilesCharged(s, Freed(s).files, Free);
    SameLedger(s, Freed(s), s.lock.req);
  }

  lemma FilesCharged(s: State, files: map<FileKey, FileState>, l: Lock)
    ensures ChargedSame(s, s.(files := files, lock := l))
  {
  }

  lemma ReleaseIs(s: State, k: FileKey, fileTag: nat, token: nat) returns (files: map<FileKey, FileState>)
    ensures ReleaseHold(s, k, fileTag, token) == s.(files := files)
  {
    files := s.files;
    if k in s.files &&
      s.files[k].tag == fileTag { files := s.files[k := s.files[k].(holds := s.files[k].holds - {token})]; }
  }

  lemma WithoutHoldIs(s: State, r: Request) returns (files: map<FileKey, FileState>)
    ensures WithoutHold(s, r) == s.(files := files)
  {
    hide ReleaseHold;
    match r {
      case PartReq(id, _, _, token, fileTag) => files := ReleaseIs(s, id.file, fileTag, token);
      case InstallReq(token, i) => files := ReleaseIs(s, i.key, i.fileTag, token);
      case _ => files := s.files;
    }
  }

  lemma FreedIs(s: State)
    requires !s.lock.Free?
    ensures Freed(s) == s.(files := Freed(s).files, lock := Free)
  {
    hide WithoutHold;
    var files := WithoutHoldIs(s, s.lock.req);
    assert Freed(s) == s.(files := files, lock := Free);
  }

  /** Granting is what makes the room: the caps hold with the request counted. */
  lemma GrantWithin(s: State, t: Truth)
    requires Inv(s, t) && s.lock.Asking? && CapsHold(s, s.lock.need, s.lock.entries)
    ensures WithinCaps(s.(lock := Granted(s.lock.req)))
  {
    hide KeysInv, TagsInv, WholeInv, FlushInv, InstallInv, RequestOk, Charge, Entries, GrowthBytes, GrowthEntries;
    SameLedger(s, s.(lock := Granted(s.lock.req)), s.lock.req);
  }

  // Commits use up the grant.

  lemma Spent(s: State, s': State)
    requires s.lock.Granted? && s'.lock.Free? && s'.cfg == s.cfg
    requires Charge(s') <= Charge(s) + Positive(GrowthBytes(s, s.lock.req)) &&
      Entries(s') <= Entries(s) + Positive(GrowthEntries(s, s.lock.req))
    ensures NoMore(s, s')
  {
    hide Charge, Entries, GrowthBytes, GrowthEntries;
  }

  lemma PutBlockFields(s: State, id: BlockId, data: Bytes, size: nat, async: bool, now: int)
    ensures var s' := PutBlock(s, id, data, size, async, now);
      s'.cfg == s.cfg && s'.lock.Free? && s'.notes == s.notes
  {
    hide Known, NewBlock;
    KnownFields(s, id.file);
  }

  lemma PutRangeFields(s: State, id: BlockId, off: nat, data: Bytes, size: nat, now: int)
    ensures var s' := PutRange(s, id, off, data, size, now);
      s'.cfg == s.cfg && s'.lock.Free? && s'.notes == s.notes && s'.parts == s.parts
    ensures var s' := PutRangeSync(s, id, off, data, size, now);
      s'.cfg == s.cfg && s'.lock.Free? && s'.notes == s.notes && s'.parts == s.parts
  {
    hide Known, AddRange, AddRangeSync, WriteAt, BaseFile, BlockLen;
    KnownFields(s, id.file);
    AddRangeFields(Known(s, id.file).(lock := Free), id, off, data, size, now);
  }

  lemma PutPartFields(s: State, id: BlockId, data: Bytes, size: nat, token: nat, fileTag: nat, now: int)
    ensures var s' := PutPart(s, id, data, size, token, fileTag, now);
      s'.cfg == s.cfg && s'.lock.Free? && s'.notes == s.notes
  {
    hide ReleaseHold, FillPart;
    var files := ReleaseIs(s, id.file, fileTag, token);
    FillFields(s.(files := files, lock := Free), id.file, size, id.index, data, now);
    assert ReleaseHold(s, id.file, fileTag, token).(lock := Free) == s.(files := files, lock := Free);
  }

  lemma AttachConfig(s: State, k: FileKey, o: nat, data: Bytes, now: int)
    ensures var s' := Attach(s, k, o, data, now); s'.cfg == s.cfg && s'.lock == s.lock && s'.notes == s.notes
  {
    hide Detach;
    DetachNotes(s, k);
  }

  lemma InstalledConfig(s: State, k: FileKey, o: nat, data: Bytes, pinned: bool, now: int)
    ensures var s' := Installed(s, k, o, data, pinned, now);
      s'.cfg == s.cfg && s'.lock == s.lock && s'.notes == s.notes
  {
    hide Attach;
    AttachConfig(s, k, o, data, now);
  }

  lemma ReserveNoMore(s: State, t: Truth)
    requires Inv(s, t) && s.lock.Granted? && s.lock.req.InstallReq?
    ensures NoMore(s, s.(installs := s.installs[s.lock.req.token := s.lock.req.install], lock := Free))
  {
    hide KeysInv, TagsInv, WholeInv, FlushInv, InstallInv, InstallOk, NoMore;
    var r := s.lock.req;
    SumUpdate(s.installs, InstallBytes, r.token, r.install);
    SizeUpdate(s.installs, r.token, r.install);
    Spent(s, s.(installs := s.installs[r.token := r.install], lock := Free));
  }

  lemma LinkNoMore(s: State, t: Truth, data: Bytes, now: int)
    requires Inv(s, t) && CanStore(s, CommitLink(data, now)) && HonestData(s, t, CommitLink(data, now))
    ensures NoMore(s, Stored(s, CommitLink(data, now)))
  {
    hide KeysInv, TagsInv, WholeInv, FlushInv, InstallInv, InstallOk, Installed, Weight, Known, NoMore, ChargedSame;
    var r := s.lock.req;
    var s1 := Known(s, r.key).(lock := Free);
    KnownKeeps(s, t, r.key);
    KnownFields(s, r.key);
    KnownCharged(s, r.key);
    SameLedger(s, s1, r);
    var s' := Installed(s1, r.key, r.inode, data, r.pinned, now);
    InstalledWeight(s1, t, r.key, r.inode, data, r.pinned, now, InBytes());
    InstalledWeight(s1, t, r.key, r.inode, data, r.pinned, now, InEntries());
    Ledger(s1);
    Ledger(s');
    InstalledConfig(s1, r.key, r.inode, data, r.pinned, now);
    Spent(s, s');
  }

  lemma CommitNoMore(s: State, t: Truth, a: Commit)
    requires Inv(s, t) && CanStore(s, a) && HonestData(s, t, a) && !a.CommitLink?
    ensures NoMore(s, Stored(s, a))
  {
    hide KeysInv, TagsInv, WholeInv, FlushInv, InstallInv, InstallOk, PutBlock, PutPart, PutRange, PutRangeSync, Piece,
         PieceCount, Covered,
      Aligned, Cut, NoMore, Charge, Entries, GrowthBytes, GrowthEntries;
    var r := s.lock.req;
    match a {
      case CommitPut(data, now) =>
        PutBlockCharge(s, t, r.id, data, r.size, false, now);
        PutBlockFields(s, r.id, data, r.size, false, now);
        Spent(s, Stored(s, a));
      case CommitAsync(data, now) =>
        PutBlockCharge(s, t, r.id, data, r.size, true, now);
        PutBlockFields(s, r.id, data, r.size, true, now);
        Spent(s, Stored(s, a));
      case CommitRange(data, now) =>
        PutRangeCharge(s, t, r.id, r.off, data, r.size, false, now);
        PutRangeFields(s, r.id, r.off, data, r.size, now);
        Spent(s, Stored(s, a));
      case CommitRangeSync(data, now) =>
        PutRangeCharge(s, t, r.id, r.off, data, r.size, true, now);
        PutRangeFields(s, r.id, r.off, data, r.size, now);
        Spent(s, Stored(s, a));
      case CommitPart(data, now) =>
        PutPartCharge(s, t, r.id, data, r.size, r.token, r.fileTag, now);
        PutPartFields(s, r.id, data, r.size, r.token, r.fileTag, now);
        Spent(s, Stored(s, a));
      case CommitReserve => ReserveNoMore(s, t);
    }
  }

  // Background work.

  lemma FreeNoMore(s: State, s': State)
    requires s.lock.Free? && Lighter(s, s') && s'.cfg == s.cfg && s'.lock.Free?
    ensures NoMore(s, s')
  {
    hide Charge, Entries;
  }

  lemma HydrateConfig(s: State, u: nat, o: nat, now: int)
    requires u in s.installs
    ensures var s' := HydrateFinish(s, u, o, now); s'.cfg == s.cfg && s'.lock == s.lock && s'.notes == s.notes
  {
    hide Attach, EndInstall;
    EndInstallIndex(s, u);
    AttachConfig(EndInstall(s, u), s.installs[u].key, o, s.installs[u].temp, now);
  }

  lemma PutWholeConfig(s: State, u: nat, o: nat, data: Bytes, now: int)
    requires u in s.installs
    ensures var s' := PutWholeFinish(s, u, o, data, now); s'.cfg == s.cfg && s'.lock == s.lock && s'.notes == s.notes
  {
    hide Installed, EndInstall;
    EndInstallIndex(s, u);
    InstalledConfig(EndInstall(s, u), s.installs[u].key, o, data, false, now);
  }

  lemma ForgetNoMore(s: State, t: Truth, k: FileKey)
    requires Inv(s, t) && s.lock.Free?
    ensures NoMore(s, Forget(s, k))
  {
    hide Inv, Weight, NoMore, Detach, Emptied, Forget;
    ForgetWeight(s, t, k, InBytes());
    ForgetWeight(s, t, k, InEntries());
    LighterByWeight(s, Forget(s, k));
    if k in s.files {
      DetachKeeps(s, t, k);
      ForgetIs(s, k);
      WholeOnlyFields(s, Detach(s, k));
      EmptiedFields(Detach(s, k), k, Detach(s, k).files - {k});
    } else {
      ForgetNothing(s, k);
    }
    FreeNoMore(s, Forget(s, k));
  }

  lemma ForgetNothing(s: State, k: FileKey)
    requires k !in s.files
    ensures Forget(s, k) == s
  {
  }

  lemma PublishNoMore(s: State, t: Truth, k: FileKey, o: nat, now: int)
    requires Inv(s, t) && CanDo(s, Publish(k, o, now))
    ensures NoMore(s, PublishPart(s, k, o, now))
  {
    hide Inv, NoMore, Installed, Lighter, PieceCount;
    FullPartIsFile(s, t, k);
    PublishLighter(s, t, k, o, now);
    InstalledConfig(s, k, o, s.partFile[k], false, now);
    FreeNoMore(s, PublishPart(s, k, o, now));
  }

  lemma BeginFlushNoMore(s: State, t: Truth, id: BlockId)
    requires s.lock.Free? && id in s.blocks && s.blocks[id].mem.Some? && !Flushing(s, id)
    ensures NoMore(s, FlushBegin(s, id))
  {
    var s' := FlushBegin(s, id);
    SumUpdate(s.flushes, DetachedBytes, s.blocks[id].tag, s'.flushes[s.blocks[id].tag]);
    SumUpdate(s.flushes, DetachedOne, s.blocks[id].tag, s'.flushes[s.blocks[id].tag]);
    assert Lighter(s, s');
    FreeNoMore(s, s');
  }

  lemma WorkNoMore(s: State, t: Truth, a: Work)
    requires Inv(s, t) && CanDo(s, a) && Honest(s, t, Do(a)) && !a.EnsurePart? && !a.DropHanded? && !a.NoteHanded?
    ensures NoMore(s, Done(s, a))
  {
    hide Inv, NoMore, Lighter, FlushFinish, FlushSubs, Adopt, PublishPart, HydrateFinish, PutWholeFinish, EndInstall,
         Forget, Pinned, CloseWhole, TouchBlock, TouchWhole, FlushBegin, HydrateCopy, ObjectLike, PieceCount;
    match a {
      case BeginFlush(id) => BeginFlushNoMore(s, t, id);
      case EndFlush(u, ok) => EndFlushNoMore(s, t, u, ok);
      case FlushPartial(id, ok) =>
        FlushSubsLighter(s, t, id, ok);
        FreeNoMore(s, FlushSubs(s, id, ok));
      case AdoptBlock(id, now) =>
        AdoptLighter(s, t, id, now);
        FreeNoMore(s, Adopt(s, id, now));
      case Publish(k, o, now) => PublishNoMore(s, t, k, o, now);
      case CopyNext(u) => CopyNoMore(s, u);
      case FinishHydrate(u, o, now) =>
        HydrateLighter(s, t, u, o, now);
        HydrateConfig(s, u, o, now);
        FreeNoMore(s, HydrateFinish(s, u, o, now));
      case FinishPutWhole(u, o, data, now) =>
        PutWholeLighter(s, t, u, o, data, now);
        PutWholeConfig(s, u, o, data, now);
        FreeNoMore(s, PutWholeFinish(s, u, o, data, now));
      case AbortInstall(u) => AbortNoMore(s, u);
      case ForgetFile(k) => ForgetNoMore(s, t, k);
      case SetPin(k, pinned, user) => PinNoMore(s, k, pinned, user);
      case Lease(k, now) => LeaseNoMore(s, k, now);
      case Unlease(o) => UnleaseNoMore(s, t, o);
      case LookUp(k, idx, now) => LookUpNoMore(s, k, idx, now);
      case CloseCache => CloseNoMore(s);
    }
  }

  lemma LeaseNoMore(s: State, k: FileKey, now: int)
    requires k in s.files && s.files[k].whole.Some? && s.files[k].whole.value in s.objects
    ensures NoMore(s, OpenWhole(s, k, now))
  {
    hide NoMore;
    var o := s.files[k].whole.value;
    ObjectsNoMore(s, o, s.objects[o].(readers := s.objects[o].readers + 1, lastAccess := now, hot := true));
  }

  lemma CloseNoMore(s: State)
    ensures NoMore(s, s.(closed := true))
  {
    hide NoMore;
    RecordNoMore(s, s.(closed := true));
  }

  // What is on its way into sparse files changes only in two steps.

  lemma AdmissionNotes(s: State, a: Admission)
    requires CanAdmit(s, a) && !a.Evicts?
    ensures Admitted(s, a).notes == s.notes
  {
    hide Known, Room, CapsHold, AnyInMemory, Freed;
    match a {
      case AskPart(id, _, _) => KnownFields(s, id.file);
      case AskPutWhole(k, _) => KnownFields(s, k);
      case Unlock => FreedIs(s);
      case _ =>
    }
  }

  lemma EvictNotes(s: State, v: Victim)
    requires Evictable(s, v, None)
    ensures Evict(s, v).notes == s.notes
  {
  }

  lemma StoreNotes(s: State, a: Commit)
    requires CanStore(s, a)
    ensures Stored(s, a).notes == s.notes
  {
    hide PutBlock, PutRange, PutRangeSync, PutPart, Installed, Known;
    var r := s.lock.req;
    match a {
      case CommitPut(data, now) => PutBlockFields(s, r.id, data, r.size, false, now);
      case CommitAsync(data, now) => PutBlockFields(s, r.id, data, r.size, true, now);
      case CommitRange(data, now) => PutRangeFields(s, r.id, r.off, data, r.size, now);
      case CommitRangeSync(data, now) => PutRangeFields(s, r.id, r.off, data, r.size, now);
      case CommitPart(data, now) => PutPartFields(s, r.id, data, r.size, r.token, r.fileTag, now);
      case CommitReserve =>
      case CommitLink(data, now) =>
        KnownFields(s, r.key);
        InstalledConfig(Known(s, r.key).(lock := Free), r.key, r.inode, data, r.pinned, now);
    }
  }

  lemma FlushNotes(s: State, a: Work)
    requires CanDo(s, a) && (a.BeginFlush? || a.EndFlush? || a.EnsurePart? || a.FlushPartial? || a.AdoptBlock?)
    ensures Done(s, a).notes == s.notes
  {
    hide FillPart, FlushSubs, FlushFinish, Known, MadePart, PartBefore;
    match a {
      case EndFlush(u, ok) => FinishNotes(s, u, ok);
      case FlushPartial(id, ok) => SubsNotes(s, id, ok);
      case EnsurePart(u, now) =>
        var f := s.flushes[u];
        KnownFields(s, f.id.file);
        MadeFields(Known(s, f.id.file), f.id.file, f.size, now);
      case AdoptBlock(id, now) =>
        var s1 := s.(blockFile := s.blockFile - {id});
        FillFields(DropAll(s1, {id}), id.file, FileOf(s1, id.file).size, id.index, s.blockFile[id], now);
      case _ =>
    }
  }

  lemma FinishNotes(s: State, u: nat, ok: bool)
    requires u in s.flushes
    ensures FlushFinish(s, u, ok).notes == s.notes
  {
    hide FlushFinish;
    FinishIs(s, u, ok);
  }

  lemma SubsNotes(s: State, id: BlockId, ok: bool)
    requires id in s.blocks
    ensures FlushSubs(s, id, ok).notes == s.notes
  {
    hide Overlay, Settled, BaseFile;
  }

  lemma FileNotes(s: State, a: Work)
    requires CanDo(s, a) && !(a.BeginFlush? || a.EndFlush? || a.EnsurePart? || a.FlushPartial? || a.AdoptBlock?)
    requires !a.DropHanded? && !a.NoteHanded?
    ensures Done(s, a).notes == s.notes
  {
    hide Installed, HydrateFinish, PutWholeFinish, EndInstall, Forget, Pinned, Released, PieceCount, TouchBlock,
         TouchWhole;
    match a {
      case Publish(k, o, now) => InstalledConfig(s, k, o, s.partFile[k], false, now);
      case FinishHydrate(u, o, now) => HydrateConfig(s, u, o, now);
      case FinishPutWhole(u, o, data, now) => PutWholeConfig(s, u, o, data, now);
      case AbortInstall(u) => EndInstallIndex(s, u);
      case ForgetFile(k) => ForgetNotes(s, k);
      case SetPin(k, pinned, user) => PinNotes(s, k, pinned, user);
      case Unlease(o) =>
        var fewer := s.objects[o].(readers := s.objects[o].readers - 1);
        ReleasedNotes(s.(objects := s.objects[o := fewer]), o);
      case LookUp(k, idx, now) => TouchNotes(s, k, idx, now);
      case _ =>
    }
  }

  lemma ReleasedNotes(s: State, o: nat)
    ensures Released(s, o).notes == s.notes
  {
  }

  lemma ForgetNotes(s: State, k: FileKey)
    ensures Forget(s, k).notes == s.notes
  {
    hide Released;
    if k in s.files { DetachNotes(s, k); }
  }

  lemma DetachNotes(s: State, k: FileKey)
    ensures var s' := Detach(s, k); s'.cfg == s.cfg && s'.lock == s.lock && s'.notes == s.notes
  {
    hide Released;
    var f := FileOf(s, k);
    if f.whole.Some? {
      var o := f.whole.value;
      var ob := ObjectOf(s, o);
      var objects := s.objects[o := ob.(refs := ob.refs - {k})];
      ReleasedConfig(s.(files := s.files[k := f.(whole := None)], objects := objects), o);
    }
  }

  lemma ReleasedConfig(s: State, o: nat)
    ensures var s' := Released(s, o); s'.cfg == s.cfg && s'.lock == s.lock && s'.notes == s.notes
  {
  }

  lemma PinNotes(s: State, k: FileKey, pinned: bool, user: bool)
    ensures Pinned(s, k, pinned, user).notes == s.notes
  {
    hide Known, Repinned;
    KnownFields(s, k);
  }

  lemma TouchNotes(s: State, k: FileKey, idx: nat, now: int)
    ensures TouchWhole(TouchBlock(s, k, idx, now), k, now).notes == s.notes
  {
    hide TouchBlock;
    TouchBlockNotes(s, k, idx, now);
  }

  lemma TouchBlockNotes(s: State, k: FileKey, idx: nat, now: int)
    ensures TouchBlock(s, k, idx, now).notes == s.notes
  {
  }

  lemma StepNotes(s: State, a: Action)
    requires Enabled(s, a) && !(a.Do? && (a.work.DropHanded? || a.work.NoteHanded?))
    ensures Next(s, a).notes == s.notes
  {
    hide CanAdmit, CanStore, CanDo, Admitted, Stored, Done;
    match a {
      case Admit(x) => if x.Evicts? { EvictStepNotes(s, x.victim); } else { AdmissionNotes(s, x); }
      case Store(x) => StoreNotes(s, x);
      case Do(x) =>
        if x.BeginFlush? || x.EndFlush? || x.EnsurePart? || x.FlushPartial? || x.AdoptBlock? {
          FlushNotes(s, x);
        } else {
          FileNotes(s, x);
        }
    }
  }

  lemma EvictStepNotes(s: State, v: Victim)
    requires CanAdmit(s, Evicts(v))
    ensures Admitted(s, Evicts(v)).notes == s.notes
  {
    hide Evict;
    EvictNotes(s, v);
  }

  // The theorem.

  /** The ways in which the code lets the charge pass the caps: a pinned link, a range put
      overtaken by the hand-over of its block, a sparse file made by a flush, and an
      admission while a block is on its way into a sparse file. */
  ghost predicate Exempt(s: State, a: Action) {
    match a
    case Admit(x) => PinnedLink(s, x) || (x.Grant? && s.notes != map[])
    case Store(_) => false
    case Do(x) => (x.DropHanded? && Overtaken(s, x.tag)) || (x.EnsurePart? && MakesPart(s, x.tag))
  }

  predicate MakesPart(s: State, u: nat) {
    u in s.flushes && s.flushes[u].id.file !in s.parts
  }

  /** The bytes such a step lets in: the linked file, or what the overtaken put will add. */
  ghost function ExcessBytes(s: State, a: Action): nat
    requires Enabled(s, a)
  {
    if a.Admit? && PinnedLink(s, a.admission) then a.admission.size
    else if a.Do? && a.work.DropHanded? && Overtaken(s, a.work.tag) then Positive(GrowthBytes(Next(s, a), s.lock.req))
    else 0
  }

  ghost function ExcessEntries(s: State, a: Action): nat
    requires Enabled(s, a)
  {
    if a.Admit? && PinnedLink(s, a.admission) then 1
    else if a.Do? && a.work.EnsurePart? && MakesPart(s, a.work.tag) then 1
    else 0
  }

  /** How far over the caps the cache may be: what was let in since the last grant, which
      is given only when both caps hold, and what was on its way then. */
  datatype Debt = Debt(bytes: nat, entries: nat)

  ghost function Owed(s: State, a: Action, d: Debt): Debt
    requires Enabled(s, a)
  {
    if a == Admit(Grant) then Debt(Carried(s), 0)
    else Debt(d.bytes + ExcessBytes(s, a), d.entries + ExcessEntries(s, a))
  }

  /** What is charged, granted and on its way. */
  ghost predicate WithinCapsBy(s: State, d: Debt) {
    && (s.cfg.maxBytes > 0 ==> Load(s) + Carried(s) <= s.cfg.maxBytes + d.bytes)
    && (s.cfg.maxBlocks > 0 ==> Slots(s) <= s.cfg.maxBlocks + d.entries)
  }

  /** The step adds no more than its excess. */
  ghost predicate AddsExcess(s: State, a: Action)
    requires Enabled(s, a)
  {
    var s' := Next(s, a);
    && s'.cfg == s.cfg && Load(s') + Carried(s') <= Load(s) + Carried(s) + ExcessBytes(s, a)
    && Slots(s') <= Slots(s) + ExcessEntries(s, a)
  }

  lemma AddsNothing(s: State, a: Action)
    requires Enabled(s, a) && NoMore(s, Next(s, a)) && Next(s, a).notes == s.notes
    ensures AddsExcess(s, a)
  {
    hide Next, Load, Slots, ExcessBytes, ExcessEntries, Enabled;
  }

  lemma PinnedExcess(s: State, x: Admission)
    requires CanAdmit(s, x) && PinnedLink(s, x)
    ensures AddsExcess(s, Admit(x))
  {
    hide Charge, Entries;
    SameLedger(s, Admitted(s, x), SweepReq);
  }

  /** Finding the sparse file costs nothing, making it one entry. */
  lemma EnsureExcess(s: State, t: Truth, u: nat, now: int)
    requires Inv(s, t) && CanDo(s, EnsurePart(u, now))
    ensures AddsExcess(s, Do(EnsurePart(u, now)))
  {
    hide Inv, HandEnsure, Charge, Entries, GrowthBytes, GrowthEntries, PartsGrow;
    EnsureCharge(s, t, u, now);
    EnsureGrows(s, u, now);
    if s.lock.Granted? { PartsGrowth(s, HandEnsure(s, u, now), s.lock.req); }
    FlushNotes(s, EnsurePart(u, now));
  }

  /** A block that leaves the index is carried instead. */
  lemma DropExcess(s: State, t: Truth, u: nat)
    requires Inv(s, t) && CanDo(s, DropHanded(u))
    ensures AddsExcess(s, Do(DropHanded(u)))
  {
    hide Inv, HandDrop, Charge, Entries, GrowthBytes, GrowthEntries;
    HandDropCharge(s, t, u);
    if s.lock.Granted? {
      if Overtaken(s, u) {
        OneEntry(HandDrop(s, u), s.lock.req);
      } else {
        HandDropGrowth(s, t, u, s.lock.req);
      }
    }
  }

  lemma OneEntry(s: State, r: Request)
    requires r.RangeReq?
    ensures Positive(GrowthEntries(s, r)) <= 1
  {
  }

  /** A noted block is charged no more than it was carried with. */
  lemma NoteExcess(s: State, t: Truth, u: nat, now: int)
    requires Inv(s, t) && CanDo(s, NoteHanded(u, now))
    ensures AddsExcess(s, Do(NoteHanded(u, now)))
  {
    hide Inv, HandNote, Charge, Entries, GrowthBytes, GrowthEntries, PartsGrow;
    HandNoteCharge(s, t, u, now);
    NoteGrowsParts(s, u, now);
    if s.lock.Granted? { PartsGrowth(s, HandNote(s, u, now), s.lock.req); }
  }

  lemma EvictsNoMore(s: State, t: Truth, v: Victim)
    requires Inv(s, t) && CanAdmit(s, Evicts(v))
    ensures NoMore(s, Admitted(s, Evicts(v)))
  {
    hide Inv, NoMore, Evict, Lighter;
    EvictionLighter(s, t, v);
    Ungranted(s, Evict(s, v));
  }

  lemma StepAddsExcess(s: State, t: Truth, a: Action)
    requires Inv(s, t) && Lawful(s, t, a) && a != Admit(Grant)
    ensures AddsExcess(s, a)
  {
    hide Inv, NoMore, CanAdmit, CanStore, CanDo, HonestAsk, HonestData, Admitted, Stored, Done, PinnedLink,
         SpoilsNothing, AddsExcess;
    if a.Do? && (a.work.EnsurePart? || a.work.DropHanded? || a.work.NoteHanded?) {
      HandAddsExcess(s, t, a.work);
    } else if a.Admit? && PinnedLink(s, a.admission) {
      PinnedExcess(s, a.admission);
    } else {
      match a {
        case Admit(x) =>
          match x {
            case Evicts(v) => EvictsNoMore(s, t, v);
            case Unlock => UnlockStep(s);
            case _ => AdmissionNoMore(s, t, x);
          }
        case Store(x) =>
          if x.CommitLink? { LinkNoMore(s, t, x.data, x.now); } else { CommitNoMore(s, t, x); }
        case Do(x) => WorkNoMore(s, t, x);
      }
      StepNotes(s, a);
      AddsNothing(s, a);
    }
  }

  lemma HandAddsExcess(s: State, t: Truth, a: Work)
    requires Inv(s, t) && CanDo(s, a) && (a.EnsurePart? || a.DropHanded? || a.NoteHanded?)
    ensures AddsExcess(s, Do(a))
  {
    hide Inv, CanDo, AddsExcess;
    match a {
      case EnsurePart(u, now) => EnsureExcess(s, t, u, now);
      case DropHanded(u) => DropExcess(s, t, u);
      case NoteHanded(u, now) => NoteExcess(s, t, u, now);
    }
  }

  /** Every lawful step keeps the cache within its caps and what is owed. */
  lemma StepWithinCaps(s: State, t: Truth, a: Action, d: Debt)
    requires Inv(s, t) && Lawful(s, t, a) && WithinCapsBy(s, d)
    ensures WithinCapsBy(Next(s, a), Owed(s, a, d))
  {
    hide Inv, Enabled, Honest, SpoilsNothing, Next, Load, Slots, ExcessBytes, ExcessEntries, Carried;
    if a == Admit(Grant) {
      GrantClears(s, t);
    } else {
      StepAddsExcess(s, t, a);
    }
  }

  lemma GrantClears(s: State, t: Truth)
    requires Inv(s, t) && Enabled(s, Admit(Grant))
    ensures WithinCapsBy(Next(s, Admit(Grant)), Debt(Carried(s), 0))
  {
    hide Inv, Load, Slots;
    GrantStep(s, t);
  }

  lemma GrantStep(s: State, t: Truth)
    requires Inv(s, t) && CanAdmit(s, Grant)
    ensures WithinCaps(Admitted(s, Grant)) && Admitted(s, Grant).notes == s.notes
  {
    hide Inv, WithinCaps;
    GrantWithin(s, t);
  }

  lemma UnlockStep(s: State)
    requires CanAdmit(s, Unlock)
    ensures NoMore(s, Admitted(s, Unlock))
  {
    hide NoMore;
    UnlockNoMore(s);
  }

  /** What is owed after a run. */
  ghost function OwedAfter(s: State, t: Truth, acts: seq<Action>, d: Debt): Debt
    requires LawfulRun(s, t, acts)
    decreases |acts|
  {
    if acts == [] then d else OwedAfter(Next(s, acts[0]), t, acts[1..], Owed(s, acts[0], d))
  }

  /** After every lawful run, whatever was evicted, flushed, handed over or installed on
      the way, what is charged, granted and carried stays within the caps and what is owed:
      what was carried at the last grant and what exempt steps have let in since. */
  lemma {:induction false} CapsHoldInEveryRun(s: State, t: Truth, acts: seq<Action>, d: Debt)
    requires Inv(s, t) && LawfulRun(s, t, acts) && WithinCapsBy(s, d)
    ensures WithinCapsBy(Run(s, t, acts), OwedAfter(s, t, acts, d))
    decreases |acts|
  {
    hide Inv, WithinCapsBy, Owed, Enabled, Honest, SpoilsNothing, Next;
    if acts != [] {
      StepWithinCaps(s, t, acts[0], d);
      StepKeeps(s, t, acts[0]);
      CapsHoldInEveryRun(Next(s, acts[0]), t, acts[1..], Owed(s, acts[0], d));
    }
  }

  ghost predicate NoneExempt(s: State, t: Truth, acts: seq<Action>)
    requires LawfulRun(s, t, acts)
    decreases |acts|
  {
    acts == [] || (!Exempt(s, acts[0]) && NoneExempt(Next(s, acts[0]), t, acts[1..]))
  }

  lemma {:induction false} NothingOwed(s: State, t: Truth, acts: seq<Action>)
    requires LawfulRun(s, t, acts) && NoneExempt(s, t, acts)
    ensures OwedAfter(s, t, acts, Debt(0, 0)) == Debt(0, 0)
    decreases |acts|
  {
    hide Enabled, Honest, SpoilsNothing, Next, PinnedLink, Overtaken;
    if acts != [] {
      assert Carried(s.(notes := map[])) == 0;
      NothingOwed(Next(s, acts[0]), t, acts[1..]);
    }
  }

  /** So a run without an exempt step stays within the caps themselves. */
  lemma CapsHoldWithoutExemptSteps(s: State, t: Truth, acts: seq<Action>)
    requires Inv(s, t) && LawfulRun(s, t, acts) && NoneExempt(s, t, acts) && WithinCapsBy(s, Debt(0, 0))
    ensures WithinCaps(Run(s, t, acts))
  {
    hide Inv, LawfulRun, Run, NoneExempt, OwedAfter, Load, Slots;
    NothingOwed(s, t, acts);
    CapsHoldInEveryRun(s, t, acts, Debt(0, 0));
  }
}
