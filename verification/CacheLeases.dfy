/** Leases on complete files: the count of readers is the number of leases that are open,
    and while one is open its bytes stay, whatever is forgotten, replaced or evicted. */
module CacheLeases {

  import opened Common
  import opened Geometry
  import opened CacheModel
  import opened CacheInvariant
  import opened CacheSteps
  import opened CacheEdits
  import opened CacheKeepsWhole
  import opened CacheKeepsBlocks
  import opened CacheBudgetSteps
  import opened CacheKeepsHands
  import opened CacheRuns
  import opened CacheCaps

  function Readers(s: State, o: nat): nat {
    if o in s.objects then s.objects[o].readers else 0
  }

  /** Nobody opened or closed a lease, and what is leased has its bytes. */
  ghost predicate SameLeases(s: State, s': State) {
    forall o :: Readers(s', o) == Readers(s, o) && (Readers(s, o) > 0 ==> Lookup(s'.inodes, o) == Lookup(s.inodes, o))
  }

  predicate SameInodes(s: State, s': State) {
    s'.objects == s.objects && s'.inodes == s.inodes
  }

  lemma ThenSame(s: State, s1: State, s2: State)
    requires SameLeases(s, s1) && SameLeases(s1, s2)
    ensures SameLeases(s, s2)
  {
    forall o
      ensures Readers(s2, o) == Readers(s, o) && (Readers(s, o) > 0 ==> Lookup(s2.inodes, o) == Lookup(s.inodes, o))
    {
      assert Readers(s1, o) == Readers(s, o) && Readers(s2, o) == Readers(s1, o);
    }
  }

  // Steps on blocks and sparse files.

  lemma AdmissionInodes(s: State, a: Admission)
    requires CanAdmit(s, a) && !a.Evicts?
    ensures SameInodes(s, Admitted(s, a))
  {
    hide Known, Room, Freed, CapsHold, AnyInMemory;
    match a {
      case AskPart(id, _, _) => KnownFields(s, id.file);
      case AskPutWhole(k, _) => KnownFields(s, k);
      case Unlock => FreedIs(s);
      case _ =>
    }
  }

  lemma RangeInodes(s: State, id: BlockId, off: nat, data: Bytes, size: nat, now: int)
    ensures SameInodes(s, PutRange(s, id, off, data, size, now))
    ensures SameInodes(s, PutRangeSync(s, id, off, data, size, now))
  {
    hide Known, AddRange, AddRangeSync, Edited, RangeEdit, SyncEdit, WriteAt, BaseFile;
    if !(id in s.blocks && s.blocks[id].bits.None?) {
      var s1 := Known(s, id.file).(lock := Free);
      KnownFields(s, id.file);
      PutRangeIsEdit(s1, id, off, data, size, now);
      PutRangeSyncIsEdit(s1, id, off, data, size, now);
      EditFields(s1, RangeEdit(s1, id, off, data, size, true, now), false, {}, 1);
      EditFields(s1, SyncEdit(s1, id, off, data, size, now), false, {}, 1);
    }
  }

  lemma ReleaseInodes(s: State, k: FileKey, fileTag: nat, token: nat)
    ensures SameInodes(s, ReleaseHold(s, k, fileTag, token))
  {
  }

  lemma FillInodes(s: State, k: FileKey, size: nat, idx: nat, data: Bytes, now: int)
    ensures SameInodes(s, FillPart(s, k, size, idx, data, now))
  {
    hide PartBefore, WithBlock;
  }

  lemma PartInodes(s: State, id: BlockId, data: Bytes, size: nat, token: nat, fileTag: nat, now: int)
    ensures SameInodes(s, PutPart(s, id, data, size, token, fileTag, now))
  {
    hide FillPart, ReleaseHold;
    ReleaseInodes(s, id.file, fileTag, token);
    FillInodes(ReleaseHold(s, id.file, fileTag, token).(lock := Free), id.file, size, id.index, data, now);
  }

  lemma StoreInodes(s: State, a: Commit)
    requires CanStore(s, a) && !a.CommitLink?
    ensures SameInodes(s, Stored(s, a))
  {
    hide Known, PutRange, PutRangeSync, PutPart;
    var r := s.lock.req;
    match a {
      case CommitPut(_, _) => KnownFields(s, r.id.file);
      case CommitAsync(_, _) => KnownFields(s, r.id.file);
      case CommitRange(data, now) => RangeInodes(s, r.id, r.off, data, r.size, now);
      case CommitRangeSync(data, now) => RangeInodes(s, r.id, r.off, data, r.size, now);
      case CommitPart(data, now) => PartInodes(s, r.id, data, r.size, r.token, r.fileTag, now);
      case CommitReserve =>
    }
  }

  lemma SubsInodes(s: State, t: Truth, id: BlockId, ok: bool)
    requires Inv(s, t) && id in s.blocks
    ensures SameInodes(s, FlushSubs(s, id, ok))
  {
    hide Inv, FlushSubs, Edited, SubsEdit;
    InvKnown(s, t, id);
    if s.blocks[id].subs == map[] {
      NothingToFlush(s, id, ok);
    } else {
      FlushSubsIsEdit(s, id);
      EditFields(s, SubsEdit(s, id), false, {}, 0);
      EditFields(s, Kept(s, id).(block := None, onDisk := None), true, {}, 0);
    }
  }

  lemma EnsureInodes(s: State, u: nat, now: int)
    requires u in s.flushes
    ensures SameInodes(s, HandEnsure(s, u, now))
  {
    hide MadePart, Known;
    var f := s.flushes[u];
    KnownFields(s, f.id.file);
    MadeInodes(Known(s, f.id.file), f.id.file, f.size, now);
  }

  lemma NoteInodes(s: State, u: nat, now: int)
    requires u in s.notes
    ensures SameInodes(s, HandNote(s, u, now))
  {
    hide FillPart, HandNote;
    var n, s1 := s.notes[u], s.(notes := s.notes - {u});
    if Live(s, n) {
      NotedIs(s, u, now);
      FillInodes(s1, n.id.file, s.parts[n.id.file].size, n.id.index, n.data, now);
    } else {
      NotNoted(s, u, now);
    }
  }

  lemma PinInodes(s: State, k: FileKey, pinned: bool, user: bool)
    ensures SameInodes(s, Pinned(s, k, pinned, user))
  {
    hide Known, Repinned;
    KnownFields(s, k);
    if user && FileOf(s, k).userPinned == pinned { assert Pinned(s, k, pinned, user) == s; }
  }

  lemma MadeInodes(s: State, k: FileKey, size: nat, now: int)
    ensures SameInodes(s, MadePart(s, k, size, now))
  {
    hide PartBefore;
  }

  lemma AdoptInodes(s: State, id: BlockId, now: int)
    requires id in s.blockFile
    ensures SameInodes(s, Adopt(s, id, now))
  {
    hide FillPart;
    var s1 := DropAll(s.(blockFile := s.blockFile - {id}), {id});
    FillInodes(s1, id.file, FileOf(s, id.file).size, id.index, s.blockFile[id], now);
  }

  predicate OnBlocks(a: Work) {
    !(a.Publish? || a.FinishHydrate? || a.FinishPutWhole? || a.ForgetFile? || a.LookUp? || a.Lease? || a.Unlease?)
  }

  lemma WorkInodes(s: State, t: Truth, a: Work)
    requires Inv(s, t) && CanDo(s, a) && OnBlocks(a)
    ensures SameInodes(s, Done(s, a))
  {
    hide Inv, FlushFinish, FlushSubs, HandEnsure, HandNote, Adopt, EndInstall, Pinned, PieceCount;
    match a {
      case EndFlush(u, ok) => FinishIs(s, u, ok);
      case EnsurePart(u, now) => EnsureInodes(s, u, now);
      case NoteHanded(u, now) => NoteInodes(s, u, now);
      case FlushPartial(id, ok) => SubsInodes(s, t, id, ok);
      case AdoptBlock(id, now) => AdoptInodes(s, id, now);
      case AbortInstall(u) => EndInstallIndex(s, u);
      case SetPin(k, pinned, user) => PinInodes(s, k, pinned, user);
      case BeginFlush(_) =>
      case DropHanded(_) =>
      case CopyNext(_) =>
      case CloseCache =>
    }
  }

  // Steps on complete files.

  lemma ReleasedLeases(s: State, o: nat)
    ensures SameLeases(s, Released(s, o))
  {
  }

  lemma DetachLeases(s: State, t: Truth, k: FileKey)
    requires Inv(s, t) && k in s.files
    ensures SameLeases(s, Detach(s, k))
  {
    hide KeysInv, TagsInv, FlushInv, InstallInv, HandInv, LockOk, Released, SameLeases;
    var f := s.files[k];
    if f.whole.Some? {
      var o := f.whole.value;
      assert WholeAt(s, t, k);
      var s1 := s.(files := s.files[k := f.(whole := None)],
                   objects := s.objects[o := s.objects[o].(refs := s.objects[o].refs - {k})]);
      RenamedLeases(s, s1, o);
      ReleasedLeases(s1, o);
      ThenSame(s, s1, Released(s1, o));
    } else {
      RenamedLeases(s, s, 0);
    }
  }

  /** The names of an inode and when it was used are no lease. */
  lemma RenamedLeases(s: State, s': State, o: nat)
    requires s'.inodes == s.inodes
    requires s'.objects == s.objects ||
      (o in s.objects && o in s'.objects && s'.objects == s.objects[o := s'.objects[o]] &&
       s'.objects[o].readers == s.objects[o].readers)
    ensures SameLeases(s, s')
  {
  }

  lemma AttachLeases(s: State, t: Truth, k: FileKey, o: nat, data: Bytes, now: int)
    requires Inv(s, t) && k in s.files
    ensures SameLeases(s, Attach(s, k, o, data, now))
  {
    hide Inv, Detach, SameLeases;
    var s1 := if s.files[k].whole == Some(o) then s else Detach(s, k);
    if s.files[k].whole == Some(o) { RenamedLeases(s, s, o); } else { DetachLeases(s, t, k); }
    NamedLeases(s1, Attach(s, k, o, data, now), k, o, data, now);
    ThenSame(s, s1, Attach(s, k, o, data, now));
  }

  /** A new name makes no lease, and a new inode has none. */
  lemma NamedLeases(s: State, s': State, k: FileKey, o: nat, data: Bytes, now: int)
    requires var ob := if o !in s.objects then Object(|data|, {}, 0, now, false) else s.objects[o];
      s'.objects == s.objects[o := ob.(refs := ob.refs + {k}, lastAccess := now)]
    requires s'.inodes == if o !in s.objects then s.inodes[o := data] else s.inodes
    ensures SameLeases(s, s')
  {
  }

  lemma InstalledLeases(s: State, t: Truth, k: FileKey, o: nat, data: Bytes, pinned: bool, now: int)
    requires Inv(s, t) && k in s.files
    ensures SameLeases(s, Installed(s, k, o, data, pinned, now))
  {
    hide Inv, Attach, SameLeases;
    AttachLeases(s, t, k, o, data, now);
    RenamedLeases(Attach(s, k, o, data, now), Installed(s, k, o, data, pinned, now), 0);
    ThenSame(s, Attach(s, k, o, data, now), Installed(s, k, o, data, pinned, now));
  }

  lemma InstallLeases(s: State, t: Truth, a: Work)
    requires Inv(s, t) && CanDo(s, a) && (a.Publish? || a.FinishHydrate? || a.FinishPutWhole?)
    ensures SameLeases(s, Done(s, a))
  {
    hide Inv, Attach, Installed, EndInstall, SameLeases, PieceCount;
    match a {
      case Publish(k, o, now) => InstalledLeases(s, t, k, o, s.partFile[k], false, now);
      case FinishHydrate(u, o, now) =>
        var s1, i := EndInstall(s, u), s.installs[u];
        EndLeases(s, t, u);
        AttachLeases(s1, t, i.key, o, i.temp, now);
        ThenSame(s, s1, Attach(s1, i.key, o, i.temp, now));
        RenamedLeases(Attach(s1, i.key, o, i.temp, now), Done(s, a), 0);
        ThenSame(s, Attach(s1, i.key, o, i.temp, now), Done(s, a));
      case FinishPutWhole(u, o, data, now) =>
        var s1 := EndInstall(s, u);
        EndLeases(s, t, u);
        InstalledLeases(s1, t, s.installs[u].key, o, data, false, now);
        ThenSame(s, s1, Done(s, a));
    }
  }

  lemma EndLeases(s: State, t: Truth, u: nat)
    requires Inv(s, t) && u in s.installs
    ensures var s' := EndInstall(s, u); SameLeases(s, s') && Inv(s', t) && s'.files.Keys == s.files.Keys
  {
    hide Inv, EndInstall, SameLeases;
    EndInstallIs(s, u);
    EndInstallKeeps(s, t, u);
    RenamedLeases(s, EndInstall(s, u), 0);
  }

  lemma ForgetLeases(s: State, t: Truth, k: FileKey)
    requires Inv(s, t)
    ensures SameLeases(s, Forget(s, k))
  {
    hide Inv, Detach, Emptied, Forget, SameLeases;
    if k in s.files {
      var s1 := Detach(s, k);
      DetachKeeps(s, t, k);
      DetachLeases(s, t, k);
      ForgetIs(s, k);
      EmptiedFields(s1, k, s1.files - {k});
      RenamedLeases(s1, Forget(s, k), 0);
      ThenSame(s, s1, Forget(s, k));
    } else {
      ForgetNothing(s, k);
      RenamedLeases(s, s, 0);
    }
  }

  lemma EvictLeases(s: State, v: Victim)
    requires Evictable(s, v, None)
    ensures SameLeases(s, Evict(s, v))
  {
    hide SameLeases, EvictObject;
    match v {
      case ObjectVictim(o) => EvictedLeases(s, o);
      case _ => RenamedLeases(s, Evict(s, v), 0);
    }
  }

  lemma EvictedLeases(s: State, o: nat)
    requires o in s.objects && s.objects[o].refs != {}
    ensures SameLeases(s, EvictObject(s, o))
  {
    hide SameLeases, Released;
    var s1 := s.(files := Unlinked(s.files, s.objects[o].refs), objects := s.objects[o := s.objects[o].(refs := {})]);
    RenamedLeases(s, s1, o);
    ReleasedLeases(s1, o);
    ThenSame(s, s1, Released(s1, o));
  }

  lemma TouchLeases(s: State, k: FileKey, idx: nat, now: int)
    ensures SameLeases(s, TouchWhole(TouchBlock(s, k, idx, now), k, now))
  {
    hide SameLeases, TouchWhole;
    var s1 := TouchBlock(s, k, idx, now);
    assert SameInodes(s, s1) && s1.files == s.files;
    RenamedLeases(s, s1, 0);
    hide TouchBlock;
    WholeTouch(s1, k, now);
    ThenSame(s, s1, TouchWhole(s1, k, now));
  }

  lemma WholeTouch(s: State, k: FileKey, now: int)
    ensures SameLeases(s, TouchWhole(s, k, now))
  {
    hide SameLeases;
    if k in s.files && s.files[k].whole.Some? && s.files[k].whole.value in s.objects {
      RenamedLeases(s, TouchWhole(s, k, now), s.files[k].whole.value);
    } else {
      assert TouchWhole(s, k, now) == s;
      RenamedLeases(s, s, 0);
    }
  }

  // All steps.

  /** The step opens a lease on the inode. */
  predicate Opens(s: State, a: Action, o: nat) {
    && a.Do? && a.work.Lease? && a.work.key in s.files && s.files[a.work.key].whole == Some(o)
  }

  function Change(s: State, a: Action, o: nat): int {
    if Opens(s, a, o) then 1 else if a == Do(Unlease(o)) then -1 else 0
  }

  lemma QuietLeases(s: State, t: Truth, a: Action)
    requires Inv(s, t) && Enabled(s, a) && !(a.Do? && (a.work.Lease? || a.work.Unlease?))
    ensures SameLeases(s, Next(s, a))
  {
    hide Inv, SameLeases, CanStore, CanDo, Stored, Done, Evict, Evictable;
    match a {
      case Admit(x) =>
        if x.Evicts? {
          EvictAnyLeases(s, x.victim);
        } else {
          AdmissionInodes(s, x);
          RenamedLeases(s, Admitted(s, x), 0);
        }
      case Store(x) => StoreLeases(s, t, x);
      case Do(x) => WorkLeases(s, t, x);
    }
  }

  lemma EvictAnyLeases(s: State, v: Victim)
    requires CanAdmit(s, Evicts(v))
    ensures SameLeases(s, Admitted(s, Evicts(v)))
  {
    hide SameLeases, Evict;
    EvictLeases(s, v);
  }

  lemma StoreLeases(s: State, t: Truth, a: Commit)
    requires Inv(s, t) && CanStore(s, a)
    ensures SameLeases(s, Stored(s, a))
  {
    hide Inv, SameLeases, Known, Installed, PutBlock, PutRange, PutRangeSync, PutPart;
    if a.CommitLink? {
      var k, s1 := s.lock.req.key, Known(s, s.lock.req.key).(lock := Free);
      KnownFields(s, k);
      KnownKeeps(s, t, k);
      RenamedLeases(s, s1, 0);
      InstalledLeases(s1, t, k, s.lock.req.inode, a.data, s.lock.req.pinned, a.now);
      ThenSame(s, s1, Stored(s, a));
    } else {
      StoreInodes(s, a);
      RenamedLeases(s, Stored(s, a), 0);
    }
  }

  lemma WorkLeases(s: State, t: Truth, a: Work)
    requires Inv(s, t) && CanDo(s, a) && !a.Lease? && !a.Unlease?
    ensures SameLeases(s, Done(s, a))
  {
    hide Inv, SameLeases, FlushBegin, FlushFinish, HandEnsure, HandDrop, HandNote, FlushSubs, Adopt, PublishPart,
         HydrateCopy, HydrateFinish, PutWholeFinish, EndInstall, Forget, Pinned, TouchBlock, TouchWhole, PieceCount;
    if a.Publish? || a.FinishHydrate? || a.FinishPutWhole? {
      InstallLeases(s, t, a);
    } else if a.ForgetFile? {
      ForgetLeases(s, t, a.key);
    } else if a.LookUp? {
      TouchLeases(s, a.key, a.index, a.now);
    } else {
      WorkInodes(s, t, a);
      RenamedLeases(s, Done(s, a), 0);
    }
  }

  /** Every step: the count of readers of an inode goes up by a lease on a file that has it,
      down by one given back, and not otherwise; while it is not 0 the bytes stay. */
  lemma LeaseStep(s: State, t: Truth, a: Action, o: nat)
    requires Inv(s, t) && Enabled(s, a)
    ensures Readers(Next(s, a), o) == Readers(s, o) + Change(s, a, o)
    ensures Readers(s, o) > 0 && Readers(Next(s, a), o) > 0 ==> Lookup(Next(s, a).inodes, o) == Lookup(s.inodes, o)
  {
    hide Inv, SameLeases, CanAdmit, CanStore, Admitted, Stored, CanDo, Done;
    if a.Do? && (a.work.Lease? || a.work.Unlease?) {
      CallLeases(s, a.work, o);
    } else {
      QuietLeases(s, t, a);
      SameAt(s, Next(s, a), o);
    }
  }

  lemma CallLeases(s: State, a: Work, o: nat)
    requires CanDo(s, a) && (a.Lease? || a.Unlease?)
    ensures Readers(Done(s, a), o) == Readers(s, o) + Change(s, Do(a), o)
    ensures Readers(s, o) > 0 && Readers(Done(s, a), o) > 0 ==> Lookup(Done(s, a).inodes, o) == Lookup(s.inodes, o)
  {
    hide CloseWhole;
    if a.Lease? {
      assert Done(s, a) == OpenWhole(s, a.key, a.now);
    } else {
      assert Done(s, a) == CloseWhole(s, a.inode);
      CloseLease(s, a.inode, o);
    }
  }

  lemma SameAt(s: State, s': State, o: nat)
    requires SameLeases(s, s')
    ensures Readers(s', o) == Readers(s, o) && (Readers(s, o) > 0 ==> Lookup(s'.inodes, o) == Lookup(s.inodes, o))
  {
  }

  lemma CloseLease(s: State, p: nat, o: nat)
    requires p in s.objects && s.objects[p].readers > 0
    ensures var s' := CloseWhole(s, p);
      && Readers(s', o) == Readers(s, o) - (if o == p then 1 else 0)
      && (Readers(s', o) > 0 ==> Lookup(s'.inodes, o) == Lookup(s.inodes, o))
  {
    hide CloseWhole;
    CloseInodes(s, p);
  }

  lemma CloseInodes(s: State, o: nat)
    requires o in s.objects && s.objects[o].readers > 0
    ensures var s' := CloseWhole(s, o);
      if LastLease(s, o) then s'.objects == s.objects - {o} && s'.inodes == s.inodes - {o}
      else s'.objects == s.objects[o := s.objects[o].(readers := s.objects[o].readers - 1)] && s'.inodes == s.inodes
  {
    hide Released;
    var s1 := s.(objects := s.objects[o := s.objects[o].(readers := s.objects[o].readers - 1)]);
    ReleasedIs(s1, o);
    assert s1.objects - {o} == s.objects - {o};
  }
  // Runs.

  /** Leases on the inode opened less those given back, over the run. */
  ghost function Net(s: State, t: Truth, acts: seq<Action>, o: nat): int
    requires LawfulRun(s, t, acts)
    decreases |acts|
  {
    if acts == [] then 0 else Change(s, acts[0], o) + Net(Next(s, acts[0]), t, acts[1..], o)
  }

  /** With `live` of them open at the start, one is open at every moment of the run. */
  ghost predicate StaysOpen(s: State, t: Truth, acts: seq<Action>, o: nat, live: int)
    requires LawfulRun(s, t, acts)
    decreases |acts|
  {
    live > 0 &&
    (acts == [] || StaysOpen(Next(s, acts[0]), t, acts[1..], o, live + Change(s, acts[0], o)))
  }

  /** After every run an inode has as many readers as leases were opened on it and not given
      back. */
  lemma {:induction false} ReadersAreLeases(s: State, t: Truth, acts: seq<Action>, o: nat)
    requires Inv(s, t) && LawfulRun(s, t, acts)
    ensures Readers(Run(s, t, acts), o) == Readers(s, o) + Net(s, t, acts, o)
    decreases |acts|
  {
    hide Inv, Enabled, Honest, SpoilsNothing, Next, Change;
    if acts != [] {
      StepKeeps(s, t, acts[0]);
      LeaseStep(s, t, acts[0], o);
      ReadersAreLeases(Next(s, acts[0]), t, acts[1..], o);
    }
  }

  /** While some lease on it is open, an inode has its bytes. */
  lemma {:induction false} LeasedStays(s: State, t: Truth, acts: seq<Action>, o: nat)
    requires Inv(s, t) && LawfulRun(s, t, acts) && StaysOpen(s, t, acts, o, Readers(s, o))
    ensures var s' := Run(s, t, acts); Readers(s', o) > 0 && Lookup(s'.inodes, o) == Lookup(s.inodes, o)
    decreases |acts|
  {
    hide Inv, Enabled, Honest, SpoilsNothing, Next, Change;
    if acts != [] {
      StepKeeps(s, t, acts[0]);
      LeaseStep(s, t, acts[0], o);
      LeasedStays(Next(s, acts[0]), t, acts[1..], o);
    }
  }

  /** A reader who opens the complete file of k and does not close it reads the content of k
      through it, whatever is evicted, forgotten, replaced or closed by others meanwhile. */
  lemma OpenedReads(s: State, t: Truth, k: FileKey, now: int, acts: seq<Action>)
    requires Inv(s, t) && CanDo(s, Lease(k, now)) && LawfulRun(Done(s, Lease(k, now)), t, acts)
    requires var o := s.files[k].whole.value; StaysOpen(Done(s, Lease(k, now)), t, acts, o, Readers(s, o) + 1)
    ensures Lookup(Run(Done(s, Lease(k, now)), t, acts).inodes, s.files[k].whole.value) == Some(t(k))
  {
    hide KeysInv, TagsInv, FlushInv, InstallInv, HandInv, LockOk, LawfulRun, Run, StaysOpen;
    var a, o := Do(Lease(k, now)), s.files[k].whole.value;
    assert WholeAt(s, t, k);
    assert Done(s, Lease(k, now)) == Next(s, a) && Lawful(s, t, a);
    StepKeeps(s, t, a);
    LeaseStep(s, t, a, o);
    LeasedStays(Next(s, a), t, acts, o);
  }

  /** The last lease on an inode that has no name left frees it. */
  lemma LastFrees(s: State, o: nat)
    requires o in s.objects && s.objects[o].readers > 0
    ensures o in CloseWhole(s, o).objects <==> s.objects[o].readers > 1 || s.objects[o].refs != {}
    ensures o !in CloseWhole(s, o).objects ==> o !in CloseWhole(s, o).inodes
  {
    hide CloseWhole;
    CloseInodes(s, o);
  }
}
