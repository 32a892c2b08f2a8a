/** Runs of the cache: whatever callers, workers and evictions do, every hit returns
    the file's real bytes. */
module CacheRuns {

  import opened Common
  import opened Bitmap
  import opened Geometry
  import opened Ranges
  import opened CacheModel
  import opened CacheInvariant
  import opened CacheSteps
  import opened CacheReads
  import opened CacheKeepsBlocks
  import opened CacheKeepsParts
  import opened CacheKeepsWhole
  import opened CacheKeepsCalls
  import opened CacheKeepsAsks
  import opened CacheKeepsHands

  /** The step does not promote a block over a sub-block that is only in memory, and does
      not begin to merge a file that claims a block that is nowhere. */
  ghost predicate SpoilsNothing(s: State, t: Truth, a: Action) {
    && (a.Store? && a.commit.CommitRangeSync? && s.lock.Granted? && s.lock.req.RangeReq? ==>
          !Spoils(s, t, s.lock.req.id, s.lock.req.off, s.lock.req.n, s.lock.req.size))
    && (a.Admit? && a.admission.AskHydrate? ==> AllBacked(s, a.admission.key))
  }

  /** The step may happen, carries real bytes and spoils no block. */
  ghost predicate Lawful(s: State, t: Truth, a: Action) {
    Enabled(s, a) && Honest(s, t, a) && SpoilsNothing(s, t, a)
  }

  lemma AdmissionKeeps(s: State, t: Truth, a: Admission)
    requires Inv(s, t) && CanAdmit(s, a) && HonestAsk(s, t, a) && SpoilsNothing(s, t, Admit(a)) && !a.Evicts?
    ensures Inv(Admitted(s, a), t)
  {
    hide Inv, Known, Hold, Asked, Freed, Piece, Covered, CapsHold, AllBacked;
    match a {
      case AskBlock(id, n, size) => AskedKeeps(s, t, BlockReq(id, n, size));
      case AskRange(id, off, n, size) => AskedKeeps(s, t, RangeReq(id, off, n, size));
      case AskPart(id, n, size) => AskPartKeeps(s, t, id, n, size);
      case AskHydrate(k) => AskHydrateKeeps(s, t, k);
      case AskPutWhole(k, size) => AskPutWholeKeeps(s, t, k, size);
      case AskLink(k, o, size, pinned) => AskedKeeps(s, t, LinkReq(k, o, size, pinned));
      case AskSweep => AskedKeeps(s, t, SweepReq);
      case Grant => GrantKeeps(s, t);
      case Unlock => UnlockKeeps(s, t);
    }
  }

  lemma EvictionKeeps(s: State, t: Truth, v: Victim)
    requires Inv(s, t) && s.lock.Asking? && Evictable(s, v, Excluded(s.lock))
    ensures Inv(Evict(s, v), t)
  {
    hide Inv, DropBlock, EvictObject, ForgetPart;
    match v {
      case TempVictim(p) => IdleKeeps(s, t, s.temps - {p}, s.closed);
      case BlockVictim(id) => EvictBlockKeeps(s, t, id);
      case ObjectVictim(o) => EvictObjectKeeps(s, t, o);
      case PartVictim(k) => EvictPartKeeps(s, t, k);
    }
  }

  lemma CommitKeeps(s: State, t: Truth, a: Commit)
    requires Inv(s, t) && CanStore(s, a) && HonestData(s, t, a) && SpoilsNothing(s, t, Store(a)) && !a.CommitLink?
    ensures Inv(Stored(s, a), t)
  {
    hide KeysInv, TagsInv, WholeInv, FlushInv, InstallInv, InstallOk, PutBlock, PutPart, PutRange, PutRangeSync, Piece,
         PieceCount,
      Spoils, Aligned, Cut;
    var r := s.lock.req;
    match a {
      case CommitPut(data, now) => PutBlockKeeps(s, t, r.id, data, r.size, false, now);
      case CommitAsync(data, now) => PutBlockKeeps(s, t, r.id, data, r.size, true, now);
      case CommitRange(data, now) => PutRangeKeeps(s, t, r.id, r.off, data, r.size, now);
      case CommitRangeSync(data, now) => PutRangeSyncKeeps(s, t, r.id, r.off, data, r.size, now);
      case CommitPart(data, now) => PutPartKeeps(s, t, r.id, data, r.size, r.token, r.fileTag, now);
      case CommitReserve => ReserveKeeps(s, t);
    }
  }

  lemma CommitLinkKeeps(s: State, t: Truth, data: Bytes, now: int)
    requires Inv(s, t) && CanStore(s, CommitLink(data, now)) && HonestData(s, t, CommitLink(data, now))
    ensures Inv(Stored(s, CommitLink(data, now)), t)
  {
    hide KeysInv, TagsInv, WholeInv, FlushInv, InstallInv, Installed, InstallOk, Known;
    var r := s.lock.req;
    KnownKeeps(s, t, r.key);
    KnownFields(s, r.key);
    InstalledKeeps(Known(s, r.key).(lock := Free), t, r.key, r.inode, data, r.pinned, now);
  }

  /** A full sparse file is the file. */
  lemma FullPartIsFile(s: State, t: Truth, k: FileKey)
    requires Inv(s, t) && k in s.parts && k in s.partFile &&
      |s.parts[k].bits| == PieceCount(s.cfg.blockSize, s.parts[k].size)
    ensures s.partFile[k] == t(k) && k in s.files
  {
    hide TagsInv, WholeInv, FlushInv, InstallInv, LockOk, BlockOk, Piece;
    assert KeyOk(s, t, k) && PartAt(s, t, k);
    FullMeansAll(s.parts[k].bits, PieceCount(s.cfg.blockSize, s.parts[k].size));
    SamePiecesSameFile(s.partFile[k], t(k), s.cfg.blockSize);
  }

  lemma PublishKeeps(s: State, t: Truth, k: FileKey, o: nat, now: int)
    requires Inv(s, t) && CanDo(s, Publish(k, o, now))
    ensures Inv(PublishPart(s, k, o, now), t)
  {
    hide Inv, Installed;
    FullPartIsFile(s, t, k);
    InstalledKeeps(s, t, k, o, s.partFile[k], false, now);
  }

  lemma WorkKeeps(s: State, t: Truth, a: Work)
    requires Inv(s, t) && CanDo(s, a) && Honest(s, t, Do(a))
    ensures Inv(Done(s, a), t)
  {
    hide Inv, FlushFinish, HandEnsure, HandDrop, HandNote, FlushSubs, Adopt, PublishPart, HydrateFinish,
         PutWholeFinish, EndInstall, Forget, Pinned, CloseWhole, TouchBlock, TouchWhole;
    match a {
      case BeginFlush(id) => FlushBeginKeeps(s, t, id);
      case EndFlush(u, ok) => FlushFinishKeeps(s, t, u, ok);
      case EnsurePart(u, now) => HandEnsureKeeps(s, t, u, now);
      case DropHanded(u) => HandDropKeeps(s, t, u);
      case NoteHanded(u, now) => HandNoteKeeps(s, t, u, now);
      case FlushPartial(id, ok) => FlushSubsKeeps(s, t, id, ok);
      case AdoptBlock(id, now) => AdoptKeeps(s, t, id, now);
      case Publish(k, o, now) => PublishKeeps(s, t, k, o, now);
      case CopyNext(u) => CopyKeeps(s, t, u);
      case FinishHydrate(u, o, now) => HydrateFinishKeeps(s, t, u, o, now);
      case FinishPutWhole(u, o, data, now) => PutWholeFinishKeeps(s, t, u, o, data, now);
      case AbortInstall(u) => EndInstallKeeps(s, t, u);
      case ForgetFile(k) => ForgetKeeps(s, t, k);
      case SetPin(k, pinned, user) => PinKeeps(s, t, k, pinned, user);
      case Lease(k, now) => LeaseKeeps(s, t, k, now);
      case Unlease(o) => CloseWholeKeeps(s, t, o);
      case LookUp(k, idx, now) => LookupKeeps(s, t, k, idx, now);
      case CloseCache => IdleKeeps(s, t, s.temps, true);
    }
  }

  /** Every lawful step keeps the invariant. */
  lemma StepKeeps(s: State, t: Truth, a: Action)
    requires Inv(s, t) && Lawful(s, t, a)
    ensures Inv(Next(s, a), t)
  {
    hide Inv, CanAdmit, CanStore, CanDo, HonestAsk, HonestData, Admitted, Stored, Done;
    match a {
      case Admit(x) =>
        if x.Evicts? { EvictStep(s, t, x.victim); } else { AdmissionKeeps(s, t, x); }
      case Store(x) =>
        if x.CommitLink? { CommitLinkKeeps(s, t, x.data, x.now); } else { CommitKeeps(s, t, x); }
      case Do(x) => WorkKeeps(s, t, x);
    }
  }

  lemma EvictStep(s: State, t: Truth, v: Victim)
    requires Inv(s, t) && CanAdmit(s, Evicts(v))
    ensures Inv(Admitted(s, Evicts(v)), t)
  {
    hide Inv;
    EvictionKeeps(s, t, v);
  }

  // Runs.

  ghost predicate LawfulRun(s: State, t: Truth, acts: seq<Action>)
    decreases |acts|
  {
    acts == [] || (Lawful(s, t, acts[0]) && LawfulRun(Next(s, acts[0]), t, acts[1..]))
  }

  ghost function Run(s: State, t: Truth, acts: seq<Action>): State
    requires LawfulRun(s, t, acts)
    decreases |acts|
  {
    if acts == [] then s else Run(Next(s, acts[0]), t, acts[1..])
  }

  /** A cache with nothing in it but left-over temporary files. */
  predicate Fresh(s: State) {
    s.blocks == map[] && s.files == map[] && s.parts == map[] && s.objects == map[] && s.flushes == map[] &&
      s.notes == map[] && s.installs == map[] && s.lock.Free?
  }

  lemma FreshInv(s: State, t: Truth)
    requires Fresh(s)
    ensures Inv(s, t)
  {
  }

  lemma {:induction false} RunKeeps(s: State, t: Truth, acts: seq<Action>)
    requires Inv(s, t) && LawfulRun(s, t, acts)
    ensures Inv(Run(s, t, acts), t)
    decreases |acts|
  {
    hide Inv, Enabled, Honest, SpoilsNothing, Next;
    if acts != [] {
      StepKeeps(s, t, acts[0]);
      RunKeeps(Next(s, acts[0]), t, acts[1..]);
    }
  }

  /** After any lawful run, a hit on any range of any block returns exactly the real
      bytes of that range. */
  lemma EveryHitIsReal(s: State, t: Truth, acts: seq<Action>, k: FileKey, idx: nat, off: nat, n: nat)
    requires Fresh(s) && LawfulRun(s, t, acts)
    ensures var s' := Run(s, t, acts);
      var r := ReadAt(s', k, idx, off, n);
      r.Some? ==> r.value == Cut(BlockTruth(s'.cfg, t, BlockId(k, idx)), off, n)
  {
    hide Inv, ReadAt, LawfulRun, Run;
    FreshInv(s, t);
    RunKeeps(s, t, acts);
    HitsAreReal(Run(s, t, acts), t, k, idx, off, n);
  }
}
