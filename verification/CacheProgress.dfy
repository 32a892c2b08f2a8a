/** What is ready gets done: from any state the invariant describes, a block in memory can be
    flushed, a file whose blocks are all there can be merged, and a whole file be put, each
    by a lawful run of the steps of that call alone. */
module CacheProgress {

  import opened Common
  import opened Bitmap
  import opened Geometry
  import opened CacheModel
  import opened CacheInvariant
  import opened CacheSteps
  import opened CacheBudget
  import opened CacheRuns
  import opened CacheFindings
  import opened CacheOverruns
  import opened CacheHits
  import opened CacheServes

  /** Every range of every block of the file is a hit, with the real bytes. */
  ghost predicate Served(s: State, t: Truth, k: FileKey) {
    forall idx: nat, off: nat, n: nat :: n > 0 && off + n <= |BlockTruth(s.cfg, t, BlockId(k, idx))| ==>
      ReadAt(s, k, idx, off, n) == Some(Cut(BlockTruth(s.cfg, t, BlockId(k, idx)), off, n))
  }

  lemma CompleteServes(s: State, t: Truth, k: FileKey)
    requires Inv(s, t) && Complete(s, k)
    ensures Served(s, t, k)
  {
    hide Inv, Complete, Covers, ReadAt, BlockTruth, Cut, Held;
    forall idx: nat, off: nat, n: nat | n > 0 && off + n <= |BlockTruth(s.cfg, t, BlockId(k, idx))|
      ensures ReadAt(s, k, idx, off, n) == Some(Cut(BlockTruth(s.cfg, t, BlockId(k, idx)), off, n))
    {
      forall x | off <= x < off + n ensures Covers(s, k, idx, x / s.cfg.subSize) {
        CompleteIsThere(s, k, idx, x / s.cfg.subSize);
      }
      HeldIsCovered(s, k, idx, off, n);
      HitsExactly(s, t, k, idx, off, n);
    }
  }

  // Hydration.

  /** Every block of the file is whole on disk and noted, and nobody is at work on it. */
  ghost predicate Mergeable(s: State, t: Truth, k: FileKey) {
    && k in s.files && s.files[k].whole.None? && s.files[k].holds == {} && k !in s.parts && |t(k)| > 0
    && s.files[k].present == Range(BlockTotal(s.cfg, t, k)) && SourceOk(s, t, k)
  }

  /** Room for the copy is asked for and granted, and the reservation made. */
  ghost predicate Reserved(s: State, s': State, t: Truth, k: FileKey, u: nat) {
    && s'.cfg == s.cfg && s'.lock.Free? && s'.closed == s.closed && s'.objects == s.objects
    && u in s'.installs && s'.installs[u].key == k && s'.installs[u].size == |t(k)| && Current(s', s'.installs[u])
  }

  lemma MergeAsked(s: State, t: Truth, k: FileKey)
    requires KeysInv(s, t) && s.lock.Free? && !s.closed && Mergeable(s, t, k)
    ensures var i := NewInstall(s, k, true, |t(k)|);
      && Lawful(s, t, Admit(AskHydrate(k))) && i.size == |t(k)|
      && Next(s, Admit(AskHydrate(k))) == Hold(s, k).(lock := Asking(InstallReq(s.nextTag, i), |t(k)|, 1))
  {
    hide KeysInv, Hold, PieceCount, SourceOk, AnyInMemory;
    assert PresentAt(s, t, k) by { KeyOf(s, t, k); }
    SizeOfFull(s, t, k);
    NothingInMemory(s, t, k);
    FullMeansAll(s.files[k].present, BlockTotal(s.cfg, t, k));
    assert AllBacked(s, k) by { SourceIsBacked(s, t, k); }
  }

  lemma KeyOf(s: State, t: Truth, k: FileKey)
    requires KeysInv(s, t)
    ensures k in s.files ==> PresentAt(s, t, k)
    ensures forall id :: id in s.blocks && id.file == k ==> BlockAt(s, t, id)
  {
    hide PresentAt, BlockAt, PartAt;
    assert KeyOk(s, t, k);
  }

  lemma SourceIsBacked(s: State, t: Truth, k: FileKey)
    requires Mergeable(s, t, k)
    ensures AllBacked(s, k)
  {
    hide BlockTotal;
  }

  lemma Grants(s: State, s1: State, t: Truth, r: Request, n: nat)
    requires s1.lock in {Asking(r, n, 0), Asking(r, n, 1)} && ChargedSame(s, s1) && CapsHold(s, n, 1)
    ensures Lawful(s1, t, Admit(Grant)) && Next(s1, Admit(Grant)) == s1.(lock := Granted(r))
  {
    hide Charge, Entries, ChargedSame;
    assert s1.cfg == s.cfg by { SameConfig(s, s1); }
    SameLedger(s, s1, SweepReq);
  }

  lemma SameConfig(s: State, s': State)
    requires ChargedSame(s, s')
    ensures s'.cfg == s.cfg
  {
  }

  lemma Reserves(s: State, t: Truth, u: nat, i: Install)
    requires s.lock == Granted(InstallReq(u, i))
    ensures Lawful(s, t, Store(CommitReserve))
    ensures Next(s, Store(CommitReserve)) == s.(installs := s.installs[u := i], lock := Free)
  {
  }

  lemma HeldSame(s: State, k: FileKey, l: Lock, i: Install)
    requires k in s.files && i == NewInstall(s, k, i.hydrate, i.size)
    ensures var s1 := Hold(s, k).(lock := l);
      ChargedSame(s, s1) && s1.closed == s.closed && s1.objects == s.objects && s1.cfg == s.cfg && Current(s1, i)
  {
  }

  lemma AskMerge(s: State, t: Truth, k: FileKey)
    requires Inv(s, t) && s.lock.Free? && !s.closed && Mergeable(s, t, k) && CapsHold(s, |t(k)|, 1)
    ensures var a1, a2, a3 := Admit(AskHydrate(k)), Admit(Grant), Store(CommitReserve);
      && Lawful(s, t, a1) && Lawful(Next(s, a1), t, a2) && Lawful(Next(Next(s, a1), a2), t, a3)
      && var s' := Next(Next(Next(s, a1), a2), a3);
         Reserved(s, s', t, k, s.nextTag) && s'.installs[s.nextTag].hydrate && s'.installs[s.nextTag].next == 0
  {
    hide KeysInv, TagsInv, WholeInv, FlushInv, InstallInv, HandInv, LockOk, CapsHold, Lawful, Next, Hold, ChargedSame,
         BlockTotal;
    MergeAsked(s, t, k);
    var i := NewInstall(s, k, true, |t(k)|);
    var r := InstallReq(s.nextTag, i);
    var s1 := Hold(s, k).(lock := Asking(r, |t(k)|, 1));
    HeldSame(s, k, Asking(r, |t(k)|, 1), i);
    Grants(s, s1, t, r, |t(k)|);
    Reserves(s1.(lock := Granted(r)), t, s.nextTag, i);
  }

  lemma SizeOfFull(s: State, t: Truth, k: FileKey)
    requires k in s.files && PresentAt(s, t, k) && s.files[k].present == Range(BlockTotal(s.cfg, t, k)) && |t(k)| > 0
    ensures s.files[k].size == |t(k)|
  {
    assert 0 in Range(BlockTotal(s.cfg, t, k));
  }

  lemma NothingInMemory(s: State, t: Truth, k: FileKey)
    requires KeysInv(s, t) && SourceOk(s, t, k)
    ensures !AnyInMemory(s, k)
  {
    hide KeysInv, BlockOk;
    KeyOf(s, t, k);
    forall id | id in s.blocks && id.file == k ensures s.blocks[id].mem.None? {
      assert BlockAt(s, t, id) && id == BlockId(k, id.index);
    }
  }

  /** A whole block that is not in memory is in its file, at its full length. */
  lemma SourceFile(s: State, t: Truth, id: BlockId)
    requires KeysInv(s, t) && id in s.blocks && s.blocks[id].bits.None? && s.blocks[id].mem.None?
    ensures id in s.blockFile && |s.blockFile[id]| == BlockLen(s.cfg, id.index, |t(id.file)|)
  {
    hide KeysInv;
    KeyOf(s, t, id.file);
    assert BlockAt(s, t, id);
  }

  /** The next block is there to be copied. */
  lemma CopyStep(s: State, t: Truth, u: nat)
    requires Inv(s, t) && u in s.installs && s.installs[u].hydrate && Current(s, s.installs[u])
    requires s.installs[u].next < BlockTotal(s.cfg, t, s.installs[u].key)
    ensures Lawful(s, t, Do(CopyNext(u))) && Next(s, Do(CopyNext(u))) == HydrateCopy(s, u)
  {
    hide TagsInv, WholeInv, FlushInv, HandInv, LockOk, KeysInv, HydrateCopy, PieceCount, BlockLen, Copied;
    var i := s.installs[u];
    assert InstallOk(s, t, u, i);
    SourceFile(s, t, BlockId(i.key, i.next));
  }

  /** One block after the other, to the end of the file. */
  lemma {:induction false} CopyAll(s: State, t: Truth, acts: seq<Action>, u: nat) returns (more: seq<Action>)
    requires Inv(s, t) && LawfulRun(s, t, acts)
    requires var s1 := Run(s, t, acts);
      && u in s1.installs && s1.installs[u].hydrate && Current(s1, s1.installs[u])
      && s1.installs[u].next <= BlockTotal(s1.cfg, t, s1.installs[u].key)
    ensures LawfulRun(s, t, more)
    ensures var s1, s2 := Run(s, t, acts), Run(s, t, more);
      && s2 == s1.(installs := s2.installs) && u in s2.installs
      && s2.installs[u] ==
         s1.installs[u].(next := BlockTotal(s1.cfg, t, s1.installs[u].key), temp := s2.installs[u].temp)
    decreases BlockTotal(Run(s, t, acts).cfg, t, Run(s, t, acts).installs[u].key) - Run(s, t, acts).installs[u].next
  {
    hide Inv, Enabled, Honest, SpoilsNothing, Next, LawfulRun, Run, BlockTotal;
    var s1 := Run(s, t, acts);
    more := acts;
    if s1.installs[u].next < BlockTotal(s1.cfg, t, s1.installs[u].key) {
      RunKeeps(s, t, acts);
      CopyStep(s1, t, u);
      RunOn(s, t, acts, Do(CopyNext(u)));
      more := CopyAll(s, t, acts + [Do(CopyNext(u))], u);
    }
  }

  lemma FinishMerge(s: State, t: Truth, u: nat, o: nat, now: int)
    requires Inv(s, t) && s.lock.Free? && !s.closed && u in s.installs && s.installs[u].hydrate && o !in s.objects
    requires Current(s, s.installs[u]) && s.installs[u].next == BlockTotal(s.cfg, t, s.installs[u].key)
    requires s.installs[u].size == |t(s.installs[u].key)|
    ensures var a := Do(FinishHydrate(u, o, now)); Lawful(s, t, a) && Next(s, a) == HydrateFinish(s, u, o, now)
  {
    hide Inv, HydrateFinish;
  }

  /** A file whose blocks are all on disk can be merged: asking, granting, reserving, copying
      block after block and installing are a lawful run, and then every read of the file is
      a hit from the complete file. */
  lemma MergeLands(s: State, t: Truth, k: FileKey, o: nat, now: int) returns (acts: seq<Action>)
    requires Inv(s, t) && s.lock.Free? && !s.closed && Mergeable(s, t, k) && CapsHold(s, |t(k)|, 1) && o !in s.objects
    ensures LawfulRun(s, t, acts)
    ensures var s' := Run(s, t, acts); Complete(s', k) && Served(s', t, k)
  {
    hide Inv, Enabled, Honest, SpoilsNothing, Next, LawfulRun, Run, BlockTotal, CapsHold, Mergeable, Complete, Served,
         HydrateFinish;
    var a1, a2, a3, u := Admit(AskHydrate(k)), Admit(Grant), Store(CommitReserve), s.nextTag;
    AskMerge(s, t, k);
    NoSteps(s, t);
    RunOn(s, t, [], a1);
    RunOn(s, t, [] + [a1], a2);
    RunOn(s, t, [] + [a1] + [a2], a3);
    acts := [] + [a1] + [a2] + [a3];
    acts := CopyAll(s, t, acts, u);
    var s2 := Run(s, t, acts);
    RunKeeps(s, t, acts);
    FinishMerge(s2, t, u, o, now);
    HydratedIsComplete(s2, t, u, o, now);
    RunOn(s, t, acts, Do(FinishHydrate(u, o, now)));
    acts := acts + [Do(FinishHydrate(u, o, now))];
    RunKeeps(s, t, acts);
    CompleteServes(Run(s, t, acts), t, k);
  }
  // Whole-file puts and publications.

  lemma PutAsked(s: State, t: Truth, k: FileKey)
    requires s.lock.Free? && !s.closed
    ensures var s1 := Known(s, k);
      var i := NewInstall(s1, k, false, |t(k)|);
      && k in s1.files && i.size == |t(k)| && Lawful(s, t, Admit(AskPutWhole(k, |t(k)|)))
      && Next(s, Admit(AskPutWhole(k, |t(k)|))) ==
         Hold(s1, k).(lock := Asking(InstallReq(s1.nextTag, i), |t(k)|, 1))
  {
    hide Known, Hold;
    KnownFields(s, k);
  }

  lemma AskPut(s: State, t: Truth, k: FileKey)
    requires s.lock.Free? && !s.closed && CapsHold(s, |t(k)|, 1)
    ensures var a1, a2, a3 := Admit(AskPutWhole(k, |t(k)|)), Admit(Grant), Store(CommitReserve);
      && Lawful(s, t, a1) && Lawful(Next(s, a1), t, a2) && Lawful(Next(Next(s, a1), a2), t, a3)
      && var s', u := Next(Next(Next(s, a1), a2), a3), Known(s, k).nextTag;
         Reserved(s, s', t, k, u) && !s'.installs[u].hydrate
  {
    hide CapsHold, Lawful, Next, Hold, ChargedSame, Known;
    PutAsked(s, t, k);
    KnownSame(s, k);
    var s0 := Known(s, k);
    var i := NewInstall(s0, k, false, |t(k)|);
    var r := InstallReq(s0.nextTag, i);
    var s1 := Hold(s0, k).(lock := Asking(r, |t(k)|, 1));
    HeldSame(s0, k, Asking(r, |t(k)|, 1), i);
    ChargedOn(s, s0, s1);
    Grants(s, s1, t, r, |t(k)|);
    Reserves(s1.(lock := Granted(r)), t, s0.nextTag, i);
  }

  lemma KnownSame(s: State, k: FileKey)
    ensures ChargedSame(s, Known(s, k)) && Known(s, k).closed == s.closed && Known(s, k).objects == s.objects
    ensures Known(s, k).cfg == s.cfg
  {
    if k in s.files { assert Known(s, k) == s; }
  }

  lemma ChargedOn(s: State, s1: State, s2: State)
    requires ChargedSame(s, s1) && ChargedSame(s1, s2)
    ensures ChargedSame(s, s2)
  {
  }

  /** A whole file can be put: room asked for, granted and reserved, and the file installed;
      then every read of it is a hit. */
  lemma PutWholeLands(s: State, t: Truth, k: FileKey, o: nat, now: int) returns (acts: seq<Action>)
    requires Inv(s, t) && s.lock.Free? && !s.closed && CapsHold(s, |t(k)|, 1) && o !in s.objects
    ensures LawfulRun(s, t, acts) && |acts| == 4
    ensures var s' := Run(s, t, acts); Complete(s', k) && Served(s', t, k)
  {
    hide Inv, Enabled, Honest, SpoilsNothing, Next, LawfulRun, Run, CapsHold, Complete, Served, PutWholeFinish, Known;
    var a1, a2, a3 := Admit(AskPutWhole(k, |t(k)|)), Admit(Grant), Store(CommitReserve);
    var u := Known(s, k).nextTag;
    AskPut(s, t, k);
    NoSteps(s, t);
    RunOn(s, t, [], a1);
    RunOn(s, t, [] + [a1], a2);
    RunOn(s, t, [] + [a1] + [a2], a3);
    acts := [] + [a1] + [a2] + [a3];
    var s1 := Run(s, t, acts);
    RunKeeps(s, t, acts);
    var a := Do(FinishPutWhole(u, o, t(k), now));
    assert Lawful(s1, t, a) && Next(s1, a) == PutWholeFinish(s1, u, o, t(k), now) by { FinishPut(s1, t, u, o, now); }
    PutWholeIsComplete(s1, t, u, o, t(k), now);
    RunOn(s, t, acts, a);
    acts := acts + [a];
    RunKeeps(s, t, acts);
    CompleteServes(Run(s, t, acts), t, k);
  }

  lemma FinishPut(s: State, t: Truth, u: nat, o: nat, now: int)
    requires s.lock.Free? && !s.closed && u in s.installs && !s.installs[u].hydrate && o !in s.objects
    requires Current(s, s.installs[u]) && s.installs[u].size == |t(s.installs[u].key)|
    ensures var a := Do(FinishPutWhole(u, o, t(s.installs[u].key), now));
      Lawful(s, t, a) && Next(s, a) == PutWholeFinish(s, u, o, t(s.installs[u].key), now)
  {
    hide PutWholeFinish;
  }

  /** A sparse file that has every block can be published in one step, with no block
      copied. */
  lemma PublishLands(s: State, t: Truth, k: FileKey, o: nat, now: int)
    requires Inv(s, t) && s.lock.Free? && o !in s.objects && k in s.parts
    requires s.parts[k].bits == Range(BlockTotal(s.cfg, t, k))
    ensures var a := Do(Publish(k, o, now));
      Lawful(s, t, a) && Complete(Next(s, a), k) && Served(Next(s, a), t, k)
  {
    hide Inv, Installed, Complete, Served, PieceCount;
    PartIsReal(s, t, k);
    FullMeansAll(s.parts[k].bits, BlockTotal(s.cfg, t, k));
    var a := Do(Publish(k, o, now));
    assert Lawful(s, t, a);
    StepKeeps(s, t, a);
    InstalledIsComplete(s, t, k, o, s.partFile[k], false, now);
    CompleteServes(Next(s, a), t, k);
  }

  lemma PartIsReal(s: State, t: Truth, k: FileKey)
    requires Inv(s, t) && k in s.parts
    ensures k in s.files && k in s.partFile && s.files[k].size == s.parts[k].size == |s.partFile[k]| == |t(k)|
  {
    hide TagsInv, WholeInv, FlushInv, InstallInv, HandInv, LockOk, BlockAt, PresentAt, PieceCount;
    assert KeyOk(s, t, k);
    assert PartAt(s, t, k);
  }

  // Links and puts into the sparse file.

  lemma LinkAsked(s: State, t: Truth, k: FileKey, o: nat, pinned: bool)
    requires s.lock.Free? && (o in s.objects ==> o in s.inodes && s.inodes[o] == t(k)) && CapsHold(s, |t(k)|, 1)
    ensures var a, r := Admit(AskLink(k, o, |t(k)|, pinned)), LinkReq(k, o, |t(k)|, pinned);
      && Lawful(s, t, a)
      && (Next(s, a) == s.(lock := Granted(r)) ||
          (Next(s, a) == s.(lock := Asking(r, |t(k)|, 1)) && Lawful(Next(s, a), t, Admit(Grant)) &&
           Next(Next(s, a), Admit(Grant)) == s.(lock := Granted(r))))
  {
    hide Charge, Entries;
    SameLedger(s, s.(lock := Asking(LinkReq(k, o, |t(k)|, pinned), |t(k)|, 1)), SweepReq);
  }

  /** A local copy of the file can be linked, over whatever there is of it. */
  lemma LinkLands(s: State, t: Truth, k: FileKey, o: nat, pinned: bool, now: int) returns (acts: seq<Action>)
    requires Inv(s, t) && s.lock.Free? && (o in s.objects ==> o in s.inodes && s.inodes[o] == t(k))
    requires CapsHold(s, |t(k)|, 1)
    ensures LawfulRun(s, t, acts)
    ensures var s' := Run(s, t, acts); Complete(s', k) && Served(s', t, k)
  {
    hide Inv, Enabled, Honest, SpoilsNothing, Next, LawfulRun, Run, CapsHold, Complete, Served, Installed, Known;
    var r := LinkReq(k, o, |t(k)|, pinned);
    LinkAsked(s, t, k, o, pinned);
    NoSteps(s, t);
    RunOn(s, t, [], Admit(AskLink(k, o, |t(k)|, pinned)));
    acts := [] + [Admit(AskLink(k, o, |t(k)|, pinned))];
    if Run(s, t, acts) != s.(lock := Granted(r)) {
      RunOn(s, t, acts, Admit(Grant));
      acts := acts + [Admit(Grant)];
    }
    var s1, a := s.(lock := Granted(r)), Store(CommitLink(t(k), now));
    RunKeeps(s, t, acts);
    LinkStep(s1, t, k, o, pinned, now);
    LinkedIsComplete(s1, t, k, o, t(k), pinned, now);
    RunOn(s, t, acts, a);
    acts := acts + [a];
    RunKeeps(s, t, acts);
    CompleteServes(Run(s, t, acts), t, k);
  }

  lemma LinkStep(s: State, t: Truth, k: FileKey, o: nat, pinned: bool, now: int)
    requires s.lock == Granted(LinkReq(k, o, |t(k)|, pinned))
    ensures var a := Store(CommitLink(t(k), now));
      Lawful(s, t, a) && Next(s, a) == Installed(Known(s, k).(lock := Free), k, o, t(k), pinned, now)
  {
    hide Installed, Known;
  }

  /** The request for a block that goes into the sparse file. */
  function PartAsk(s: State, t: Truth, id: BlockId): Request {
    var s1 := Known(s, id.file);
    PartReq(id, |BlockTruth(s.cfg, t, id)|, |t(id.file)|, s1.nextTag, FileOf(s1, id.file).tag)
  }

  function PartHeld(s: State, t: Truth, id: BlockId): State {
    var s1 := Known(s, id.file);
    Hold(SetFile(s1, id.file, FileOf(s1, id.file).(size := |t(id.file)|)), id.file)
  }

  lemma PartAsked(s: State, t: Truth, id: BlockId)
    requires s.lock.Free? && WholeLayout(s.cfg, |t(id.file)|) && !InSparse(s, id.file, id.index)
    requires id.index < BlockTotal(s.cfg, t, id.file)
    ensures var T, size := BlockTruth(s.cfg, t, id), |t(id.file)|;
      && Lawful(s, t, Admit(AskPart(id, |T|, size)))
      && Next(s, Admit(AskPart(id, |T|, size))) ==
         PartHeld(s, t, id).(lock := Asking(PartAsk(s, t, id), |T|, if id.file in s.parts then 0 else 1))
  {
    hide Known, Hold, PieceCount, WholeLayout;
    KnownFields(s, id.file);
    PieceInRange(s.cfg.blockSize, id.index, |t(id.file)|);
    assert PartHeld(s, t, id).parts == s.parts by { HoldParts(s, t, id); }
  }

  lemma HoldParts(s: State, t: Truth, id: BlockId)
    ensures var s1 := PartHeld(s, t, id);
      s1.parts == s.parts && forall l :: ChargedSame(s, s1.(lock := l))
  {
    hide Known;
    KnownFields(s, id.file);
    KnownSame(s, id.file);
  }

  /** A block of a large file can be put into its sparse file, which is made if there is
      none. */
  lemma PutPartLands(s: State, t: Truth, id: BlockId, now: int) returns (acts: seq<Action>)
    requires Inv(s, t) && s.lock.Free? && WholeLayout(s.cfg, |t(id.file)|)
    requires id.index < BlockTotal(s.cfg, t, id.file) && !InSparse(s, id.file, id.index)
    requires CapsHold(s, |BlockTruth(s.cfg, t, id)|, 1)
    ensures LawfulRun(s, t, acts) && |acts| == 3 && InSparse(Run(s, t, acts), id.file, id.index)
  {
    hide Inv, Enabled, Honest, SpoilsNothing, Next, LawfulRun, Run, CapsHold, BlockTruth, BlockTotal, WholeLayout,
         InSparse, PartHeld, PutPart, ChargedSame;
    var T, size, r := BlockTruth(s.cfg, t, id), |t(id.file)|, PartAsk(s, t, id);
    var l := Asking(r, |T|, if id.file in s.parts then 0 else 1);
    var s1, a1 := PartHeld(s, t, id).(lock := l), Admit(AskPart(id, |T|, size));
    PartAsked(s, t, id);
    HoldParts(s, t, id);
    assert ChargedSame(s, s1);
    Grants(s, s1, t, r, |T|);
    NoSteps(s, t);
    RunOn(s, t, [], a1);
    RunOn(s, t, [] + [a1], Admit(Grant));
    acts := [] + [a1] + [Admit(Grant)];
    RunKeeps(s, t, acts);
    var s2, a3 := s1.(lock := Granted(r)), Store(CommitPart(T, now));
    SameConfig(s, s1);
    PartStep(s2, t, r, now);
    RunOn(s, t, acts, a3);
    acts := acts + [a3];
    PartIsThere(s2, t, id, T, size, r.token, r.fileTag, now);
  }

  lemma PartStep(s: State, t: Truth, r: Request, now: int)
    requires s.lock == Granted(r) && r.PartReq? && r.n == |BlockTruth(s.cfg, t, r.id)|
    ensures var T := BlockTruth(s.cfg, t, r.id);
      && Lawful(s, t, Store(CommitPart(T, now)))
      && Next(s, Store(CommitPart(T, now))) == PutPart(s, r.id, T, r.size, r.token, r.fileTag, now)
  {
    hide PutPart, BlockTruth;
  }

  // Flushes.

  /** The block is in memory and no flush of it has begun. */
  ghost predicate Flushable(s: State, id: BlockId) {
    s.lock.Free? && id in s.blocks && s.blocks[id].mem.Some? && !Flushing(s, id)
  }

  lemma BegunFlush(s: State, t: Truth, id: BlockId)
    requires Inv(s, t) && Flushable(s, id)
    ensures var s', u := FlushBegin(s, id), s.blocks[id].tag;
      && Lawful(s, t, Do(BeginFlush(id))) && Next(s, Do(BeginFlush(id))) == s'
      && s' == s.(flushes := s.flushes[u := s'.flushes[u]]) && Owns(s', u)
      && s'.flushes[u] ==
         Flush(id, BlockTruth(s.cfg, t, id), |t(id.file)|, WholeLayout(s.cfg, |t(id.file)|), None, false)
  {
    hide TagsInv, WholeInv, FlushInv, InstallInv, HandInv, LockOk, KeysInv, WholeLayout, PieceCount;
    KeyOf(s, t, id.file);
    assert BlockAt(s, t, id);
  }

  /** A block of a small file in memory can be flushed to its own file. */
  lemma FlushLands(s: State, t: Truth, id: BlockId) returns (acts: seq<Action>)
    requires Inv(s, t) && Flushable(s, id) && !WholeLayout(s.cfg, |t(id.file)|)
    ensures LawfulRun(s, t, acts) && |acts| == 2
    ensures var s' := Run(s, t, acts);
      && s'.blocks == s.blocks[id := s.blocks[id].(mem := None)] && s'.flushes == s.flushes
      && s'.blockFile == s.blockFile[id := BlockTruth(s.cfg, t, id)]
  {
    hide Inv, Enabled, Honest, SpoilsNothing, Next, LawfulRun, Run, BlockTruth, WholeLayout, FlushBegin, FlushFinish;
    var u, a1 := s.blocks[id].tag, Do(BeginFlush(id));
    var a2 := Do(EndFlush(u, true));
    BegunFlush(s, t, id);
    NoSteps(s, t);
    RunOn(s, t, [], a1);
    EndStep(FlushBegin(s, id), t, u);
    RunOn(s, t, [] + [a1], a2);
    acts := [] + [a1] + [a2];
    assert s.flushes[u := FlushBegin(s, id).flushes[u]] - {u} == s.flushes;
  }

  lemma EndStep(s: State, t: Truth, u: nat)
    requires u in s.flushes && Owns(s, u) && !s.flushes[u].sparse
    ensures var a, id := Do(EndFlush(u, true)), s.flushes[u].id;
      && Lawful(s, t, a)
      && Next(s, a) == s.(flushes := s.flushes - {u}, blocks := s.blocks[id := s.blocks[id].(mem := None)],
                          blockFile := s.blockFile[id := s.flushes[u].data])
  {
  }

  /** A block of a large file in memory can be handed over to its sparse file, which is made
      if there is none. */
  lemma HandOverLands(s: State, t: Truth, id: BlockId, now: int) returns (acts: seq<Action>)
    requires Inv(s, t) && Flushable(s, id) && WholeLayout(s.cfg, |t(id.file)|)
    ensures LawfulRun(s, t, acts) && |acts| == 4
    ensures var s' := Run(s, t, acts);
      id !in s'.blocks && InSparse(s', id.file, id.index) && s'.flushes.Keys == s.flushes.Keys
  {
    hide Inv, Enabled, Honest, SpoilsNothing, Next, LawfulRun, Run, BlockTruth, WholeLayout, FlushBegin, HandEnsure,
         HandDrop, HandNote, CanDo, InSparse;
    var u, a1 := s.blocks[id].tag, Do(BeginFlush(id));
    BegunFlush(s, t, id);
    NoSteps(s, t);
    RunOn(s, t, [], a1);
    acts := [] + [a1];
    var s1 := FlushBegin(s, id);
    RunKeeps(s, t, acts);
    CanEnsure(s1, t, u, now);
    EnsureStep(s1, t, u, now);
    RunOn(s, t, acts, Do(EnsurePart(u, now)));
    acts := acts + [Do(EnsurePart(u, now))];
    var s2 := HandEnsure(s1, u, now);
    EnsuredHands(s1, u, now);
    EnsuredKeys(s1, u, now);
    CanDrop(s2, u);
    DropStep(s2, t, u);
    RunOn(s, t, acts, Do(DropHanded(u)));
    acts := acts + [Do(DropHanded(u))];
    var s3 := HandDrop(s2, u);
    Handed(s2, u);
    CanNote(s3, u, now);
    NoteStep(s3, t, u, now);
    RunOn(s, t, acts, Do(NoteHanded(u, now)));
    acts := acts + [Do(NoteHanded(u, now))];
    NotedIsThere(s3, u, now);
    NotedBlocks(s3, u, now);
    assert s.flushes[u := s1.flushes[u]].Keys - {u} == s.flushes.Keys;
  }

  lemma CanEnsure(s: State, t: Truth, u: nat, now: int)
    requires Inv(s, t) && u in s.flushes && s.flushes[u].part.None? && s.flushes[u].sparse
    requires s.flushes[u].size == |t(s.flushes[u].id.file)|
    requires s.flushes[u].data == BlockTruth(s.cfg, t, s.flushes[u].id)
    ensures CanDo(s, EnsurePart(u, now))
  {
    hide Inv;
    if s.flushes[u].id.file in s.parts { PartIsReal(s, t, s.flushes[u].id.file); }
  }

  lemma CanDrop(s: State, u: nat)
    requires u in s.flushes && s.flushes[u].sparse && s.flushes[u].part.Some? && Owns(s, u)
    ensures CanDo(s, DropHanded(u))
  {
  }

  lemma Handed(s: State, u: nat)
    requires u in s.flushes && s.flushes[u].part.Some? && s.flushes[u].id.file in s.parts
    requires s.flushes[u].part.value == s.parts[s.flushes[u].id.file].tag
    ensures var s', id := HandDrop(s, u), s.flushes[u].id;
      && u in s'.notes && s'.notes[u].id == id && Live(s', s'.notes[u])
      && s'.blocks == s.blocks - {id} && s'.flushes.Keys == s.flushes.Keys - {u}
  {
  }

  lemma NotedBlocks(s: State, u: nat, now: int)
    requires u in s.notes && Live(s, s.notes[u])
    ensures HandNote(s, u, now).blocks == s.blocks && HandNote(s, u, now).flushes == s.flushes
  {
    hide FillPart;
    var n := s.notes[u];
    FillFields(s.(notes := s.notes - {u}), n.id.file, s.parts[n.id.file].size, n.id.index, n.data, now);
  }
}
