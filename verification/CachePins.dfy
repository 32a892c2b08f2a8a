/** Pins: which calls set them, and that no eviction takes anything of a pinned file, blocks
    stored after the pin included. */
module CachePins {

  import opened Common
  import opened CacheModel
  import opened CacheInvariant
  import opened CacheSteps
  import opened CacheKeepsWhole
  import opened CacheKeepsBlocks
  import opened CacheRuns
  import opened CacheCaps
  import opened CacheFlows

  // The two flags of a file.

  /** What a step makes of the temporary pin and of the policy. */
  lemma FlagsAfter(s: State, t: Truth, a: Action, k: FileKey)
    requires Inv(s, t) && Enabled(s, a)
    ensures var saved, wanted := Saved(s.files, k), Wanted(s.files, k);
      var saved', wanted' := Saved(Next(s, a).files, k), Wanted(Next(s, a).files, k);
      if a.Do? && a.work.SetPin? && a.work.key == k then
        if a.work.user then saved' == saved && wanted' == a.work.pinned
        else saved' == a.work.pinned && wanted' == wanted
      else if a.Do? && a.work == ForgetFile(k) then !saved' && !wanted'
      else if a.Store? && a.commit.CommitLink? && s.lock.req.pinned && s.lock.req.key == k then
        saved' && wanted' == wanted
      else saved' == saved && wanted' == wanted
  {
    hide Inv, CanAdmit, CanStore, CanDo, Admitted, Stored, Done;
    StepFlows(s, t, a);
    if k in Repins(s, a) {
      assert !a.Admit?;
      if a.Store? { LinkPins(s, t, a.commit); } else { CallPins(s, a.work); }
    } else {
      assert SameFlags(s.files, Next(s, a).files, k);
    }
  }

  lemma CallPins(s: State, a: Work)
    requires CanDo(s, a) && (a.SetPin? || a.ForgetFile?)
    ensures var k, saved, wanted := a.key, Saved(s.files, a.key), Wanted(s.files, a.key);
      var saved', wanted' := Saved(Done(s, a).files, k), Wanted(Done(s, a).files, k);
      if a.SetPin? then
        if a.user then saved' == saved && wanted' == a.pinned else saved' == a.pinned && wanted' == wanted
      else !saved' && !wanted'
  {
    hide Pinned, Forget;
    if a.SetPin? { PinSets(s, a.key, a.pinned, a.user); } else { ForgetTakes(s, a.key); }
  }

  lemma PinSets(s: State, k: FileKey, pinned: bool, user: bool)
    ensures var files := Pinned(s, k, pinned, user).files;
      if user then Saved(files, k) == Saved(s.files, k) && Wanted(files, k) == pinned
      else Saved(files, k) == pinned && Wanted(files, k) == Wanted(s.files, k)
  {
    hide Repinned, Known;
    if user && FileOf(s, k).userPinned == pinned {
      assert Pinned(s, k, pinned, user) == s;
    } else {
      KnownRecords(s, k);
      KnownFields(s, k);
      assert SameRecord(s.files, Known(s, k).files, k);
      SetsFlag(s, k, pinned, user);
    }
  }

  lemma SetsFlag(s: State, k: FileKey, pinned: bool, user: bool)
    requires !(user && FileOf(s, k).userPinned == pinned)
    ensures var f := FileOf(Known(s, k), k);
      Pinned(s, k, pinned, user).files ==
        Known(s, k).files[k := if user then f.(userPinned := pinned) else f.(pinned := pinned)]
  {
    hide Repinned, Known;
  }

  lemma ForgetTakes(s: State, k: FileKey)
    ensures k !in Forget(s, k).files
  {
    hide Detach, DropAll;
  }

  lemma LinkPins(s: State, t: Truth, a: Commit)
    requires Inv(s, t) && CanStore(s, a) && a.CommitLink? && s.lock.req.pinned
    ensures var k, files := s.lock.req.key, Stored(s, a).files;
      Saved(files, k) && Wanted(files, k) == Wanted(s.files, k)
  {
    hide Inv, Installed, Known;
    var k, s1 := s.lock.req.key, Known(s, s.lock.req.key).(lock := Free);
    KnownFlow(s, k);
    KnownFields(s, k);
    KnownKeeps(s, t, k);
    assert SameFlags(s.files, s1.files, k);
    InstalledPins(s1, t, k, s.lock.req.inode, a.data, true, a.now);
  }

  lemma InstalledPins(s: State, t: Truth, k: FileKey, o: nat, data: Bytes, pinned: bool, now: int)
    requires Inv(s, t) && k in s.files
    ensures var s' := Installed(s, k, o, data, pinned, now);
      && k in s'.files && s'.files[k].pinned == (s.files[k].pinned || pinned)
      && s'.files[k].userPinned == s.files[k].userPinned
  {
    hide Inv, Attach, RemoveFileBlocks, Wiped;
    var s1 := Attach(s, k, o, data, now);
    AttachFiles(s, t, k, o, data, now);
    var f := s1.files[k].(pinned := s1.files[k].pinned || pinned, generation := s1.files[k].generation + 1);
    WipedIs(s1, k, f);
    WipedFiles(s1, k, f);
  }

  lemma WipedFiles(s: State, k: FileKey, f: FileState)
    ensures Wiped(s, k, f).files == s.files[k := f.(present := {})]
  {
  }

  // What eviction leaves.

  /** Nothing of the file has changed: its record, its blocks in the index and on disk, its
      sparse file and its complete file. */
  ghost predicate SameOf(s: State, s': State, k: FileKey) {
    && Lookup(s'.files, k) == Lookup(s.files, k)
    && (forall i :: Lookup(s'.blocks, BlockId(k, i)) == Lookup(s.blocks, BlockId(k, i)))
    && (forall i :: Lookup(s'.blockFile, BlockId(k, i)) == Lookup(s.blockFile, BlockId(k, i)))
    && Lookup(s'.parts, k) == Lookup(s.parts, k) && Lookup(s'.partFile, k) == Lookup(s.partFile, k)
    && (k in s.files && s.files[k].whole.Some? ==>
          Lookup(s'.inodes, s.files[k].whole.value) == Lookup(s.inodes, s.files[k].whole.value))
  }

  /** No eviction touches a pinned file. */
  lemma EvictionSpares(s: State, t: Truth, v: Victim, exclude: Option<BlockId>, k: FileKey)
    requires Inv(s, t) && PinsMatch(s) && Guarded(s, k) && Evictable(s, v, exclude)
    ensures SameOf(s, Evict(s, v), k)
  {
    hide Inv, DropBlock, EvictObject, ForgetPart;
    match v {
      case TempVictim(p) =>
      case BlockVictim(id) =>
        assert id.file != k;
        DropsOther(s, id, k);
      case ObjectVictim(o) => FreesOther(s, t, o, k);
      case PartVictim(j) =>
        assert j != k;
        ForgetsOther(s, j, k);
    }
  }

  lemma DropsOther(s: State, id: BlockId, k: FileKey)
    requires id.file != k
    ensures SameOf(s, DropBlock(s, id), k)
  {
  }

  lemma ForgetsOther(s: State, j: FileKey, k: FileKey)
    requires j != k && j in s.parts
    ensures SameOf(s, ForgetPart(s, j), k)
  {
  }

  lemma FreesOther(s: State, t: Truth, o: nat, k: FileKey)
    requires Inv(s, t) && Guarded(s, k) && Evictable(s, ObjectVictim(o), None)
    ensures SameOf(s, EvictObject(s, o), k)
  {
    hide KeysInv, TagsInv, FlushInv, InstallInv, HandInv, LockOk;
    assert k !in s.objects[o].refs;
    assert WholeAt(s, t, k);
    EvictedObject(s, o, k);
  }

  lemma EvictedObject(s: State, o: nat, k: FileKey)
    requires o in s.objects && k in s.files && k !in s.objects[o].refs && s.files[k].whole != Some(o)
    ensures SameOf(s, EvictObject(s, o), k)
  {
    var refs := s.objects[o].refs;
    if refs != {} {
      var s1 := s.(files := Unlinked(s.files, refs), objects := s.objects[o := s.objects[o].(refs := {})]);
      assert SameOf(s, s1, k);
      if s.objects[o].readers == 0 {
        assert Released(s1, o) == s1.(objects := s1.objects - {o}, inodes := s1.inodes - {o});
      }
    }
  }

  /** Forgetting a file touches no other one, not even one that shares its inode. */
  lemma ForgetSparesOthers(s: State, t: Truth, k: FileKey, j: FileKey)
    requires Inv(s, t) && j != k
    ensures SameOf(s, Forget(s, k), j)
  {
    hide Inv, Detach, Emptied, Forget;
    if k in s.files {
      DetachKeeps(s, t, k);
      DetachSpares(s, t, k, j);
      ForgetIs(s, k);
      EmptiedSpares(Detach(s, k), k, j);
    } else {
      ForgetNothing(s, k);
    }
  }

  lemma EmptiedSpares(s: State, k: FileKey, j: FileKey)
    requires j != k
    ensures SameOf(s, Emptied(s, k, s.files - {k}), j)
  {
  }

  lemma DetachSpares(s: State, t: Truth, k: FileKey, j: FileKey)
    requires Inv(s, t) && k in s.files && j != k
    ensures SameOf(s, Detach(s, k), j)
  {
    hide KeysInv, TagsInv, FlushInv, InstallInv, HandInv, LockOk;
    if j in s.files { assert WholeAt(s, t, j); }
    var f := s.files[k];
    if f.whole.Some? {
      var o := f.whole.value;
      assert WholeAt(s, t, k);
      var s1 := s.(files := s.files[k := f.(whole := None)],
                   objects := s.objects[o := s.objects[o].(refs := s.objects[o].refs - {k})]);
      assert SameOf(s, s1, j);
      assert j in s.files && s.files[j].whole == Some(o) ==> j in s1.objects[o].refs;
      if s1.objects[o].refs == {} && s1.objects[o].readers == 0 {
        assert Detach(s, k) == s1.(objects := s1.objects - {o}, inodes := s1.inodes - {o});
      } else {
        assert Detach(s, k) == s1;
      }
    }
  }

  // Runs.

  ghost predicate Evicting(a: Action) {
    a.Admit? && a.admission.Evicts?
  }

  /** No step of the run that evicts changes anything of the file. */
  ghost predicate NeverTaken(s: State, t: Truth, acts: seq<Action>, k: FileKey)
    requires LawfulRun(s, t, acts)
    decreases |acts|
  {
    acts == [] ||
    (&& (Evicting(acts[0]) ==> SameOf(s, Next(s, acts[0]), k))
     && NeverTaken(Next(s, acts[0]), t, acts[1..], k))
  }

  /** The step takes a pin of the file back, or forgets the file. */
  predicate TakesBack(a: Action, k: FileKey) {
    a.Do? && ((a.work.SetPin? && a.work.key == k && !a.work.pinned) || a.work == ForgetFile(k))
  }

  lemma EvictionStep(s: State, t: Truth, a: Action, k: FileKey)
    requires Inv(s, t) && PinsMatch(s) && Guarded(s, k) && Enabled(s, a) && Evicting(a)
    ensures SameOf(s, Next(s, a), k)
  {
    hide Inv, PinsMatch, SameOf, Evict, Evictable;
    EvictionSpares(s, t, a.admission.victim, Excluded(s.lock), k);
  }

  lemma StaysGuarded(s: State, t: Truth, a: Action, k: FileKey)
    requires Inv(s, t) && Enabled(s, a) && Guarded(s, k) && !TakesBack(a, k)
    ensures Guarded(Next(s, a), k)
  {
    hide Inv, Enabled, Next;
    FlagsAfter(s, t, a, k);
  }

  /** While a file is pinned and nobody takes the pin back, whatever is stored, flushed,
      handed over or installed in the meantime: no eviction takes anything of it. */
  lemma {:induction false} PinnedIsSafe(s: State, t: Truth, acts: seq<Action>, k: FileKey)
    requires Inv(s, t) && LawfulRun(s, t, acts) && PinsMatch(s) && Guarded(s, k)
    requires forall i :: 0 <= i < |acts| ==> !TakesBack(acts[i], k)
    ensures NeverTaken(s, t, acts, k) && Guarded(Run(s, t, acts), k)
    decreases |acts|
  {
    hide Inv, PinsMatch, Enabled, Honest, SpoilsNothing, Next, SameOf;
    if acts != [] {
      var a := acts[0];
      StepKeeps(s, t, a);
      StepFlows(s, t, a);
      StaysGuarded(s, t, a, k);
      if Evicting(a) { EvictionStep(s, t, a, k); }
      assert forall i :: 0 <= i < |acts[1..]| ==> acts[1..][i] == acts[i + 1];
      PinnedIsSafe(Next(s, a), t, acts[1..], k);
    }
  }

  /** From an empty cache: whatever happened before the pin, nothing of the file is evicted
      after it until it is taken back. */
  lemma PinIsKept(s: State, t: Truth, before: seq<Action>, k: FileKey, user: bool, acts: seq<Action>)
    requires Fresh(s) && LawfulRun(s, t, before)
    requires LawfulRun(Next(Run(s, t, before), Do(SetPin(k, true, user))), t, acts)
    requires forall i :: 0 <= i < |acts| ==> !TakesBack(acts[i], k)
    ensures NeverTaken(Next(Run(s, t, before), Do(SetPin(k, true, user))), t, acts, k)
  {
    hide Inv, LawfulRun, Run, NeverTaken, Done;
    FreshInv(s, t);
    RunKeeps(s, t, before);
    RunFlows(s, t, before);
    var s1, a := Run(s, t, before), Do(SetPin(k, true, user));
    assert Lawful(s1, t, a);
    StepKeeps(s1, t, a);
    StepFlows(s1, t, a);
    FlagsAfter(s1, t, a, k);
    PinnedIsSafe(Next(s1, a), t, acts, k);
  }
}
