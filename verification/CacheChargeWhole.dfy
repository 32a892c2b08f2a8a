/** What publishing, replacing, forgetting and releasing complete files does to the
    charge. */
module CacheChargeWhole {

  import opened Common
  import opened Sums
  import opened CacheModel
  import opened CacheInvariant
  import opened CacheCharge
  import opened CacheKeepsWhole

  /** A complete file of n bytes. */
  function NewObject(n: nat, now: int): Object {
    Object(n, {}, 0, now, false)
  }

  lemma SameSizeWeight(objects: Objects, o: nat, ob: Object, w: Weights)
    requires o in objects && ob.size == objects[o].size && Ours(w)
    ensures Sum(objects[o := ob], w.whole) == Sum(objects, w.whole)
  {
    SumUpdate(objects, w.whole, o, ob);
  }

  /** Only objects changed weight. */
  lemma WeightBut(s: State, s': State, w: Weights)
    requires s'.blocks == s.blocks && s'.parts == s.parts && s'.temps == s.temps && s'.installs == s.installs &&
      s'.flushes == s.flushes
    ensures Weight(s', w) - Sum(s'.objects, w.whole) == Weight(s, w) - Sum(s.objects, w.whole)
  {
  }

  lemma ReleasedWeight(s: State, o: nat, w: Weights)
    ensures Weight(Released(s, o), w) ==
      Weight(s, w) - (if o in s.objects && !InUse(s.objects, o) then w.whole(s.objects[o]) else 0)
  {
    if o in s.objects && !InUse(s.objects, o) {
      SumRemove(s.objects, w.whole, o);
      WeightBut(s, Released(s, o), w);
    }
  }

  lemma DetachLess(s: State, t: Truth, k: FileKey, w: Weights)
    requires Inv(s, t) && k in s.files && Ours(w)
    ensures Weight(Detach(s, k), w) <= Weight(s, w)
  {
    hide KeysInv, TagsInv, WholeInv, FlushInv, InstallInv, LockOk, Weight, Released;
    WholeOf(s, t, k);
    var f := s.files[k];
    if f.whole.Some? {
      var o := f.whole.value;
      var ob := s.objects[o].(refs := s.objects[o].refs - {k});
      var s1 := s.(files := s.files[k := f.(whole := None)], objects := s.objects[o := ob]);
      SameSizeWeight(s.objects, o, ob, w);
      WeightBut(s, s1, w);
      ReleasedWeight(s1, o, w);
    }
  }

  lemma CloseWeight(s: State, o: nat, w: Weights)
    requires o in s.objects && s.objects[o].readers > 0 && Ours(w)
    ensures var gone := s.objects[o].refs == {} && s.objects[o].readers == 1;
      Weight(CloseWhole(s, o), w) == Weight(s, w) - (if gone then w.whole(s.objects[o]) else 0)
  {
    hide Weight, Released;
    var ob := s.objects[o].(readers := s.objects[o].readers - 1);
    var s1 := s.(objects := s.objects[o := ob]);
    SameSizeWeight(s.objects, o, ob, w);
    WeightBut(s, s1, w);
    ReleasedWeight(s1, o, w);
  }

  lemma EvictObjectLess(s: State, o: nat, w: Weights)
    requires o in s.objects && Ours(w)
    ensures Weight(EvictObject(s, o), w) <= Weight(s, w)
  {
    hide Weight, Released, Unlinked;
    var s1 := s.(files := Unlinked(s.files, s.objects[o].refs), objects := s.objects[o := s.objects[o].(refs := {})]);
    SameSizeWeight(s.objects, o, s.objects[o].(refs := {}), w);
    WeightBut(s, s1, w);
    ReleasedWeight(s1, o, w);
  }

  lemma LinkingWeight(s: State, k: FileKey, o: nat, data: Bytes, now: int, w: Weights)
    requires k in s.files && Ours(w)
    ensures Weight(Linking(s, k, o, data, now), w) ==
      Weight(s, w) + (if o in s.objects then 0 else w.whole(NewObject(|data|, now)))
  {
    var s' := Linking(s, k, o, data, now);
    var ob := if o in s.objects then s.objects[o] else NewObject(|data|, now);
    SumUpdate(s.objects, w.whole, o, ob.(refs := ob.refs + {k}, lastAccess := now));
    WeightBut(s, s', w);
  }

  lemma AttachWeight(s: State, t: Truth, k: FileKey, o: nat, data: Bytes, now: int, w: Weights)
    requires Inv(s, t) && s.lock.Free? && k in s.files && Ours(w)
    ensures Weight(Attach(s, k, o, data, now), w) <= Weight(s, w) +
      (if o in s.objects then 0 else w.whole(NewObject(|data|, now)))
  {
    hide Inv, Weight, Attach, Linking, Detach, Ours;
    ClearedKeeps(s, t, k, o);
    DetachLess(s, t, k, w);
    AttachIs(s, k, o, data, now);
    var s1 := Cleared(s, k, o);
    var s2 := s1.(files := s1.files[k := s1.files[k].(size := |data|)], lock := Free);
    WeightBut(s1, s2, w);
    LinkingWeight(s2, k, o, data, now, w);
    if o in s.objects { ClearedObjects(s, t, k, o); }
  }

  /** Detaching the old content does not release the new one. */
  lemma ClearedObjects(s: State, t: Truth, k: FileKey, o: nat)
    requires Inv(s, t) && k in s.files && o in s.objects
    ensures o in Cleared(s, k, o).objects
  {
    hide KeysInv, TagsInv, FlushInv, InstallInv, LockOk;
    assert WholeAt(s, t, k);
  }

  lemma EmptiedWeight(s: State, t: Truth, k: FileKey, files: Files, w: Weights)
    requires Inv(s, t) && Ours(w)
    ensures Weight(Emptied(s, k, files), w) <= Weight(s, w) - OptWeight(Lookup(s.parts, k), w.part)
  {
    hide KeysInv, WholeInv, InstallInv, LockOk, FlushInv, TagsInv, DropAll, Fair, Ours;
    var ids := BlocksOf(s, k);
    InvFair(s, t, w);
    DropWeight(s, ids, w);
    DropFields(s, ids);
    SumPut(s.parts, k, None, w.part);
  }

  lemma DropFields(s: State, ids: set<BlockId>)
    ensures var s' := DropAll(s, ids);
      s'.objects == s.objects && s'.parts == s.parts && s'.temps == s.temps && s'.installs == s.installs
  {
  }

  lemma InstalledWeight(s: State, t: Truth, k: FileKey, o: nat, data: Bytes, pinned: bool, now: int, w: Weights)
    requires Inv(s, t) && s.lock.Free? && k in s.files && data == t(k) &&
      (o in s.objects ==> o in s.inodes && s.inodes[o] == t(k)) && Ours(w)
    ensures Weight(Installed(s, k, o, data, pinned, now), w) <=
      Weight(s, w) + (if o in s.objects then 0 else w.whole(NewObject(|data|, now))) -
        OptWeight(Lookup(s.parts, k), w.part)
  {
    hide Inv, Attach, RemoveFileBlocks, Emptied, Weight, Ours;
    var s1 := Attach(s, k, o, data, now);
    AttachKeeps(s, t, k, o, data, now);
    AttachWeight(s, t, k, o, data, now, w);
    AttachParts(s, k, o, data, now);
    var f := FileOf(s1, k).(pinned := FileOf(s1, k).pinned || pinned, generation := FileOf(s1, k).generation + 1);
    WipedIs(s1, k, f);
    EmptiedWeight(s1, t, k, s1.files[k := f.(present := {})], w);
  }

  lemma AttachParts(s: State, k: FileKey, o: nat, data: Bytes, now: int)
    ensures Attach(s, k, o, data, now).parts == s.parts
  {
  }

  lemma ForgetWeight(s: State, t: Truth, k: FileKey, w: Weights)
    requires Inv(s, t) && Ours(w)
    ensures Weight(Forget(s, k), w) <= Weight(s, w)
  {
    hide Inv, Detach, Emptied, Weight, Ours;
    if k in s.files {
      DetachKeeps(s, t, k);
      DetachLess(s, t, k, w);
      ForgetIs(s, k);
      EmptiedWeight(Detach(s, k), t, k, Detach(s, k).files - {k}, w);
    }
  }

  lemma EndInstallWeight(s: State, u: nat, w: Weights)
    requires u in s.installs
    ensures Weight(EndInstall(s, u), w) == Weight(s, w) - w.install(s.installs[u])
  {
    hide EndInstall;
    EndInstallIndex(s, u);
    EndInstallTemps(s, u);
    SumRemove(s.installs, w.install, u);
  }

  lemma EndInstallTemps(s: State, u: nat)
    requires u in s.installs
    ensures EndInstall(s, u).temps == s.temps
  {
  }

  lemma EvictObjectConfig(s: State, o: nat)
    requires o in s.objects
    ensures EvictObject(s, o).cfg == s.cfg && EvictObject(s, o).lock == s.lock
  {
  }
}
