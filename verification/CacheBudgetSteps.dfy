/** No step adds to the charge beyond what the admission lock has granted. */
module CacheBudgetSteps {

  import opened Common
  import opened Bitmap
  import opened Geometry
  import opened Sums
  import opened CacheModel
  import opened CacheInvariant
  import opened CacheSteps
  import opened CacheEdits
  import opened CacheCharge
  import opened CacheChargeWhole
  import opened CacheBudget
  import opened CacheKeepsBlocks
  import opened CacheKeepsParts
  import opened CacheKeepsWhole

  function Positive(n: int): nat { if n > 0 then n else 0 }

  /** What is charged, and what the granted request will still add. */
  ghost function Load(s: State): nat {
    Charge(s) + if s.lock.Granted? then Positive(GrowthBytes(s, s.lock.req)) else 0
  }

  ghost function Slots(s: State): nat {
    Entries(s) + if s.lock.Granted? then Positive(GrowthEntries(s, s.lock.req)) else 0
  }

  ghost predicate NoMore(s: State, s': State) {
    s'.cfg == s.cfg && Load(s') <= Load(s) && Slots(s') <= Slots(s)
  }

  // Steps that hold no grant, before or after.

  ghost predicate Lighter(s: State, s': State) {
    Charge(s') <= Charge(s) && Entries(s') <= Entries(s)
  }

  lemma LighterByWeight(s: State, s': State)
    requires Weight(s', InBytes()) <= Weight(s, InBytes()) && Weight(s', InEntries()) <= Weight(s, InEntries())
    ensures Lighter(s, s')
  {
    Ledger(s);
    Ledger(s');
  }

  lemma Ungranted(s: State, s': State)
    requires Lighter(s, s') && !s.lock.Granted? && !s'.lock.Granted? && s'.cfg == s.cfg
    ensures NoMore(s, s')
  {
  }

  lemma EditLighter(s: State, t: Truth, e: Edit, detach: bool)
    requires Inv(s, t) && (e.block.Some? ==> e.id in s.blocks && e.block.value.size == s.blocks[e.id].size)
    requires (e.block.None? || !detach) && (e.part.None? || e.part == Lookup(s.parts, e.id.file))
    ensures var s' := Edited(s, e, detach, {}, 0); Lighter(s, s') && s'.cfg == s.cfg && s'.lock == s.lock
  {
    hide Inv, Edited, Charge, Entries, PartBytes, FlushInv, TagsInv;
    var s' := Edited(s, e, detach, {}, 0);
    InvFair(s, t, InBytes());
    InvFair(s, t, InEntries());
    assert FlushInv(s) && TagsInv(s) by { InvParts(s, t); }
    DetachWeight(s, e.id, InBytes());
    DetachWeight(s, e.id, InEntries());
    WeighEdit(s, t, e, detach, 0);
    SameLedger(s', s'.(lock := Free), SweepReq);
    EditFields(s, e, detach, {}, 0);
  }

  lemma InvParts(s: State, t: Truth)
    requires Inv(s, t)
    ensures FlushInv(s) && TagsInv(s)
  {
  }

  lemma EvictionLighter(s: State, t: Truth, v: Victim)
    requires Inv(s, t) && Evictable(s, v, None)
    ensures Lighter(s, Evict(s, v)) && Evict(s, v).cfg == s.cfg && Evict(s, v).lock == s.lock
  {
    hide Inv, Charge, Entries, DropBlock, EvictObject, ForgetPart, Edited, Lighter, Weight;
    match v {
      case TempVictim(p) =>
        SumRemove(s.temps, TempBytes, p);
        SizeRemove(s.temps, p);
        TempLighter(s, p);
      case BlockVictim(id) =>
        assert id.file in s.files by { InvKnown(s, t, id); }
        DropBlockIsEdit(s, id);
        EditLighter(s, t, EvictEdit(s, id), true);
      case ObjectVictim(o) =>
        EvictObjectLess(s, o, InBytes());
        EvictObjectLess(s, o, InEntries());
        LighterByWeight(s, EvictObject(s, o));
        EvictObjectConfig(s, o);
      case PartVictim(k) =>
        assert k in s.files by { InvPart(s, t, k); }
        ForgetPartIsEdit(s, k);
        EditLighter(s, t, ForgetEdit(s, k), false);
    }
  }

  lemma TempLighter(s: State, p: string)
    requires p in s.temps
    ensures Lighter(s, s.(temps := s.temps - {p}))
  {
    SumRemove(s.temps, TempBytes, p);
    SizeRemove(s.temps, p);
  }

  lemma InvKnown(s: State, t: Truth, id: BlockId)
    requires Inv(s, t) && id in s.blocks
    ensures SizeKnown(s, t, id.file)
  {
    hide BlockOk, PartOk;
    assert KeyOk(s, t, id.file) && BlockAt(s, t, id);
  }

  lemma InvPart(s: State, t: Truth, k: FileKey)
    requires Inv(s, t) && k in s.parts
    ensures SizeKnown(s, t, k)
  {
    hide BlockOk, PartOk;
    assert KeyOk(s, t, k) && PartAt(s, t, k);
  }

  // Write-behind with the lock free.

  lemma FlushSubsLighter(s: State, t: Truth, id: BlockId, ok: bool)
    requires Inv(s, t) && id in s.blocks && s.blocks[id].bits.Some?
    ensures var s' := FlushSubs(s, id, ok); Lighter(s, s') && s'.cfg == s.cfg && s'.lock == s.lock
  {
    hide Inv, Charge, Entries, Edited, Lighter, FlushSubs, Overlay, BaseFile;
    if s.blocks[id].subs == map[] {
      NothingToFlush(s, id, ok);
      LighterSelf(s);
    } else {
      InvKnown(s, t, id);
      FlushSubsIsEdit(s, id);
      if ok {
        EditLighter(s, t, SubsEdit(s, id), false);
      } else {
        EditLighter(s, t, Kept(s, id).(block := None, onDisk := None), true);
      }
    }
  }

  lemma LighterSelf(s: State)
    ensures Lighter(s, s)
  {
  }

  /** A block moved into the sparse file weighs no more there. */
  lemma FillLighter(s: State, t: Truth, id: BlockId, data: Bytes, size: nat, holds: set<nat>, unlink: bool, now: int)
    requires Inv(s, t) && id in s.blocks && Slice(s.cfg, t, id, data, size) && s.blocks[id].size == |data| &&
      !Flushing(s, id)
    ensures var s' := Edited(s, FillEdit(s, id, data, size, holds, true, unlink, now), true, {}, 1);
      Lighter(s, s') && s'.cfg == s.cfg && s'.lock == s.lock
  {
    hide KeyOk, TagsInv, WholeInv, FlushInv, InstallInv, LockOk, Edited, Charge, Entries, PartBytes, WithBlock, Slice;
    var e := FillEdit(s, id, data, size, holds, true, unlink, now);
    var s' := Edited(s, e, true, {}, 1);
    FilledBytes(s, t, id, data, size, now);
    WeighEdit(s, t, e, true, 1);
    SameLedger(s', s'.(lock := Free), SweepReq);
    EditFields(s, e, true, {}, 1);
  }

  lemma AdoptLighter(s: State, t: Truth, id: BlockId, now: int)
    requires Inv(s, t) && id in s.blocks && s.blocks[id].bits.None? && s.blocks[id].mem.None? && id in s.blockFile
    ensures var s' := Adopt(s, id, now); Lighter(s, s') && s'.cfg == s.cfg && s'.lock == s.lock
  {
    hide WholeInv, InstallInv, LockOk, Edited, Piece, PartOk, Adopt, FillEdit, Covered, Lighter;
    assert KeyOk(s, t, id.file) && BlockAt(s, t, id);
    assert Flushing(s, id) ==> FlushAt(s, s.blocks[id].tag);
    AdoptIsEdit(s, id, now);
    FillLighter(s, t, id, s.blockFile[id], FileOf(s, id.file).size, FileOf(s, id.file).holds, true, now);
  }

  // Complete files published, forgotten or abandoned with the lock free.

  /** Publishing the sparse file exchanges its charge for the complete file's. */
  lemma PublishLighter(s: State, t: Truth, k: FileKey, o: nat, now: int)
    requires Inv(s, t) && CanDo(s, Publish(k, o, now)) && s.partFile[k] == t(k)
    ensures Lighter(s, PublishPart(s, k, o, now))
  {
    hide Inv, Installed, Weight, PieceCount, Lighter;
    InstalledWeight(s, t, k, o, s.partFile[k], false, now, InBytes());
    InstalledWeight(s, t, k, o, s.partFile[k], false, now, InEntries());
    FullPartBytes(s, t, k);
    LighterByWeight(s, PublishPart(s, k, o, now));
  }

  lemma FullPartBytes(s: State, t: Truth, k: FileKey)
    requires Inv(s, t) && k in s.parts && |s.parts[k].bits| == PieceCount(s.cfg.blockSize, s.parts[k].size)
    ensures PartBytes(s.parts[k]) == s.parts[k].size == |t(k)|
  {
    hide TagsInv, WholeInv, FlushInv, InstallInv, LockOk, BlockOk, Piece;
    assert KeyOk(s, t, k) && PartAt(s, t, k);
    FullMeansAll(s.parts[k].bits, PieceCount(s.cfg.blockSize, s.parts[k].size));
    AllPiecesTile(s.cfg.blockSize, s.parts[k].size);
  }

  /** PutWhole's reservation becomes the file's charge. */
  lemma PutWholeLighter(s: State, t: Truth, u: nat, o: nat, data: Bytes, now: int)
    requires Inv(s, t) && s.lock.Free? && u in s.installs && Current(s, s.installs[u]) && o !in s.objects
    requires data == t(s.installs[u].key) && |data| == s.installs[u].size
    ensures Lighter(s, PutWholeFinish(s, u, o, data, now))
  {
    hide Inv, Installed, EndInstall, Weight, Lighter;
    var s1, k := EndInstall(s, u), s.installs[u].key;
    EndInstallKeeps(s, t, u);
    EndInstallIs(s, u);
    EndInstallWeight(s, u, InBytes());
    EndInstallWeight(s, u, InEntries());
    InstalledWeight(s1, t, k, o, data, false, now, InBytes());
    InstalledWeight(s1, t, k, o, data, false, now, InEntries());
    LighterByWeight(s, PutWholeFinish(s, u, o, data, now));
  }

  lemma HydrateLighter(s: State, t: Truth, u: nat, o: nat, now: int)
    requires Inv(s, t) && s.lock.Free? && u in s.installs && s.installs[u].hydrate && Current(s, s.installs[u]) &&
      o !in s.objects
    requires s.installs[u].next == PieceCount(s.cfg.blockSize, s.installs[u].size)
    ensures Lighter(s, HydrateFinish(s, u, o, now))
  {
    hide Inv, Attach, RemoveFileBlocks, EndInstall, Weight, Lighter, PieceCount, Emptied;
    var i, s1 := s.installs[u], EndInstall(s, u);
    FinishHydrateReal(s, t, u);
    InstallSize(s, t, u);
    EndInstallKeeps(s, t, u);
    EndInstallIs(s, u);
    AttachKeeps(s1, t, i.key, o, i.temp, now);
    AttachFields(s1, t, i.key, o, i.temp, now);
    var s2 := Attach(s1, i.key, o, i.temp, now);
    assert SetFile(s2, i.key, s2.files[i.key]) == s2;
    WipedIs(s2, i.key, s2.files[i.key]);
    HydrateWeight(s, t, u, s2, InBytes(), o, now);
    HydrateWeight(s, t, u, s2, InEntries(), o, now);
    LighterByWeight(s, HydrateFinish(s, u, o, now));
  }

  lemma HydrateWeight(s: State, t: Truth, u: nat, s2: State, w: Weights, o: nat, now: int)
    requires u in s.installs && Ours(w) && Inv(EndInstall(s, u), t) && Inv(s2, t) &&
      s.installs[u].key in EndInstall(s, u).files
    requires EndInstall(s, u).lock.Free? &&
      s2 == Attach(EndInstall(s, u), s.installs[u].key, o, s.installs[u].temp, now)
    requires s.installs[u].key in s2.files && |s.installs[u].temp| == s.installs[u].size
    ensures Weight(Wiped(s2, s.installs[u].key, s2.files[s.installs[u].key]), w) <= Weight(s, w)
  {
    hide Inv, Attach, EndInstall, Weight, Emptied;
    var i := s.installs[u];
    EndInstallWeight(s, u, w);
    AttachWeight(EndInstall(s, u), t, i.key, o, i.temp, now, w);
    EmptiedWeight(s2, t, i.key, s2.files[i.key := s2.files[i.key].(present := {})], w);
  }

  lemma InstallSize(s: State, t: Truth, u: nat)
    requires Inv(s, t) && u in s.installs
    ensures s.installs[u].size == |t(s.installs[u].key)|
  {
    hide KeysInv, TagsInv, WholeInv, FlushInv, LockOk, SourceOk;
    assert InstallOk(s, t, u, s.installs[u]);
  }

  // The end of a flush, perhaps under another call's grant.

  lemma FlushEditLighter(s: State, t: Truth, e: Edit, detach: bool, u: nat)
    requires Inv(s, t) && u in s.flushes && !s.flushes[u].detached && e.id in s.blocks && s.blocks[e.id].tag == u
    requires e.block.Some? ==> e.block.value.size == s.blocks[e.id].size
    requires e.part == Lookup(s.parts, e.id.file)
    ensures var s' := Edited(s, e, detach, {u}, 0); Lighter(s, s') && s'.cfg == s.cfg && s'.lock == s.lock
  {
    hide Inv, Edited, Weight, PartBytes, FlushInv, TagsInv, Lighter;
    var s' := Edited(s, e, detach, {u}, 0);
    InvParts(s, t);
    InvFair(s, t, InBytes());
    InvFair(s, t, InEntries());
    FlushEditWeight(s, e, detach, u, InBytes());
    FlushEditWeight(s, e, detach, u, InEntries());
    LighterByWeight(s, s');
    EditFields(s, e, detach, {u}, 0);
  }

  lemma EndFlushLighter(s: State, t: Truth, u: nat, ok: bool)
    requires Inv(s, t) && u in s.flushes
    ensures var s' := FlushFinish(s, u, ok); Lighter(s, s') && s'.cfg == s.cfg && s'.lock == s.lock
  {
    hide Inv, Edited, Weight, Lighter, PartBytes, FlushFinish;
    InvParts(s, t);
    OwnsExactly(s, u);
    if s.flushes[u].detached {
      StaleIs(s, u, ok);
      DetachedOver(s, u, InBytes());
      DetachedOver(s, u, InEntries());
      LighterByWeight(s, s.(flushes := s.flushes - {u}));
    } else {
      FlushIsReal(s, t, u);
      FlushIsEdit(s, u, ok);
      if ok && !s.flushes[u].sparse {
        FlushEditLighter(s, t, FlushedEdit(s, u), false, u);
      } else {
        FlushEditLighter(s, t, LostEdit(s, u), false, u);
      }
    }
  }
}
