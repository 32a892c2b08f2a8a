/** The caps hold after every step of every run. */
module CacheBudgetRuns {

  import opened Geometry
  import opened Ranges
  import opened Sums
  import opened CacheModel
  import opened CacheInvariant
  import opened CacheEdits
  import opened CacheCharge
  import opened CacheBudget
  import opened CacheBudgetSteps
  import opened CacheKeepsBlocks
  import opened CacheKeepsCalls

  // Steps that may happen under another call's grant.

  /** Growth that did not rise leaves the load no higher. */
  lemma UnderGrant(s: State, s': State)
    requires Lighter(s, s') && s'.cfg == s.cfg && s'.lock == s.lock
    requires s.lock.Granted? ==>
      GrowthBytes(s', s.lock.req) <= GrowthBytes(s, s.lock.req) &&
      GrowthEntries(s', s.lock.req) <= GrowthEntries(s, s.lock.req)
    ensures NoMore(s, s')
  {
    hide Charge, Entries, GrowthBytes, GrowthEntries;
  }

  lemma {:induction false} SumAlike<K, V>(m: map<K, V>, m': map<K, V>, f: V -> nat)
    requires m'.Keys == m.Keys && forall k :: k in m ==> f(m'[k]) == f(m[k])
    ensures Sum(m', f) == Sum(m, f)
    decreases |m|
  {
    if m == map[] {
      assert m' == map[];
    } else {
      var k :| k in m;
      SumRemove(m, f, k);
      SumRemove(m', f, k);
      SizeRemove(m, k);
      SumAlike(m - {k}, m' - {k}, f);
    }
  }

  lemma AlikeSize<K, V>(m: map<K, V>, m': map<K, V>, like: (V, V) -> bool)
    requires AllLike(m, m', like)
    ensures |m'| == |m|
  {
    assert |m'.Keys| == |m.Keys|;
  }

  lemma BlocksWeigh(m: map<BlockId, Block>, m': map<BlockId, Block>)
    requires AllLike(m, m', BlockLike)
    ensures Sum(m', BlockBytes) == Sum(m, BlockBytes)
  {
    forall k | k in m ensures BlockBytes(m'[k]) == BlockBytes(m[k]) { assert BlockLike(m[k], m'[k]); }
    SumAlike(m, m', BlockBytes);
  }

  lemma ObjectsWeigh(m: map<nat, Object>, m': map<nat, Object>)
    requires AllLike(m, m', ObjectLike)
    ensures Sum(m', ObjectBytes) == Sum(m, ObjectBytes)
  {
    forall k | k in m ensures ObjectBytes(m'[k]) == ObjectBytes(m[k]) { assert ObjectLike(m[k], m'[k]); }
    SumAlike(m, m', ObjectBytes);
  }

  lemma PartsWeigh(m: map<FileKey, Part>, m': map<FileKey, Part>)
    requires AllLike(m, m', PartLike)
    ensures Sum(m', PartBytes) == Sum(m, PartBytes)
  {
    forall k | k in m ensures PartBytes(m'[k]) == PartBytes(m[k]) { assert PartLike(m[k], m'[k]); }
    SumAlike(m, m', PartBytes);
  }

  lemma CosmeticCharge(s: State, s': State)
    requires Cosmetic(s, s') && s'.temps == s.temps
    ensures Charge(s') == Charge(s) && Entries(s') == Entries(s)
  {
    hide AllLike, Charge, Entries;
    BlocksWeigh(s.blocks, s'.blocks);
    ObjectsWeigh(s.objects, s'.objects);
    PartsWeigh(s.parts, s'.parts);
    AlikeSize(s.blocks, s'.blocks, BlockLike);
    AlikeSize(s.objects, s'.objects, ObjectLike);
    AlikeSize(s.parts, s'.parts, PartLike);
    SameSums(s, s');
  }

  lemma SameSums(s: State, s': State)
    requires Sum(s'.blocks, BlockBytes) == Sum(s.blocks, BlockBytes) && |s'.blocks| == |s.blocks|
    requires Sum(s'.objects, ObjectBytes) == Sum(s.objects, ObjectBytes) && |s'.objects| == |s.objects|
    requires Sum(s'.parts, PartBytes) == Sum(s.parts, PartBytes) && |s'.parts| == |s.parts|
    requires s'.temps == s.temps && s'.installs == s.installs && s'.flushes == s.flushes
    ensures Charge(s') == Charge(s) && Entries(s') == Entries(s)
  {
  }

  lemma CosmeticSameGrowth(s: State, s': State, r: Request)
    requires Cosmetic(s, s')
    ensures GrowthBytes(s', r) == GrowthBytes(s, r) && GrowthEntries(s', r) == GrowthEntries(s, r)
  {
    hide Covered, PieceCount;
    match r {
      case BlockReq(id, _, _) => assert id in s.blocks ==> BlockLike(s.blocks[id], s'.blocks[id]);
      case RangeReq(id, off, n, _) =>
        assert id in s.blocks ==> BlockLike(s.blocks[id], s'.blocks[id]);
        assert Missing(s'.cfg, s'.blocks, id, off, n) == Missing(s.cfg, s.blocks, id, off, n);
      case PartReq(id, _, _, _, _) => assert id.file in s.parts ==> PartLike(s.parts[id.file], s'.parts[id.file]);
      case _ =>
    }
  }

  lemma CosmeticNoMore(s: State, s': State)
    requires Cosmetic(s, s') && s'.temps == s.temps
    ensures NoMore(s, s')
  {
    hide Charge, Entries, GrowthBytes, GrowthEntries;
    CosmeticCharge(s, s');
    if s.lock.Granted? { CosmeticSameGrowth(s, s', s.lock.req); }
    UnderGrant(s, s');
  }

  /** Recency, pins, leases and the closed flag weigh nothing. */
  lemma BlocksNoMore(s: State, blocks: map<BlockId, Block>)
    requires AllLike(s.blocks, blocks, BlockLike)
    ensures NoMore(s, s.(blocks := blocks))
  {
    hide NoMore;
    Alike(s);
    CosmeticNoMore(s, s.(blocks := blocks));
  }

  lemma RecordNoMore(s: State, s': State)
    requires ChargedSame(s, s') && s'.lock == s.lock
    ensures NoMore(s, s')
  {
    hide ChargedSame, Charge, Entries, GrowthBytes, GrowthEntries;
    SameLedger(s, s', if s.lock.Granted? then s.lock.req else SweepReq);
    ChargedConfig(s, s');
    UnderGrant(s, s');
  }

  lemma ChargedConfig(s: State, s': State)
    requires ChargedSame(s, s')
    ensures s'.cfg == s.cfg
  {
  }

  lemma Onward(s: State, s1: State, s2: State)
    requires NoMore(s, s1) && NoMore(s1, s2)
    ensures NoMore(s, s2)
  {
    hide Load, Slots;
  }

  lemma TouchBlockNoMore(s: State, k: FileKey, idx: nat, now: int)
    ensures NoMore(s, TouchBlock(s, k, idx, now))
  {
    hide NoMore, AllLike, Cosmetic;
    Alike(s);
    var id := BlockId(k, idx);
    if k in s.parts && idx in s.parts[k].bits {
      var p := s.parts[k].(lastAccess := now, hot := true);
      AlikeBut(s.parts, k, p, PartLike);
      assert Cosmetic(s, s.(parts := s.parts[k := p])) by { PartsCosmetic(s, s.parts[k := p]); }
      CosmeticNoMore(s, s.(parts := s.parts[k := p]));
    } else if id in s.blocks {
      var b := s.blocks[id].(lastAccess := now, hot := true);
      AlikeBut(s.blocks, id, b, BlockLike);
      BlocksNoMore(s, s.blocks[id := b]);
    } else {
      NoMoreSelf(s);
    }
  }

  lemma NoMoreSelf(s: State)
    ensures NoMore(s, s)
  {
  }

  lemma PartsCosmetic(s: State, parts: map<FileKey, Part>)
    requires AllLike(s.parts, parts, PartLike)
    ensures Cosmetic(s, s.(parts := parts))
  {
    hide AllLike;
    Alike(s);
  }

  lemma ObjectsNoMore(s: State, o: nat, ob: Object)
    requires o in s.objects && ObjectLike(s.objects[o], ob)
    ensures NoMore(s, s.(objects := s.objects[o := ob]))
  {
    hide NoMore, AllLike, ObjectLike;
    Alike(s);
    AlikeBut(s.objects, o, ob, ObjectLike);
    CosmeticNoMore(s, s.(objects := s.objects[o := ob]));
  }

  lemma LookUpNoMore(s: State, k: FileKey, idx: nat, now: int)
    ensures NoMore(s, TouchWhole(TouchBlock(s, k, idx, now), k, now))
  {
    hide NoMore, TouchBlock;
    var s1 := TouchBlock(s, k, idx, now);
    TouchBlockNoMore(s, k, idx, now);
    if k in s1.files && s1.files[k].whole.Some? && s1.files[k].whole.value in s1.objects {
      var o := s1.files[k].whole.value;
      ObjectsNoMore(s1, o, s1.objects[o].(lastAccess := now, hot := true));
      Onward(s, s1, TouchWhole(s1, k, now));
    }
  }

  lemma PinNoMore(s: State, k: FileKey, pinned: bool, user: bool)
    ensures NoMore(s, Pinned(s, k, pinned, user))
  {
    hide NoMore, Repinned, Known;
    if user && FileOf(s, k).userPinned == pinned {
      NoMoreSelf(s);
    } else {
      var s1 := Known(s, k);
      KnownNoMore(s, k);
      var f := if user then FileOf(s1, k).(userPinned := pinned) else FileOf(s1, k).(pinned := pinned);
      var s2 := SetFile(s1, k, f);
      RecordNoMore(s1, s2);
      RepinnedLike(s1.blocks, k, f.pinned || f.userPinned);
      BlocksNoMore(s2, Repinned(s1.blocks, k, f.pinned || f.userPinned));
      Onward(s, s1, s2);
      Onward(s, s2, Pinned(s, k, pinned, user));
    }
  }

  lemma KnownNoMore(s: State, k: FileKey)
    ensures NoMore(s, Known(s, k))
  {
    hide NoMore;
    assert ChargedSame(s, Known(s, k)) by { KnownCharged(s, k); }
    RecordNoMore(s, Known(s, k));
  }

  // The end of a flush.

  lemma FlushOverGrowth(s: State, u: nat, r: Request)
    requires u in s.flushes && s.flushes[u].detached && FlushInv(s)
    ensures var s' := s.(flushes := s.flushes - {u});
      GrowthBytes(s', r) == GrowthBytes(s, r) && GrowthEntries(s', r) == GrowthEntries(s, r)
  {
    hide Covered, PieceCount;
    assert FlushAt(s, u);
  }

  lemma LostCharge(s: State, t: Truth, u: nat)
    requires Inv(s, t) && u in s.flushes && !s.flushes[u].detached
    ensures var s', id := Edited(s, LostEdit(s, u), false, {u}, 0), s.flushes[u].id;
      id in s.blocks && Charge(s') == Charge(s) - s.blocks[id].size && Entries(s') == Entries(s) - 1
  {
    hide KeysInv, WholeInv, InstallInv, LockOk, Edited, Weight, Piece, FlushInv, TagsInv, Charge, Entries, BlockOk;
    FlushIsReal(s, t, u);
    InvFair(s, t, InBytes());
    InvFair(s, t, InEntries());
    FlushEditWeight(s, LostEdit(s, u), false, u, InBytes());
    FlushEditWeight(s, LostEdit(s, u), false, u, InEntries());
    Ledger(s);
    Ledger(Edited(s, LostEdit(s, u), false, {u}, 0));
  }

  /** A whole block that a granted range put relies on, lost by a failed flush, gives
      back at least what the range will take. */
  lemma LostLoad(s: State, t: Truth, u: nat)
    requires Inv(s, t) && s.lock.Granted? && s.lock.req.RangeReq? && u in s.flushes && !s.flushes[u].detached &&
      s.flushes[u].id == s.lock.req.id
    ensures NoMore(s, Edited(s, LostEdit(s, u), false, {u}, 0))
  {
    hide KeysInv, WholeInv, InstallInv, Edited, Covered, PieceLen, Aligned, Piece, FlushInv, TagsInv, Charge, Entries;
    var r, s' := s.lock.req, Edited(s, LostEdit(s, u), false, {u}, 0);
    FlushIsReal(s, t, u);
    FlushedSize(s, t, r.id);
    LostCharge(s, t, u);
    EditFields(s, LostEdit(s, u), false, {u}, 0);
    var L := BlockLen(s.cfg, r.id.index, r.size);
    NamedBytes(s.cfg.subSize, r.off, r.n, L, Missing(s'.cfg, s'.blocks, r.id, r.off, r.n),
               PieceCount(s.cfg.subSize, L));
    RangeFits(s.cfg.subSize, r.off, r.n, L);
  }

  lemma RangeFits(sub: nat, off: nat, n: nat, L: nat)
    requires sub > 0 && Aligned(sub, off, n, L)
    ensures n <= L
  {
  }

  /** The grant's growth does not rise unless its block is lost. */
  lemma EndFlushGrowth(s: State, t: Truth, u: nat, ok: bool, r: Request)
    requires Inv(s, t) && u in s.flushes
    requires !(r.RangeReq? && Owns(s, u) && s.flushes[u].id == r.id && (!ok || s.flushes[u].sparse))
    ensures var s' := FlushFinish(s, u, ok);
      GrowthBytes(s', r) <= GrowthBytes(s, r) && GrowthEntries(s', r) <= GrowthEntries(s, r)
  {
    hide KeysInv, WholeInv, InstallInv, HandInv, LockOk, Edited, GrowthBytes, GrowthEntries, FlushInv, TagsInv,
         FlushFinish;
    OwnsExactly(s, u);
    if s.flushes[u].detached {
      StaleIs(s, u, ok);
      FlushOverGrowth(s, u, r);
    } else {
      FlushIsReal(s, t, u);
      FlushIsEdit(s, u, ok);
      if ok && !s.flushes[u].sparse {
        EditGrowth(s, FlushedEdit(s, u), false, u, r);
      } else {
        EditGrowth(s, LostEdit(s, u), false, u, r);
      }
    }
  }

  lemma EditGrowth(s: State, e: Edit, detach: bool, u: nat, r: Request)
    requires TagsInv(s) && e.id in s.blocks && s.blocks[e.id].tag == u && u in s.flushes && s.blocks[e.id].bits.None?
    requires e.block.Some? ==>
      e.block.value.tag == u && e.block.value.bits.None? && e.block.value.size == s.blocks[e.id].size
    requires e.id.file in s.parts ==> e.part.Some? && s.parts[e.id.file].bits <= e.part.value.bits
    requires r.RangeReq? && r.id == e.id ==> e.block.Some?
    ensures var s' := Edited(s, e, detach, {u}, 0);
      GrowthBytes(s', r) <= GrowthBytes(s, r) && GrowthEntries(s', r) <= GrowthEntries(s, r)
  {
    hide Covered, PieceCount, PieceLen, TagsInv;
    var s' := Edited(s, e, detach, {u}, 0);
    if Waiting(s, r) {
      FlushGrowth(s, e, detach, u, r);
    } else if r.RangeReq? {
      assert r.id in s'.blocks && s'.blocks[r.id].bits.None?;
    } else {
      assert s'.objects == s.objects;
    }
  }

  lemma EndFlushNoMore(s: State, t: Truth, u: nat, ok: bool)
    requires Inv(s, t) && u in s.flushes
    ensures NoMore(s, FlushFinish(s, u, ok))
  {
    hide Inv, NoMore, FlushFinish, Lighter, GrowthBytes, GrowthEntries;
    InvParts(s, t);
    OwnsExactly(s, u);
    if s.lock.Granted? && s.lock.req.RangeReq? && Owns(s, u) && s.flushes[u].id == s.lock.req.id &&
      (!ok || s.flushes[u].sparse)
    {
      FlushIsReal(s, t, u);
      FlushIsEdit(s, u, ok);
      LostLoad(s, t, u);
    } else {
      EndFlushLighter(s, t, u, ok);
      if s.lock.Granted? { EndFlushGrowth(s, t, u, ok, s.lock.req); }
      UnderGrant(s, FlushFinish(s, u, ok));
    }
  }
}
