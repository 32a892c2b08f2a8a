/** The cache's index as the code keeps it: maps updated in place beside running totals.
    Every operation is proved to take the step of the state machine and to leave each
    total the exact sum it stands for. */
module CacheIndex {

  import opened Common
  import opened Bitmap
  import opened Geometry
  import opened Sums
  import opened CacheModel
  import opened CacheInvariant
  import opened CacheCharge
  import opened CacheChargeWhole
  import opened CacheSteps
  import opened CacheVictims

  /** Flushes and entries match by their tags. */
  ghost predicate Tidy(s: State) {
    FlushInv(s) && TagsInv(s)
  }

  lemma TidyDrop(s: State, id: BlockId)
    requires Tidy(s)
    ensures Tidy(DropAll(s, {id}))
  {
    var s' := DropAll(s, {id});
    forall u | u in s'.flushes ensures FlushAt(s', u) { assert FlushAt(s, u); }
  }

  /** The running totals. */
  datatype Totals = Totals(bytes: int, whole: int, part: int, orphan: int, reserved: int, reservedEntries: int,
                           detached: int, detachedEntries: int, pending: int, openPartials: int)

  /** The sums they stand for. */
  ghost function Exact(s: State): Totals {
    Totals(Sum(s.blocks, BlockBytes), Sum(s.objects, ObjectBytes), Sum(s.parts, PartBytes), Sum(s.temps, TempBytes),
           Sum(s.installs, InstallBytes), |s.installs|, Sum(s.flushes, DetachedBytes), Sum(s.flushes, DetachedOne),
           Sum(s.blocks, MemoryBytes), Sum(s.blocks, OpenOne))
  }

  lemma DropFlushTotals(s: State, id: BlockId)
    requires Tidy(s) && id in s.blocks
    ensures var m, f := s.blocks[id], DropAll(s, {id}).flushes;
      && (m.tag in s.flushes ==> m.mem.Some?)
      && f == (if m.tag in s.flushes then s.flushes[m.tag := s.flushes[m.tag].(detached := true)] else s.flushes)
      && Sum(f, DetachedBytes) == Sum(s.flushes, DetachedBytes) + (if m.tag in s.flushes then |m.mem.value| else 0)
      && Sum(f, DetachedOne) == Sum(s.flushes, DetachedOne) + (if m.tag in s.flushes then 1 else 0)
  {
    hide DropAll;
    var m := s.blocks[id];
    DetachIs(s, id);
    if m.tag in s.flushes {
      assert FlushAt(s, m.tag);
      SumUpdate(s.flushes, DetachedBytes, m.tag, s.flushes[m.tag].(detached := true));
      SumUpdate(s.flushes, DetachedOne, m.tag, s.flushes[m.tag].(detached := true));
    }
  }

  /** What dropping a block does to every total. */
  lemma DropTotals(s: State, id: BlockId)
    requires Tidy(s) && id in s.blocks
    ensures var m, s', x := s.blocks[id], DropAll(s, {id}), Exact(s);
      && (m.tag in s.flushes ==> m.mem.Some?)
      && s'.flushes ==
         (if m.tag in s.flushes then s.flushes[m.tag := s.flushes[m.tag].(detached := true)] else s.flushes)
      && Exact(s') == x.(bytes := x.bytes - m.size, pending := x.pending - MemoryBytes(m),
                         openPartials := x.openPartials - OpenOne(m),
                         detached := x.detached + (if m.tag in s.flushes then |m.mem.value| else 0),
                         detachedEntries := x.detachedEntries + (if m.tag in s.flushes then 1 else 0))
  {
    hide DropAll, MemoryBytes, Tidy;
    DropFlushTotals(s, id);
    DropKeys(s, id);
    SumRemove(s.blocks, BlockBytes, id);
    SumRemove(s.blocks, MemoryBytes, id);
    SumRemove(s.blocks, OpenOne, id);
  }

  lemma DropKeys(s: State, id: BlockId)
    ensures var s' := DropAll(s, {id}); s' == s.(blocks := s.blocks - {id}, flushes := s'.flushes)
  {
  }

  /** The write-behind total without a block's bytes. */
  method WithoutMemory(m: Block, pending: int) returns (left: int)
    ensures left == pending - MemoryBytes(m)
  {
    left := if m.mem.Some? then pending - |m.mem.value| else pending;
    var rest := m.subs;
    while rest != map[]
      invariant left == pending - MemoryBytes(m) + Sum(rest, Length)
      decreases |rest|
    {
      var i :| i in rest;
      SubsSum(rest, i);
      SizeRemove(rest, i);
      left := left - |rest[i]|;
      rest := rest - {i};
    }
  }

  /** The presence marks that are left when a sparse file's blocks go. */
  method WithoutBits(present: set<nat>, bits: set<nat>, total: nat) returns (left: set<nat>)
    requires bits <= Range(total)
    ensures left == present - bits
  {
    left := present;
    for i := 0 to total
      invariant left == present - (bits * Range(i))
    {
      if i in bits { left := left - {i}; }
    }
    assert bits * Range(total) == bits;
  }

  lemma SubsSum(subs: map<nat, Bytes>, i: nat)
    requires i in subs
    ensures Sum(subs, Length) == |subs[i]| + Sum(subs - {i}, Length)
  {
    SumRemove(subs, Length, i);
  }

  /** What the clock and the disk decide about one admission: whether the pass for expired
      entries is due and where its cutoff is, whether the free space is looked at, and the
      headroom and the journal's reservations there. */
  datatype Upkeep = Upkeep(cutoff: Option<int>, checkFree: bool, minFree: nat, journal: nat)

  class Cache {
    var st: State
    var totals: Totals

    ghost predicate Valid()
      reads this
    {
      totals == Exact(st) && Tidy(st)
    }

    constructor (cfg: Config)
      ensures Valid() &&
        st == State(cfg, map[], map[], map[], map[], map[], map[], map[], map[], Free, false, 0, map[], map[], map[])
    {
      st := State(cfg, map[], map[], map[], map[], map[], map[], map[], map[], Free, false, 0, map[], map[], map[]);
      totals := Totals(0, 0, 0, 0, 0, 0, 0, 0, 0, 0);
    }

    /** The totals the caps are compared with are the machine's charge. */
    lemma TotalsAreCharge()
      requires Valid()
      ensures totals.bytes + totals.whole + totals.part + totals.orphan + totals.reserved + totals.detached ==
        Charge(st)
      ensures |st.blocks| + |st.objects| + |st.parts| + |st.temps| + totals.reservedEntries + totals.detachedEntries ==
        Entries(st)
    {
    }

    /** dropBlockLocked, with the caller's `bytes -= size`: a block out of the index. Its
        flush, if one is in flight, keeps the charge until its writer ends. */
    method DropBlock(id: BlockId)
      requires Valid() && id in st.blocks
      modifies this
      ensures Valid() && st == DropAll(old(st), {id})
    {
      hide DropAll, Tidy, Exact, MemoryBytes;
      var m, f, t := st.blocks[id], st.flushes, totals;
      ghost var s := st;
      DropTotals(s, id);
      DropKeys(s, id);
      TidyDrop(s, id);
      if m.open { t := t.(openPartials := t.openPartials - 1); }
      if m.mem.Some? && m.tag in f {
        f := f[m.tag := f[m.tag].(detached := true)];
        t := t.(detached := t.detached + |m.mem.value|, detachedEntries := t.detachedEntries + 1);
      }
      var left := WithoutMemory(m, t.pending);
      t := t.(pending := left, bytes := t.bytes - m.size);
      assert t == Exact(DropAll(s, {id}));
      assert s.(blocks := s.blocks - {id}, flushes := f) == DropAll(s, {id});
      st, totals := st.(blocks := st.blocks - {id}, flushes := f), t;
    }

    /** A victim block goes with its presence mark and its file. */
    method EvictBlock(id: BlockId)
      requires Valid() && id in st.blocks
      modifies this
      ensures Valid() && st == CacheModel.DropBlock(old(st), id)
    {
      hide Tidy, Exact, DropAll, Unmark;
      ghost var s := st;
      DropKeys(s, id);
      DropBlock(id);
      SameTotals(st, st.(files := Unmark(st.files, id.file, {id.index}), blockFile := st.blockFile - {id}));
      st := st.(files := Unmark(st.files, id.file, {id.index}), blockFile := st.blockFile - {id});
    }

    /** forgetPartLocked with remove: a sparse file goes, with the blocks it held. */
    method DropPart(k: FileKey)
      requires Valid() && k in st.parts && st.parts[k].unit > 0 &&
        st.parts[k].bits <= Range(PieceCount(st.parts[k].unit, st.parts[k].size))
      modifies this
      ensures Valid() && st == ForgetPart(old(st), k)
    {
      hide Tidy, Exact, PieceCount, PartBytes;
      var p, files := st.parts[k], st.files;
      if k in files {
        var present := WithoutBits(files[k].present, p.bits, PieceCount(p.unit, p.size));
        files := files[k := files[k].(present := present)];
      }
      assert files == Unmark(st.files, k, p.bits);
      PartTotals(st, k, files);
      st, totals := st.(parts := st.parts - {k}, partFile := st.partFile - {k}, files := files),
        totals.(part := totals.part - PartBytes(p));
    }

    /** releaseObjectLocked and detachWholeLocked: the file lets go of its inode. */
    method DetachWhole(k: FileKey)
      requires Valid() && k in st.files && (st.files[k].whole.Some? ==> st.files[k].whole.value in st.objects)
      modifies this
      ensures Valid() && st == Detach(old(st), k)
    {
      hide Tidy, Exact;
      var f := st.files[k];
      if f.whole.None? { return; }
      var o := f.whole.value;
      var ob := st.objects[o].(refs := st.objects[o].refs - {k});
      var files := st.files[k := f.(whole := None)];
      ObjectTotals(st, o, ob, files);
      if ob.refs == {} && ob.readers == 0 {
        st, totals := st.(files := files, objects := st.objects[o := ob] - {o}, inodes := st.inodes - {o}),
          totals.(whole := totals.whole - ob.size);
      } else {
        st := st.(files := files, objects := st.objects[o := ob]);
      }
    }

    /** evictObjectLocked: every name of the inode is removed. */
    method EvictWhole(o: nat)
      requires Valid() && o in st.objects && forall k :: k in st.objects[o].refs ==>
        k in st.files && st.files[k].whole == Some(o)
      modifies this
      ensures Valid() && st == EvictObject(old(st), o)
    {
      hide Tidy, Exact, Detach, EvictObject;
      ghost var s := st;
      var rest := st.objects[o].refs;
      NothingEvicted(s, o);
      while rest != {}
        invariant Valid() && rest <= s.objects[o].refs
        invariant st == if rest == {} then EvictObject(s, o) else HalfEvicted(s, o, s.objects[o].refs - rest)
        decreases |rest|
      {
        var k :| k in rest;
        EvictOneName(s, o, rest, k);
        DetachWhole(k);
        rest := rest - {k};
      }
    }

    /** The chosen entry goes, with its files. */
    method Take(v: Victim, exclude: Option<BlockId>)
      requires Valid() && Ready(st) && Candidate(st, v, exclude)
      modifies this
      ensures Valid() && Ready(st) && st == Evict(old(st), v)
    {
      hide Tidy, Exact, EvictObject, CacheModel.DropBlock, ForgetPart;
      EvictReady(st, v);
      match v {
        case BlockVictim(id) => EvictBlock(id);
        case ObjectVictim(o) => EvictWhole(o);
        case PartVictim(k) => DropPart(k);
      }
    }

    /** evictOneExcept: a left-over temporary file, or else the coldest entry that
        nothing protects. None when nothing may go. */
    method EvictOne(exclude: Option<BlockId>) returns (victim: Option<Victim>)
      requires Valid() && Ready(st)
      modifies this
      ensures Valid() && Ready(st)
      ensures victim.None? ==> st == old(st) && forall v :: !Evictable(st, v, exclude)
      ensures victim.Some? ==> Evictable(old(st), victim.value, exclude) && st == Evict(old(st), victim.value)
      ensures victim.Some? ==> Chosen(old(st), victim.value, exclude)
    {
      hide Tidy, Exact, Rank, EvictObject, CacheModel.DropBlock, ForgetPart;
      ghost var s := st;
      if st.temps != map[] {
        var p :| p in st.temps;
        TempTotals(st, p);
        EvictReady(s, TempVictim(p));
        st, totals := st.(temps := st.temps - {p}), totals.(orphan := totals.orphan - st.temps[p]);
        return Some(TempVictim(p));
      }
      victim := Pick(st, exclude);
      if victim.None? {
        NoTemps(s, exclude);
        return;
      }
      Take(victim.value, exclude);
    }

    /** evictExpiredExcept: what was last used before the cutoff goes, unless it is
        protected. */
    method EvictExpired(cutoff: int, exclude: Option<BlockId>, ghost d: Demand)
      returns (ghost victims: seq<Victim>, ghost whys: seq<Why>)
      requires Valid() && Ready(st) && d.cutoff == Some(cutoff)
      modifies this
      ensures Valid() && Ready(st) && Evictions(old(st), victims, exclude) && st == EvictAll(old(st), victims, exclude)
      ensures Recent(st, cutoff, exclude) && Justified(old(st), victims, whys, exclude, d)
      ensures forall i :: 0 <= i < |whys| ==> whys[i] == TooOld
    {
      hide Tidy, Exact, Evict, Candidate, Recent, Rank, Ready, Aged, Evictions, EvictAll, BlockVictims, ObjectVictims,
           PartVictims, Reason;
      victims, whys := [], [];
      ghost var s := st;
      NoEvictions(s, exclude);
      var rest := BlockVictims(st) + ObjectVictims(st) + PartVictims(st);
      ghost var all := rest;
      NothingYet(s, cutoff, exclude);
      while rest != {}
        invariant Valid() && Ready(st) && rest <= all && Evictions(s, victims, exclude) &&
          st == EvictAll(s, victims, exclude)
        invariant Aged(st, cutoff, exclude, all, rest) && Justified(s, victims, whys, exclude, d)
        invariant forall i :: 0 <= i < |whys| ==> whys[i] == TooOld
        decreases |rest|
      {
        var v :| v in rest;
        ghost var before := st;
        if Candidate(st, v, exclude) && RankOf(st, v, exclude).1 < cutoff {
          CandidateEvictable(st, v, exclude);
          EvictAllAppend(s, victims, v, exclude);
          OldIsReason(st, v, cutoff, exclude, d);
          JustifiedAppend(s, victims, whys, v, TooOld, exclude, d);
          Take(v, exclude);
          victims, whys := victims + [v], whys + [TooOld];
          AgedTake(before, v, cutoff, exclude, all, rest);
        } else {
          AgedSkip(before, v, cutoff, exclude, all, rest);
        }
        rest := rest - {v};
      }
      AgedAll(st, cutoff, exclude, all);
    }

    /** makeRoomFor: what expired goes first, when the time for that has come; then evict
        until both caps hold with the room asked for, and then until the bytes to be written
        fit into the free space beside what is reserved there. Nothing goes without a
        reason. Fails only when nothing more may go, or the free space cannot be told. */
    method MakeRoomFor(need: nat, entries: nat, diskNeed: nat, up: Upkeep, exclude: Option<BlockId>)
      returns (ok: bool, ghost victims: seq<Victim>, ghost whys: seq<Why>, ghost free: Option<nat>)
      requires Valid() && Ready(st)
      modifies this
      ensures Valid() && Ready(st) && Evictions(old(st), victims, exclude) && st == EvictAll(old(st), victims, exclude)
      ensures ok ==> CapsHold(st, need, entries)
      ensures ok && up.checkFree ==> free.Some? && up.minFree + diskNeed + OnDisk(up.journal) <= free.value
      ensures !ok ==> free.None? || forall v :: !Evictable(st, v, exclude)
      ensures up.cutoff.Some? ==> Recent(st, up.cutoff.value, exclude)
      ensures Justified(old(st), victims, whys, exclude, DemandOf(need, entries, diskNeed, up))
    {
      hide Tidy, Exact, Evict, Evictable, Charge, Entries, Recent, Ready, Evictions, EvictAll, Reason;
      free := Some(0);
      ghost var s, d := st, DemandOf(need, entries, diskNeed, up);
      ok, victims, whys := UnderCaps(need, entries, up.cutoff, exclude, d);
      if !ok { return; }
      var enough := !up.checkFree;
      while !enough
        invariant Valid() && Ready(st) && Evictions(s, victims, exclude) && st == EvictAll(s, victims, exclude)
        invariant CapsHold(st, need, entries) && (up.cutoff.Some? ==> Recent(st, up.cutoff.value, exclude))
        invariant Justified(s, victims, whys, exclude, d)
        invariant free.Some? && (enough && up.checkFree ==> up.minFree + diskNeed + OnDisk(up.journal) <= free.value)
        decreases !enough, Population(st)
      {
        var known: bool, now: nat := *, *;
        free := if known then Some(now) else None;
        if !known { return false, victims, whys, free; }
        enough := now >= up.minFree && diskNeed <= now - up.minFree &&
          OnDisk(up.journal) <= now - up.minFree - diskNeed;
        if !enough {
          ReservedIs(up.journal);
          victims, whys, ok := Another(s, victims, whys, NoSpace(now), up.cutoff, exclude, d);
          if !ok { return; }
        }
      }
      ok := true;
    }

    /** Its first half: the expired entries, and then the caps. */
    method UnderCaps(need: nat, entries: nat, cutoff: Option<int>, exclude: Option<BlockId>, ghost d: Demand)
      returns (ok: bool, ghost victims: seq<Victim>, ghost whys: seq<Why>)
      requires Valid() && Ready(st) && d.caps == Some((need, entries)) && d.cutoff == cutoff
      modifies this
      ensures Valid() && Ready(st) && Evictions(old(st), victims, exclude) && st == EvictAll(old(st), victims, exclude)
      ensures if ok then CapsHold(st, need, entries) else forall v :: !Evictable(st, v, exclude)
      ensures cutoff.Some? ==> Recent(st, cutoff.value, exclude)
      ensures Justified(old(st), victims, whys, exclude, d)
    {
      hide Tidy, Exact, Evict, Evictable, Charge, Entries, Recent, Ready, Evictions, EvictAll, Reason;
      victims, whys := [], [];
      ghost var s := st;
      NoEvictions(s, exclude);
      if cutoff.Some? {
        victims, whys := EvictExpired(cutoff.value, exclude, d);
      }
      while Over(need, entries)
        invariant Valid() && Ready(st) && Evictions(s, victims, exclude) && st == EvictAll(s, victims, exclude)
        invariant cutoff.Some? ==> Recent(st, cutoff.value, exclude)
        invariant Justified(s, victims, whys, exclude, d)
        decreases Population(st)
      {
        OverIsReason(need, entries);
        victims, whys, ok := Another(s, victims, whys, OverCaps, cutoff, exclude, d);
        if !ok { return; }
      }
      TotalsAreCharge();
      ok := true;
    }

    /** Reserved on the disk: installs in flight, journal writes, blocks still in memory and
        copies of flushes whose block is gone. */
    function OnDisk(journal: int): int
      reads this
    {
      totals.reserved + journal + totals.pending + totals.detached
    }

    /** One more victim after those already taken, if there is one. */
    method Another(ghost s: State, ghost victims: seq<Victim>, ghost whys: seq<Why>, ghost why: Why,
                   cutoff: Option<int>, exclude: Option<BlockId>, ghost d: Demand)
      returns (ghost more: seq<Victim>, ghost reasons: seq<Why>, ok: bool)
      requires Valid() && Ready(st) && Evictions(s, victims, exclude) && st == EvictAll(s, victims, exclude)
      requires cutoff.Some? ==> Recent(st, cutoff.value, exclude)
      requires Justified(s, victims, whys, exclude, d) && Calls(st, why, d) && why != TooOld
      modifies this
      ensures Valid() && Ready(st) && Evictions(s, more, exclude) && st == EvictAll(s, more, exclude)
      ensures Justified(s, more, reasons, exclude, d)
      ensures cutoff.Some? ==> Recent(st, cutoff.value, exclude)
      ensures st.cfg == old(st).cfg && Charge(st) <= Charge(old(st)) && Entries(st) <= Entries(old(st))
      ensures if ok then Population(st) < Population(old(st)) else forall v :: !Evictable(st, v, exclude)
    {
      hide Tidy, Exact, Evict, Evictable, Charge, Entries, Recent, Ready;
      ghost var before := st;
      var v := EvictOne(exclude);
      ok, more, reasons := v.Some?, victims, whys;
      if ok {
        EvictFewer(before, v.value, exclude);
        EvictCharge(before, v.value, exclude);
        EvictAllAppend(s, victims, v.value, exclude);
        if cutoff.Some? { RecentAfter(before, v.value, cutoff.value, exclude); }
        ChosenIsReason(before, v.value, why, exclude, d);
        JustifiedAppend(s, victims, whys, v.value, why, exclude, d);
        more, reasons := victims + [v.value], whys + [why];
      }
    }

    lemma OverIsReason(need: nat, entries: nat)
      requires Valid() && Over(need, entries)
      ensures !CapsHold(st, need, entries)
    {
    }

    lemma ReservedIs(journal: int)
      requires Valid()
      ensures OnDisk(journal) == journal + InUse(st) && InUse(st) >= 0
    {
      hide Tidy, Exact;
      SumsAreSizes(st);
    }

    /** The caps test of the loop, on the running totals. */
    predicate Over(need: nat, entries: nat)
      reads this
    {
      || (st.cfg.maxBytes > 0 && totals.bytes + totals.whole + totals.part + totals.orphan + totals.reserved +
          totals.detached + need > st.cfg.maxBytes)
      || (st.cfg.maxBlocks > 0 && |st.blocks| + |st.objects| + |st.parts| + |st.temps| + totals.reservedEntries +
          totals.detachedEntries + entries > st.cfg.maxBlocks)
    }
  }

  // Sequences of evictions.

  ghost predicate Evictions(s: State, vs: seq<Victim>, exclude: Option<BlockId>)
    decreases |vs|
  {
    vs == [] || (Evictable(s, vs[0], exclude) && Evictions(Evict(s, vs[0]), vs[1..], exclude))
  }

  ghost function EvictAll(s: State, vs: seq<Victim>, exclude: Option<BlockId>): State
    requires Evictions(s, vs, exclude)
    decreases |vs|
  {
    if vs == [] then s else EvictAll(Evict(s, vs[0]), vs[1..], exclude)
  }

  lemma {:induction false} EvictAllAppend(s: State, vs: seq<Victim>, v: Victim, exclude: Option<BlockId>)
    requires Evictions(s, vs, exclude) && Evictable(EvictAll(s, vs, exclude), v, exclude)
    ensures Evictions(s, vs + [v], exclude) && EvictAll(s, vs + [v], exclude) == Evict(EvictAll(s, vs, exclude), v)
    decreases |vs|
  {
    hide Evict;
    if vs == [] {
      assert (vs + [v])[1..] == [];
    } else {
      EvictAllAppend(Evict(s, vs[0]), vs[1..], v, exclude);
      assert (vs + [v])[1..] == vs[1..] + [v];
    }
  }

  // Why each of them was made.

  /** What is asked for: room under the caps, nothing from before a cutoff, free space for
      so much beside what the cache itself will write. */
  datatype Demand = Demand(caps: Option<(nat, nat)>, cutoff: Option<int>, space: Option<int>)

  /** Last used too long ago, or the caps do not hold, or there was only so much free. */
  datatype Why = TooOld | OverCaps | NoSpace(free: nat)

  function DemandOf(need: nat, entries: nat, diskNeed: nat, up: Upkeep): Demand {
    Demand(Some((need, entries)), up.cutoff, if up.checkFree then Some(up.minFree + diskNeed + up.journal) else None)
  }

  /** Bytes the cache has still to write. */
  ghost function InUse(s: State): int {
    Exact(s).reserved + Exact(s).pending + Exact(s).detached
  }

  lemma SumsAreSizes(s: State)
    ensures Exact(s).reserved >= 0 && Exact(s).pending >= 0 && Exact(s).detached >= 0
  {
  }

  /** The state calls for an eviction. */
  ghost predicate Calls(s: State, why: Why, d: Demand) {
    match why
    case TooOld => d.cutoff.Some?
    case OverCaps => d.caps.Some? && !CapsHold(s, d.caps.value.0, d.caps.value.1)
    case NoSpace(free) => d.space.Some? && d.space.value + InUse(s) > free
  }

  /** The victim is what the reason asks for. */
  ghost predicate Reason(s: State, v: Victim, why: Why, exclude: Option<BlockId>, d: Demand)
    requires Evictable(s, v, exclude)
  {
    Calls(s, why, d) && if why == TooOld then !v.TempVictim? && Rank(s, v).1 < d.cutoff.value else Chosen(s, v, exclude)
  }

  ghost predicate Justified(s: State, vs: seq<Victim>, whys: seq<Why>, exclude: Option<BlockId>, d: Demand)
    requires Evictions(s, vs, exclude)
    decreases |vs|
  {
    && |whys| == |vs|
    && (vs == [] ||
        (Reason(s, vs[0], whys[0], exclude, d) && Justified(Evict(s, vs[0]), vs[1..], whys[1..], exclude, d)))
  }

  lemma {:induction false} JustifiedAppend(s: State, vs: seq<Victim>, whys: seq<Why>, v: Victim, why: Why,
                                           exclude: Option<BlockId>, d: Demand)
    requires Evictions(s, vs, exclude) && Justified(s, vs, whys, exclude, d)
    requires Evictable(EvictAll(s, vs, exclude), v, exclude) && Reason(EvictAll(s, vs, exclude), v, why, exclude, d)
    requires Evictions(s, vs + [v], exclude)
    ensures Justified(s, vs + [v], whys + [why], exclude, d)
    decreases |vs|
  {
    hide Evict, Reason;
    if vs == [] {
      assert (vs + [v])[1..] == [] && (whys + [why])[1..] == [];
    } else {
      assert (vs + [v])[1..] == vs[1..] + [v] && (whys + [why])[1..] == whys[1..] + [why];
      JustifiedAppend(Evict(s, vs[0]), vs[1..], whys[1..], v, why, exclude, d);
    }
  }

  lemma OldIsReason(s: State, v: Victim, cutoff: int, exclude: Option<BlockId>, d: Demand)
    requires Candidate(s, v, exclude) && RankOf(s, v, exclude).1 < cutoff && d.cutoff == Some(cutoff)
    ensures Evictable(s, v, exclude) && Reason(s, v, TooOld, exclude, d)
  {
    hide Rank;
  }

  lemma ChosenIsReason(s: State, v: Victim, why: Why, exclude: Option<BlockId>, d: Demand)
    requires Evictable(s, v, exclude) && Chosen(s, v, exclude) && Calls(s, why, d) && why != TooOld
    ensures Reason(s, v, why, exclude, d)
  {
    hide Chosen, Calls;
  }

  /** How much there is to evict. */
  function Population(s: State): nat {
    |s.temps| + |s.blocks| + |s.objects| + |s.parts|
  }

  // What one eviction changes for the others.

  /** Nothing a file's protection depends on changed. */
  predicate SameGuards(files: map<FileKey, FileState>, files': map<FileKey, FileState>) {
    && files'.Keys == files.Keys
    && forall k :: k in files ==> files'[k].(present := {}, whole := None) == files[k].(present := {}, whole := None)
  }

  lemma UnmarkGuards(files: map<FileKey, FileState>, k: FileKey, gone: set<nat>, refs: set<FileKey>)
    ensures SameGuards(files, files) && SameGuards(files, Unmark(files, k, gone)) &&
      SameGuards(files, Unlinked(files, refs))
  {
    if k in files { assert Unmark(files, k, gone).Keys == files.Keys; }
  }

  /** Entries only go, `gone` among them. */
  predicate Shrunk<K, V(==)>(m: map<K, V>, m': map<K, V>, gone: set<K>) {
    forall k :: k in m' ==> k in m && m'[k] == m[k] && k !in gone
  }

  lemma ShrunkBy<K, V>(m: map<K, V>, gone: set<K>)
    ensures Shrunk(m, m - gone, gone) && Shrunk(m, m, {})
  {
  }

  predicate Fewer(s: State, s': State, w: Victim) {
    && Shrunk(s.blocks, s'.blocks, if w.BlockVictim? then {w.id} else {})
    && Shrunk(s.objects, s'.objects, if w.ObjectVictim? then {w.inode} else {})
    && Shrunk(s.parts, s'.parts, if w.PartVictim? then {w.key} else {})
    && Population(s') < Population(s)
  }

  /** The index without the victim. */
  function Without(s: State, w: Victim): State {
    match w
    case TempVictim(p) => s.(temps := s.temps - {p})
    case BlockVictim(id) => s.(blocks := s.blocks - {id})
    case ObjectVictim(o) => s.(objects := s.objects - {o})
    case PartVictim(k) => s.(parts := s.parts - {k})
  }

  lemma WithoutFewer(s: State, w: Victim)
    requires Evictable(s, w, None)
    ensures Fewer(s, Without(s, w), w)
  {
    hide Shrunk;
    ShrunkBy(s.blocks, if w.BlockVictim? then {w.id} else {});
    ShrunkBy(s.objects, if w.ObjectVictim? then {w.inode} else {});
    ShrunkBy(s.parts, if w.PartVictim? then {w.key} else {});
    match w {
      case TempVictim(p) => SizeRemove(s.temps, p);
      case BlockVictim(id) => SizeRemove(s.blocks, id);
      case ObjectVictim(o) => SizeRemove(s.objects, o);
      case PartVictim(k) => SizeRemove(s.parts, k);
    }
  }

  /** Eviction takes the victim out and changes no other entry. */
  lemma EvictIndex(s: State, w: Victim)
    requires Evictable(s, w, None)
    ensures var s', n := Evict(s, w), Without(s, w);
      s'.blocks == n.blocks && s'.objects == n.objects && s'.parts == n.parts && s'.temps == n.temps
  {
    match w {
      case TempVictim(_) =>
      case BlockVictim(_) =>
      case ObjectVictim(o) => EvictObjectIs(s, o);
      case PartVictim(_) =>
    }
  }

  lemma EvictObjectIs(s: State, o: nat)
    requires o in s.objects && s.objects[o].refs != {} && s.objects[o].readers == 0
    ensures EvictObject(s, o) ==
      s.(files := Unlinked(s.files, s.objects[o].refs), objects := s.objects - {o}, inodes := s.inodes - {o})
  {
    hide Unlinked;
    var ob := s.objects[o].(refs := {});
    assert s.objects[o := ob] - {o} == s.objects - {o};
  }

  lemma EvictGuards(s: State, w: Victim)
    requires Evictable(s, w, None)
    ensures SameGuards(s.files, Evict(s, w).files)
  {
    hide SameGuards, Unlinked, Unmark;
    match w {
      case TempVictim(_) => UnmarkGuards(s.files, FileKey("", "", ""), {}, {});
      case BlockVictim(id) => UnmarkGuards(s.files, id.file, {id.index}, {});
      case ObjectVictim(o) =>
        EvictObjectIs(s, o);
        UnmarkGuards(s.files, FileKey("", "", ""), {}, s.objects[o].refs);
      case PartVictim(k) => UnmarkGuards(s.files, k, s.parts[k].bits, {});
    }
  }

  lemma EvictFewer(s: State, w: Victim, exclude: Option<BlockId>)
    requires Evictable(s, w, exclude)
    ensures SameGuards(s.files, Evict(s, w).files) && Fewer(s, Evict(s, w), w)
  {
    hide Evict, SameGuards, Shrunk, Without;
    EvictGuards(s, w);
    EvictIndex(s, w);
    WithoutFewer(s, w);
  }

  lemma SameProtection(s: State, s': State, k: FileKey)
    requires SameGuards(s.files, s'.files)
    ensures FileProtected(s', k) == FileProtected(s, k)
    ensures (k in s'.files && s'.files[k].holds != {}) == (k in s.files && s.files[k].holds != {})
  {
  }

  /** Eviction makes nothing evictable that was not, and leaves the ranks. */
  lemma CandidateBefore(s: State, w: Victim, v: Victim, exclude: Option<BlockId>)
    requires Evictable(s, w, exclude) && Candidate(Evict(s, w), v, exclude)
    ensures Candidate(s, v, exclude) && Rank(s, v) == Rank(Evict(s, w), v) && v != w
  {
    hide Evict, SameGuards;
    var s' := Evict(s, w);
    EvictFewer(s, w, exclude);
    match v {
      case BlockVictim(id) => SameProtection(s, s', id.file);
      case ObjectVictim(o) =>
        forall k | k in s.objects[o].refs ensures FileProtected(s', k) == FileProtected(s, k) {
          SameProtection(s, s', k);
        }
      case PartVictim(k) => SameProtection(s, s', k);
    }
  }

  // Expiry.

  function RankOf(s: State, v: Victim, exclude: Option<BlockId>): (bool, int)
    requires Candidate(s, v, exclude)
  {
    Rank(s, v)
  }

  /** Every candidate is one of `all`, and those no longer to be looked at are recent. */
  ghost predicate Aged(s: State, cutoff: int, exclude: Option<BlockId>, all: set<Victim>, rest: set<Victim>) {
    forall v :: Candidate(s, v, exclude) ==> v in all && (v in rest || Rank(s, v).1 >= cutoff)
  }

  /** Nothing that may go was last used before the cutoff. */
  ghost predicate Recent(s: State, cutoff: int, exclude: Option<BlockId>) {
    forall v :: Candidate(s, v, exclude) ==> Rank(s, v).1 >= cutoff
  }

  lemma RecentAfter(s: State, v: Victim, cutoff: int, exclude: Option<BlockId>)
    requires Recent(s, cutoff, exclude) && Evictable(s, v, exclude)
    ensures Recent(Evict(s, v), cutoff, exclude)
  {
    hide Rank, Evict;
    forall w | Candidate(Evict(s, v), w, exclude) ensures Rank(Evict(s, v), w).1 >= cutoff {
      CandidateBefore(s, v, w, exclude);
    }
  }

  lemma NothingYet(s: State, cutoff: int, exclude: Option<BlockId>)
    ensures var all := BlockVictims(s) + ObjectVictims(s) + PartVictims(s); Aged(s, cutoff, exclude, all, all)
  {
    hide Rank;
    forall v | Candidate(s, v, exclude) ensures v in BlockVictims(s) + ObjectVictims(s) + PartVictims(s) {
      match v {
        case BlockVictim(id) => assert v in BlockVictims(s);
        case ObjectVictim(o) => assert v in ObjectVictims(s);
        case PartVictim(k) => assert v in PartVictims(s);
      }
    }
  }

  lemma AgedTake(s: State, v: Victim, cutoff: int, exclude: Option<BlockId>, all: set<Victim>, rest: set<Victim>)
    requires Aged(s, cutoff, exclude, all, rest) && Candidate(s, v, exclude)
    ensures Aged(Evict(s, v), cutoff, exclude, all, rest - {v})
  {
    hide Rank, Evict;
    forall w | Candidate(Evict(s, v), w, exclude)
      ensures w in all && (w in rest - {v} || Rank(Evict(s, v), w).1 >= cutoff) {
      CandidateBefore(s, v, w, exclude);
    }
  }

  lemma AgedSkip(s: State, v: Victim, cutoff: int, exclude: Option<BlockId>, all: set<Victim>, rest: set<Victim>)
    requires Aged(s, cutoff, exclude, all, rest) && (Candidate(s, v, exclude) ==> Rank(s, v).1 >= cutoff)
    ensures Aged(s, cutoff, exclude, all, rest - {v})
  {
    hide Rank, Evictable;
  }

  lemma AgedAll(s: State, cutoff: int, exclude: Option<BlockId>, all: set<Victim>)
    requires Aged(s, cutoff, exclude, all, {})
    ensures Recent(s, cutoff, exclude)
  {
  }

  lemma CandidateEvictable(s: State, v: Victim, exclude: Option<BlockId>)
    requires Candidate(s, v, exclude)
    ensures Evictable(s, v, exclude) && RankOf(s, v, exclude) == Rank(s, v)
  {
  }

  lemma NoEvictions(s: State, exclude: Option<BlockId>)
    ensures Evictions(s, [], exclude) && EvictAll(s, [], exclude) == s
  {
  }

  // The charge only falls.

  lemma ReadyFair(s: State)
    requires Tidy(s) && Ready(s)
    ensures Fair(s, InBytes()) && Fair(s, InEntries())
  {
    forall u | u in s.flushes && !s.flushes[u].detached && s.flushes[u].id in s.blocks
      ensures |s.flushes[u].data| <= s.blocks[s.flushes[u].id].size
    {
      assert FlushAt(s, u);
    }
  }

  lemma EvictCharge(s: State, v: Victim, exclude: Option<BlockId>)
    requires Tidy(s) && Ready(s) && Evictable(s, v, exclude)
    ensures Charge(Evict(s, v)) <= Charge(s) && Entries(Evict(s, v)) <= Entries(s) && Evict(s, v).cfg == s.cfg
  {
    hide Tidy, Ready, CacheModel.DropBlock, ForgetPart, EvictObject, Weight, Charge, Entries, Fair;
    Ledger(s);
    Ledger(Evict(s, v));
    match v {
      case TempVictim(p) => TempWeight(s, p);
      case BlockVictim(id) =>
        ReadyFair(s);
        DropBlockWeight(s, id);
      case ObjectVictim(o) =>
        EvictObjectLess(s, o, InBytes());
        EvictObjectLess(s, o, InEntries());
        EvictObjectConfig(s, o);
      case PartVictim(k) => ForgetPartWeight(s, k);
    }
  }

  lemma TempWeight(s: State, p: string)
    requires p in s.temps
    ensures var s' := s.(temps := s.temps - {p});
      Weight(s', InBytes()) <= Weight(s, InBytes()) && Weight(s', InEntries()) <= Weight(s, InEntries())
  {
    SumRemove(s.temps, InBytes().temp, p);
    SumRemove(s.temps, InEntries().temp, p);
  }

  lemma DropBlockWeight(s: State, id: BlockId)
    requires Tidy(s) && Fair(s, InBytes()) && Fair(s, InEntries())
    ensures var s' := CacheModel.DropBlock(s, id);
      Weight(s', InBytes()) <= Weight(s, InBytes()) && Weight(s', InEntries()) <= Weight(s, InEntries()) &&
        s'.cfg == s.cfg
  {
    DropOneWeight(s, id, InBytes());
    DropOneWeight(s, id, InEntries());
    SameWeight(DropAll(s, {id}), CacheModel.DropBlock(s, id), InBytes());
    SameWeight(DropAll(s, {id}), CacheModel.DropBlock(s, id), InEntries());
  }

  lemma SameWeight(s: State, s': State, w: Weights)
    requires s'.blocks == s.blocks && s'.objects == s.objects && s'.parts == s.parts && s'.temps == s.temps
    requires s'.installs == s.installs && s'.flushes == s.flushes
    ensures Weight(s', w) == Weight(s, w)
  {
  }

  lemma ForgetPartWeight(s: State, k: FileKey)
    requires k in s.parts
    ensures var s' := ForgetPart(s, k);
      Weight(s', InBytes()) <= Weight(s, InBytes()) && Weight(s', InEntries()) <= Weight(s, InEntries()) &&
        s'.cfg == s.cfg
  {
    SumRemove(s.parts, InBytes().part, k);
    SumRemove(s.parts, InEntries().part, k);
  }

  /** What eviction relies on: names of inodes link back, bitmaps are in range, and a
      block in memory is as long as its bytes. */
  ghost predicate Ready(s: State) {
    && (forall o :: o in s.objects ==> LinksBack(s, o))
    && (forall id :: id in s.blocks && s.blocks[id].mem.Some? ==> s.blocks[id].size == |s.blocks[id].mem.value|)
    && (forall k :: k in s.parts ==>
        s.parts[k].unit > 0 && s.parts[k].bits <= Range(PieceCount(s.parts[k].unit, s.parts[k].size)))
  }

  predicate LinksBack(s: State, o: nat)
    requires o in s.objects
  {
    forall k :: k in s.objects[o].refs ==> k in s.files && s.files[k].whole == Some(o)
  }

  /** Temporary files go first, then nothing that may go is colder. */
  ghost predicate Chosen(s: State, v: Victim, exclude: Option<BlockId>)
    requires Evictable(s, v, exclude)
  {
    if s.temps != map[] then v.TempVictim?
    else !v.TempVictim? && forall w :: Candidate(s, w, exclude) ==> !Colder(Rank(s, w), Rank(s, v))
  }

  lemma NoTemps(s: State, exclude: Option<BlockId>)
    requires s.temps == map[] && forall v :: !Candidate(s, v, exclude)
    ensures forall v :: !Evictable(s, v, exclude)
  {
    forall v ensures !Evictable(s, v, exclude) { assert !Candidate(s, v, exclude); }
  }

  lemma TempsTotals(s: State, temps: map<string, nat>)
    ensures var s' := s.(temps := temps);
      Exact(s') == Exact(s).(orphan := Sum(temps, TempBytes)) && (Tidy(s) ==> Tidy(s'))
    ensures Exact(s).orphan == Sum(s.temps, TempBytes)
  {
    hide Tidy;
    if Tidy(s) { TidyBut(s, s.(temps := temps)); }
  }

  lemma TempTotals(s: State, p: string)
    requires p in s.temps
    ensures var s' := s.(temps := s.temps - {p});
      Exact(s') == Exact(s).(orphan := Exact(s).orphan - s.temps[p]) && (Tidy(s) ==> Tidy(s'))
  {
    hide Tidy, Exact;
    SumRemove(s.temps, TempBytes, p);
    TempsTotals(s, s.temps - {p});
  }

  lemma EvictReady(s: State, v: Victim)
    requires Ready(s) && Evictable(s, v, None)
    ensures Ready(Evict(s, v))
  {
    match v {
      case TempVictim(_) =>
      case BlockVictim(id) => DropBlockReady(s, id);
      case ObjectVictim(o) => EvictObjectReady(s, o);
      case PartVictim(k) =>
        var s' := ForgetPart(s, k);
        forall o | o in s'.objects ensures LinksBack(s', o) { assert LinksBack(s, o); }
    }
  }

  lemma DropBlockReady(s: State, id: BlockId)
    requires Ready(s)
    ensures Ready(CacheModel.DropBlock(s, id))
  {
    var s' := CacheModel.DropBlock(s, id);
    forall o | o in s'.objects ensures LinksBack(s', o) { assert LinksBack(s, o); }
  }

  lemma EvictObjectParts(s: State, o: nat)
    requires o in s.objects && s.objects[o].refs != {}
    ensures var s' := EvictObject(s, o);
      && s'.files == Unlinked(s.files, s.objects[o].refs) && s'.parts == s.parts && s'.blocks == s.blocks
      && forall p :: p in s'.objects ==> p in s.objects && s'.objects[p].refs == if p == o then {}
         else s.objects[p].refs
  {
    hide Unlinked;
    var ob := s.objects[o].(refs := {});
    var s1 := s.(files := Unlinked(s.files, s.objects[o].refs), objects := s.objects[o := ob]);
    if ob.readers == 0 {
      assert EvictObject(s, o) == s1.(objects := s1.objects - {o}, inodes := s1.inodes - {o});
    } else {
      assert EvictObject(s, o) == s1;
    }
  }

  lemma EvictObjectReady(s: State, o: nat)
    requires Ready(s) && o in s.objects
    ensures Ready(EvictObject(s, o))
  {
    hide EvictObject;
    var s' := EvictObject(s, o);
    if s.objects[o].refs == {} {
      NothingEvicted(s, o);
    } else {
      EvictObjectParts(s, o);
      assert LinksBack(s, o);
      forall p | p in s'.objects ensures LinksBack(s', p) { assert LinksBack(s, p); }
    }
  }

  lemma PartTotals(s: State, k: FileKey, files: map<FileKey, FileState>)
    requires k in s.parts
    ensures var s' := s.(parts := s.parts - {k}, partFile := s.partFile - {k}, files := files);
      Exact(s') == Exact(s).(part := Exact(s).part - PartBytes(s.parts[k])) && (Tidy(s) ==> Tidy(s'))
  {
    SumRemove(s.parts, PartBytes, k);
    var s' := s.(parts := s.parts - {k}, partFile := s.partFile - {k}, files := files);
    if Tidy(s) { forall u | u in s'.flushes ensures FlushAt(s', u) { assert FlushAt(s, u); } }
  }

  lemma WholeTotals(s: State, files: map<FileKey, FileState>, objects: map<nat, Object>, inodes: map<nat, Bytes>)
    ensures var s' := s.(files := files, objects := objects, inodes := inodes);
      Exact(s') == Exact(s).(whole := Sum(objects, ObjectBytes)) && (Tidy(s) ==> Tidy(s'))
  {
    hide Tidy;
    if Tidy(s) { TidyBut(s, s.(files := files, objects := objects, inodes := inodes)); }
  }

  lemma ObjectTotals(s: State, o: nat, ob: Object, files: map<FileKey, FileState>)
    requires o in s.objects && ob.size == s.objects[o].size
    ensures var s' := s.(files := files, objects := s.objects[o := ob], inodes := s.inodes);
      Exact(s') == Exact(s) && (Tidy(s) ==> Tidy(s'))
    ensures var s' := s.(files := files, objects := s.objects[o := ob] - {o}, inodes := s.inodes - {o});
      Exact(s') == Exact(s).(whole := Exact(s).whole - ob.size) && (Tidy(s) ==> Tidy(s'))
  {
    hide Tidy, Exact;
    SumUpdate(s.objects, ObjectBytes, o, ob);
    SumRemove(s.objects[o := ob], ObjectBytes, o);
    WholeTotals(s, files, s.objects[o := ob], s.inodes);
    WholeTotals(s, files, s.objects[o := ob] - {o}, s.inodes - {o});
    assert Exact(s).whole == Sum(s.objects, ObjectBytes) by { ExactWhole(s); }
  }

  lemma ExactWhole(s: State)
    ensures Exact(s).whole == Sum(s.objects, ObjectBytes)
  {
  }

  lemma TidyBut(s: State, s': State)
    requires Tidy(s) && s'.blocks == s.blocks && s'.flushes == s.flushes && s'.nextTag >= s.nextTag
    ensures Tidy(s')
  {
    forall u | u in s'.flushes ensures FlushAt(s', u) { assert FlushAt(s, u); }
  }

  /** An inode some of whose names are gone. */
  function HalfEvicted(s: State, o: nat, done: set<FileKey>): State
    requires o in s.objects
  {
    s.(files := Unlinked(s.files, done), objects := s.objects[o := s.objects[o].(refs := s.objects[o].refs - done)])
  }

  lemma NothingEvicted(s: State, o: nat)
    requires o in s.objects
    ensures HalfEvicted(s, o, {}) == s && (s.objects[o].refs == {} ==> EvictObject(s, o) == s)
  {
    assert Unlinked(s.files, {}) == s.files;
    assert s.objects[o].refs - {} == s.objects[o].refs;
    assert s.objects[o := s.objects[o]] == s.objects;
  }

  lemma EvictOneName(s: State, o: nat, rest: set<FileKey>, k: FileKey)
    requires o in s.objects && k in rest && rest <= s.objects[o].refs
    requires forall j :: j in s.objects[o].refs ==> j in s.files && s.files[j].whole == Some(o)
    ensures var refs := s.objects[o].refs; var h := HalfEvicted(s, o, refs - rest);
      && k in h.files && h.files[k].whole == Some(o) && o in h.objects
      && Detach(h, k) == if rest == {k} then EvictObject(s, o) else HalfEvicted(s, o, refs - (rest - {k}))
  {
    var refs := s.objects[o].refs;
    var h := HalfEvicted(s, o, refs - rest);
    var done := refs - (rest - {k});
    assert refs - done == rest - {k} && (refs - (refs - rest)) - {k} == rest - {k};
    assert h.files[k := h.files[k].(whole := None)] == Unlinked(s.files, done);
    var ob := s.objects[o].(refs := rest - {k});
    assert h.objects[o := ob] == s.objects[o := ob];
    var s1 := s.(files := Unlinked(s.files, done), objects := s.objects[o := ob]);
    assert Detach(h, k) == Released(s1, o);
    if rest == {k} {
      assert done == refs && rest - {k} == {};
      assert EvictObject(s, o) == Released(s1, o);
    } else {
      assert exists j :: j in rest - {k};
      assert Released(s1, o) == s1;
    }
  }

  /** Records and disk contents are not counted. */
  lemma SameTotals(s: State, s': State)
    requires s'.blocks == s.blocks && s'.objects == s.objects && s'.parts == s.parts && s'.temps == s.temps
    requires s'.installs == s.installs && s'.flushes == s.flushes && s'.nextTag == s.nextTag
    ensures Exact(s') == Exact(s) && (Tidy(s) ==> Tidy(s'))
  {
    if Tidy(s) { forall u | u in s'.flushes ensures FlushAt(s', u) { assert FlushAt(s, u); } }
  }

  // What is protected stays.

  lemma EvictLeaves(s: State, w: Victim, exclude: Option<BlockId>, id: BlockId, o: nat, k: FileKey)
    requires Evictable(s, w, exclude)
    ensures var s' := Evict(s, w);
      && (id in s.blocks && BlockProtected(s, id, exclude) ==>
          id in s'.blocks && s'.blocks[id] == s.blocks[id] && BlockProtected(s', id, exclude))
      && (o in s.objects && ObjectProtected(s, o) ==>
          o in s'.objects && s'.objects[o] == s.objects[o] && ObjectProtected(s', o))
      && (k in s.parts && FileProtected(s, k) ==> k in s'.parts && s'.parts[k] == s.parts[k] && FileProtected(s', k))
  {
    hide Evict, SameGuards, FileProtected;
    var s' := Evict(s, w);
    EvictIndex(s, w);
    EvictGuards(s, w);
    SameProtection(s, s', id.file);
    SameProtection(s, s', k);
    if o in s.objects {
      forall j | j in s.objects[o].refs ensures FileProtected(s', j) == FileProtected(s, j) {
        SameProtection(s, s', j);
      }
    }
  }

  lemma {:induction false} EvictionsLeave(s: State, vs: seq<Victim>, exclude: Option<BlockId>, id: BlockId, o: nat,
                                          k: FileKey)
    requires Evictions(s, vs, exclude)
    ensures var s' := EvictAll(s, vs, exclude);
      && (id in s.blocks && BlockProtected(s, id, exclude) ==> id in s'.blocks && s'.blocks[id] == s.blocks[id])
      && (o in s.objects && ObjectProtected(s, o) ==> o in s'.objects && s'.objects[o] == s.objects[o])
      && (k in s.parts && FileProtected(s, k) ==> k in s'.parts && s'.parts[k] == s.parts[k])
    decreases |vs|
  {
    hide Evict, ObjectProtected, FileProtected;
    if vs != [] {
      EvictLeaves(s, vs[0], exclude, id, o, k);
      EvictionsLeave(Evict(s, vs[0]), vs[1..], exclude, id, o, k);
    }
  }

  /** The file is pinned, for a while or by policy, or a call is at work on it. */
  predicate InCare(s: State, k: FileKey) {
    k in s.files && (s.files[k].pinned || s.files[k].userPinned || s.files[k].holds != {})
  }

  /** No run of evictions removes a block that is pinned, excluded or of a file that a call
      is at work on; an inode that is leased or has a name whose file is pinned or worked
      on; or the sparse file of such a file. */
  lemma ProtectedStays(s: State, vs: seq<Victim>, exclude: Option<BlockId>, id: BlockId, o: nat, k: FileKey)
    requires Evictions(s, vs, exclude)
    ensures var s' := EvictAll(s, vs, exclude);
      && (id in s.blocks &&
          (s.blocks[id].pinned || exclude == Some(id) || (id.file in s.files && s.files[id.file].holds != {})) ==>
            id in s'.blocks && s'.blocks[id] == s.blocks[id])
      && (o in s.objects && (s.objects[o].readers > 0 || (k in s.objects[o].refs && InCare(s, k))) ==>
            o in s'.objects && s'.objects[o] == s.objects[o])
      && (k in s.parts && InCare(s, k) ==> k in s'.parts && s'.parts[k] == s.parts[k])
  {
    hide Evictions, EvictAll;
    EvictionsLeave(s, vs, exclude, id, o, k);
  }

  /** Eviction gives up exactly when there is no left-over temporary file, every block is
      pinned, excluded or of a file that a call is at work on, every inode with a name is
      leased or has one in care, and so is the file of every sparse file. */
  lemma GivesUpExactly(s: State, exclude: Option<BlockId>)
    ensures (forall v :: !Evictable(s, v, exclude)) <==>
      && s.temps == map[]
      && (forall id :: id in s.blocks ==>
            s.blocks[id].pinned || exclude == Some(id) || (id.file in s.files && s.files[id.file].holds != {}))
      && (forall o :: o in s.objects && s.objects[o].refs != {} ==>
            s.objects[o].readers > 0 || exists k :: k in s.objects[o].refs && InCare(s, k))
      && (forall k :: k in s.parts ==> InCare(s, k))
  {
    if forall v :: !Evictable(s, v, exclude) {
      forall p ensures p !in s.temps { assert !Evictable(s, TempVictim(p), exclude); }
      forall id | id in s.blocks ensures BlockProtected(s, id, exclude) {
        assert !Evictable(s, BlockVictim(id), exclude);
      }
      forall o | o in s.objects && s.objects[o].refs != {}
        ensures s.objects[o].readers > 0 || exists k :: k in s.objects[o].refs && InCare(s, k)
      {
        assert !Evictable(s, ObjectVictim(o), exclude);
        CareIsProtection(s, o);
      }
      forall k | k in s.parts ensures InCare(s, k) { assert !Evictable(s, PartVictim(k), exclude); }
    } else {
      var v :| Evictable(s, v, exclude);
      if v.ObjectVictim? { CareIsProtection(s, v.inode); }
    }
  }

  lemma CareIsProtection(s: State, o: nat)
    requires o in s.objects
    ensures ObjectProtected(s, o) <==>
      s.objects[o].readers > 0 || exists k :: k in s.objects[o].refs && InCare(s, k)
  {
    if k :| k in s.objects[o].refs && InCare(s, k) { assert FileProtected(s, k); }
    if k :| k in s.objects[o].refs && FileProtected(s, k) { assert InCare(s, k); }
  }

  /** Every reachable state is one the methods accept. */
  lemma InvReady(s: State, t: Truth)
    requires Inv(s, t)
    ensures Tidy(s) && Ready(s)
  {
    hide InstallInv, LockOk, Piece, Covered;
    forall o | o in s.objects ensures LinksBack(s, o) { assert ObjectAt(s, o); }
    forall id | id in s.blocks && s.blocks[id].mem.Some? ensures s.blocks[id].size == |s.blocks[id].mem.value| {
      assert KeyOk(s, t, id.file) && BlockAt(s, t, id);
    }
    forall k | k in s.parts
      ensures s.parts[k].unit > 0 && s.parts[k].bits <= Range(PieceCount(s.parts[k].unit, s.parts[k].size)) {
      assert KeyOk(s, t, k) && PartAt(s, t, k);
    }
  }
}
