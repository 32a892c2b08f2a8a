/** Admission as one call makes it: ask for the room, evict under the admission lock until
    it is there, and store, or give up. Each is proved to be a run of the machine. */
module CacheAdmits {

  import opened Common
  import opened Ranges
  import opened CacheModel
  import opened CacheInvariant
  import opened CacheSteps
  import opened CacheIndex
  import CachePuts

  // Runs of steps that may happen.

  ghost predicate Steps(s: State, acts: seq<Action>)
    decreases |acts|
  {
    acts == [] || (Enabled(s, acts[0]) && Steps(Next(s, acts[0]), acts[1..]))
  }

  ghost function Reached(s: State, acts: seq<Action>): State
    requires Steps(s, acts)
    decreases |acts|
  {
    if acts == [] then s else Reached(Next(s, acts[0]), acts[1..])
  }

  lemma {:induction false} StepsOn(s: State, acts: seq<Action>, a: Action)
    requires Steps(s, acts) && Enabled(Reached(s, acts), a)
    ensures Steps(s, acts + [a]) && Reached(s, acts + [a]) == Next(Reached(s, acts), a)
    decreases |acts|
  {
    hide Enabled, Next;
    if acts == [] {
      assert ([] + [a])[1..] == [];
    } else {
      StepsOn(Next(s, acts[0]), acts[1..], a);
      assert (acts + [a])[1..] == acts[1..] + [a];
    }
  }

  ghost function EvictSteps(vs: seq<Victim>): seq<Action> {
    seq(|vs|, i requires 0 <= i < |vs| => Admit(Evicts(vs[i])))
  }

  /** Evictions under the lock are steps, and leave the lock and the entry asked for. */
  lemma {:induction false} EvictionSteps(s: State, acts: seq<Action>, vs: seq<Victim>)
    requires Steps(s, acts)
    requires var s1 := Reached(s, acts); s1.lock.Asking? && Evictions(s1, vs, Excluded(s1.lock))
    ensures var s1, all := Reached(s, acts), acts + EvictSteps(vs);
      && Steps(s, all) && Reached(s, all) == EvictAll(s1, vs, Excluded(s1.lock))
      && Reached(s, all).lock == s1.lock && Reached(s, all).cfg == s1.cfg
      && forall id :: id in Reached(s, all).blocks ==> id in s1.blocks && Reached(s, all).blocks[id] == s1.blocks[id]
    decreases |vs|
  {
    hide Evict, Evictable;
    var s1 := Reached(s, acts);
    if vs == [] {
      assert acts + EvictSteps(vs) == acts;
    } else {
      StepsOn(s, acts, Admit(Evicts(vs[0])));
      EvictKeepsLock(s1, vs[0], Excluded(s1.lock));
      EvictionSteps(s, acts + [Admit(Evicts(vs[0]))], vs[1..]);
      assert acts + EvictSteps(vs) == acts + [Admit(Evicts(vs[0]))] + EvictSteps(vs[1..]);
    }
  }

  lemma EvictKeepsLock(s: State, v: Victim, exclude: Option<BlockId>)
    requires Evictable(s, v, exclude)
    ensures Evict(s, v).lock == s.lock && Evict(s, v).cfg == s.cfg
    ensures forall id :: id in Evict(s, v).blocks ==> id in s.blocks && Evict(s, v).blocks[id] == s.blocks[id]
  {
    hide SameGuards;
    EvictFewer(s, v, exclude);
    match v {
      case TempVictim(_) =>
      case BlockVictim(_) =>
      case ObjectVictim(o) => EvictObjectIs(s, o);
      case PartVictim(_) =>
    }
  }

  lemma LockOnly(s: State, l: Lock)
    requires Tidy(s)
    ensures Tidy(s.(lock := l)) && Exact(s.(lock := l)) == Exact(s) && (Ready(s) <==> Ready(s.(lock := l)))
    ensures Charge(s.(lock := l)) == Charge(s) && Entries(s.(lock := l)) == Entries(s)
  {
    var s' := s.(lock := l);
    forall u | u in s'.flushes ensures FlushAt(s', u) { assert FlushAt(s, u); }
    forall o | o in s.objects ensures LinksBack(s, o) == LinksBack(s', o) {}
  }

  /** makeRoomFor under the lock: the evictions that were needed, and the grant. */
  method Search(c: Cache, r: Request, need: nat, entries: nat, up: Upkeep, ghost s: State, ghost ask: Action)
    returns (ok: bool, ghost acts: seq<Action>, ghost victims: seq<Victim>, ghost free: Option<nat>)
    requires c.Valid() && Ready(c.st) && c.st.lock == Asking(r, need, entries) && (r.BlockReq? || r.RangeReq?)
    requires Enabled(s, ask) && c.st == Next(s, ask)
    modifies c
    ensures c.Valid() && Steps(s, acts) && c.st == Reached(s, acts) && c.st.cfg == old(c.st).cfg
    ensures acts == [ask] + EvictSteps(victims) + [Admit(if ok then Grant else Unlock)]
    ensures c.st.lock == if ok then Granted(r) else Free
    ensures forall id :: id in c.st.blocks ==> id in old(c.st.blocks) && c.st.blocks[id] == old(c.st.blocks[id])
    ensures !ok ==> free.None? || forall v :: !Evictable(c.st, v, Some(r.id))
  {
    hide Tidy, Exact, Evict, Evictable, Charge, Entries, Ready, Next, Enabled, Recent, EvictSteps;
    ghost var s1 := c.st;
    ghost var whys;
    ok, victims, whys, free := c.MakeRoomFor(need, entries, r.n, up, Some(r.id));
    AskStep(s, ask);
    EvictionSteps(s, [ask], victims);
    acts := [ask] + EvictSteps(victims);
    GrantOrUnlock(c.st, ok);
    StepsOn(s, acts, Admit(if ok then Grant else Unlock));
    acts := acts + [Admit(if ok then Grant else Unlock)];
    LockOnly(c.st, if ok then Granted(r) else Free);
    if !ok && free.Some? { StillNone(c.st, Free, Some(r.id)); }
    c.st := c.st.(lock := if ok then Granted(r) else Free);
  }

  lemma AskStep(s: State, a: Action)
    requires Enabled(s, a)
    ensures Steps(s, [a]) && Reached(s, [a]) == Next(s, a)
  {
    hide Enabled, Next;
    assert [a][1..] == [];
  }

  lemma GrantOrUnlock(s: State, ok: bool)
    requires s.lock.Asking? && (s.lock.req.BlockReq? || s.lock.req.RangeReq?)
    requires ok ==> CapsHold(s, s.lock.need, s.lock.entries)
    ensures var a := Admit(if ok then Grant else Unlock);
      Enabled(s, a) && Next(s, a) == s.(lock := if ok then Granted(s.lock.req) else Free)
  {
    hide CapsHold;
  }

  lemma StillNone(s: State, l: Lock, exclude: Option<BlockId>)
    requires forall v :: !Evictable(s, v, exclude)
    ensures forall v :: !Evictable(s.(lock := l), v, exclude)
  {
    forall v ensures !Evictable(s.(lock := l), v, exclude) { assert !Evictable(s, v, exclude); }
  }

  /** The run of a call: ask, evict, and store under the grant or let the lock go. */
  ghost predicate Admission(acts: seq<Action>, ask: Action, victims: seq<Victim>, store: Option<Action>) {
    acts == [ask] + EvictSteps(victims) + (if store.Some? then [Admit(Grant), store.value] else [Admit(Unlock)])
  }

  /** Put and PutAsync as far as the write-behind has room: nothing is stored that the
      caps have no room for, the entry replaced is never a victim, and a call that gives
      up has found nothing more to evict. */
  method StoreBlock(c: Cache, id: BlockId, data: Bytes, size: nat, async: bool, up: Upkeep, now: int)
    returns (ok: bool, ghost acts: seq<Action>, ghost victims: seq<Victim>, ghost free: Option<nat>)
    requires c.Valid() && Ready(c.st) && c.st.lock.Free? && (async || !WholeLayout(c.st.cfg, size))
    modifies c
    ensures c.Valid() && Steps(old(c.st), acts) && c.st == Reached(old(c.st), acts) && c.st.lock.Free?
    ensures |data| > c.st.cfg.blockSize ==> !ok && c.st == old(c.st)
    ensures |data| <= c.st.cfg.blockSize ==>
      Admission(acts, Admit(AskBlock(id, |data|, size)), victims,
                if ok then Some(Store(if async then CommitAsync(data, now) else CommitPut(data, now))) else None)
    ensures !ok && |data| <= c.st.cfg.blockSize ==> free.None? || forall v :: !Evictable(c.st, v, Some(id))
  {
    hide Tidy, Exact, Evictable, Charge, Entries, Ready, Next, Enabled, EvictSteps, Steps, Reached, CacheModel.PutBlock,
         Room;
    ghost var s := c.st;
    acts, victims, free := [], [], Some(0);
    if |data| > c.st.cfg.blockSize {
      NoSteps(s);
      return false, acts, victims, free;
    }
    var need, entries := CachePuts.BlockRoom(c, id, |data|);
    ghost var ask, store := Admit(AskBlock(id, |data|, size)),
      Store(if async then CommitAsync(data, now) else CommitPut(data, now));
    AskedBlock(s, id, |data|, size, need, entries);
    LockOnly(s, Asking(BlockReq(id, |data|, size), need, entries));
    c.st := c.st.(lock := Asking(BlockReq(id, |data|, size), need, entries));
    ok, acts, victims, free := Search(c, BlockReq(id, |data|, size), need, entries, up, s, ask);
    if ok {
      StoredBlock(c.st, id, data, size, async, now);
      StepsOn(s, acts, store);
      WithStore(acts, ask, victims, store);
      acts := acts + [store];
      CachePuts.PutBlock(c, id, data, size, async, now);
    }
  }

  lemma NoSteps(s: State)
    ensures Steps(s, []) && Reached(s, []) == s
  {
  }

  lemma AskedBlock(s: State, id: BlockId, n: nat, size: nat, need: nat, entries: nat)
    requires s.lock.Free? && (need, entries) == Room(s, BlockReq(id, n, size))
    ensures var a := Admit(AskBlock(id, n, size));
      Enabled(s, a) && Next(s, a) == s.(lock := Asking(BlockReq(id, n, size), need, entries))
  {
    hide Room;
  }

  lemma StoredBlock(s: State, id: BlockId, data: Bytes, size: nat, async: bool, now: int)
    requires s.lock == Granted(BlockReq(id, |data|, size)) && (async || !WholeLayout(s.cfg, size))
    ensures var a := Store(if async then CommitAsync(data, now) else CommitPut(data, now));
      Enabled(s, a) && Next(s, a) == PutBlock(s, id, data, size, async, now) && Next(s, a).lock.Free? &&
        Next(s, a).cfg == s.cfg
  {
  }

  /** blockRoom for a range: one that is all there already skips the search. */
  method RangeGranted(c: Cache, id: BlockId, off: nat, n: nat, size: nat, up: Upkeep)
    returns (ok: bool, ghost acts: seq<Action>, ghost victims: seq<Victim>, ghost free: Option<nat>)
    requires c.Valid() && Ready(c.st) && c.st.lock.Free?
    requires Aligned(c.st.cfg.subSize, off, n, BlockLen(c.st.cfg, id.index, size))
    modifies c
    ensures c.Valid() && Steps(old(c.st), acts) && c.st == Reached(old(c.st), acts) && c.st.cfg == old(c.st).cfg
    ensures c.st.lock == if ok then Granted(RangeReq(id, off, n, size)) else Free
    ensures var ask := Admit(AskRange(id, off, n, size));
      if Room(old(c.st), RangeReq(id, off, n, size)) == (0, 0) then ok && acts == [ask]
      else acts == [ask] + EvictSteps(victims) + [Admit(if ok then Grant else Unlock)]
    ensures id in c.st.blocks ==> id in old(c.st).blocks && c.st.blocks[id] == old(c.st).blocks[id]
    ensures !ok ==> free.None? || forall v :: !Evictable(c.st, v, Some(id))
  {
    hide Tidy, Exact, Evictable, Charge, Entries, Ready, Next, Enabled, EvictSteps, Steps, Reached, Room, Aligned;
    ghost var s := c.st;
    victims, free := [], Some(0);
    var need, entries := CachePuts.RangeRoom(c, id, off, n, size);
    var r := RangeReq(id, off, n, size);
    ghost var ask := Admit(AskRange(id, off, n, size));
    AskedRange(s, id, off, n, size, need, entries);
    if need == 0 && entries == 0 {
      LockOnly(s, Granted(r));
      c.st := c.st.(lock := Granted(r));
      AskStep(s, ask);
      ok, acts := true, [ask];
    } else {
      LockOnly(s, Asking(r, need, entries));
      c.st := c.st.(lock := Asking(r, need, entries));
      ok, acts, victims, free := Search(c, r, need, entries, up, s, ask);
    }
  }

  /** PutRange as far as the write-behind has room. */
  method StoreRange(c: Cache, id: BlockId, off: nat, data: Bytes, size: nat, up: Upkeep, now: int)
    returns (ok: bool, ghost acts: seq<Action>, ghost victims: seq<Victim>, ghost free: Option<nat>)
    requires c.Valid() && Ready(c.st) && c.st.lock.Free? && CachePuts.Counted(c.st, id, size)
    requires Aligned(c.st.cfg.subSize, off, |data|, BlockLen(c.st.cfg, id.index, size))
    modifies c
    ensures c.Valid() && Steps(old(c.st), acts) && c.st == Reached(old(c.st), acts) && c.st.lock.Free?
    ensures var ask, store := Admit(AskRange(id, off, |data|, size)), Store(CommitRange(data, now));
      if Room(old(c.st), RangeReq(id, off, |data|, size)) == (0, 0) then ok && acts == [ask, store]
      else Admission(acts, ask, victims, if ok then Some(store) else None)
    ensures !ok ==> free.None? || forall v :: !Evictable(c.st, v, Some(id))
  {
    hide Tidy, Exact, Evictable, Charge, Entries, Ready, Next, Enabled, EvictSteps, Steps, Reached, Room, Aligned,
         CacheModel.PutRange, CachePuts.Counted;
    ghost var s := c.st;
    ok, acts, victims, free := RangeGranted(c, id, off, |data|, size, up);
    if ok {
      ghost var store := Store(CommitRange(data, now));
      StoredRange(c.st, id, off, data, size, now);
      StepsOn(s, acts, store);
      WithStore(acts, Admit(AskRange(id, off, |data|, size)), victims, store);
      acts := acts + [store];
      StillCounted(s, c.st, id, size);
      CachePuts.PutRange(c, id, off, data, size, now);
    }
  }

  lemma WithStore(acts: seq<Action>, ask: Action, victims: seq<Victim>, store: Action)
    ensures acts == [ask] ==> acts + [store] == [ask, store]
    ensures acts == [ask] + EvictSteps(victims) + [Admit(Grant)] ==>
      Admission(acts + [store], ask, victims, Some(store))
  {
    hide EvictSteps;
  }

  lemma StillCounted(s: State, s': State, id: BlockId, size: nat)
    requires CachePuts.Counted(s, id, size) && s'.cfg == s.cfg
    requires id in s'.blocks ==> id in s.blocks && s'.blocks[id] == s.blocks[id]
    ensures CachePuts.Counted(s', id, size)
  {
  }

  lemma AskedRange(s: State, id: BlockId, off: nat, n: nat, size: nat, need: nat, entries: nat)
    requires s.lock.Free? && Aligned(s.cfg.subSize, off, n, BlockLen(s.cfg, id.index, size))
    requires (need, entries) == Room(s, RangeReq(id, off, n, size))
    ensures var a, r := Admit(AskRange(id, off, n, size)), RangeReq(id, off, n, size);
      Enabled(s, a) &&
        Next(s, a) == s.(lock := if (need, entries) == (0, 0) then Granted(r) else Asking(r, need, entries))
  {
    hide Room;
  }

  lemma StoredRange(s: State, id: BlockId, off: nat, data: Bytes, size: nat, now: int)
    requires s.lock == Granted(RangeReq(id, off, |data|, size))
    ensures var a := Store(CommitRange(data, now));
      Enabled(s, a) && Next(s, a) == PutRange(s, id, off, data, size, now) && Next(s, a).lock.Free? &&
        Next(s, a).cfg == s.cfg
  {
    hide CacheModel.PutRange;
    RangeFrees(s, id, off, data, size, now);
  }

  lemma RangeFrees(s: State, id: BlockId, off: nat, data: Bytes, size: nat, now: int)
    ensures var s' := PutRange(s, id, off, data, size, now); s'.lock.Free? && s'.cfg == s.cfg
  {
    hide AddRange, Known;
    KnownFields(s, id.file);
    AddRangeFields(Known(s, id.file).(lock := Free), id, off, data, size, now);
  }
}
