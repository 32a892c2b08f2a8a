/** How steps change what is charged to the budget. Bytes and entries are charged in
    the same places, so both are sums with different weights. */
module CacheCharge {

  import opened Common
  import opened Geometry
  import opened Sums
  import opened CacheModel
  import opened CacheInvariant
  import opened CacheEdits

  /** What one block, complete file, sparse file, left-over, reservation or flush
      counts for. */
  datatype Weights = Weights(block: Block -> nat, whole: Object -> nat, part: Part -> nat, temp: nat -> nat,
                             install: Install -> nat, flush: Flush -> nat)

  function InBytes(): Weights {
    Weights(BlockBytes, ObjectBytes, PartBytes, TempBytes, InstallBytes, DetachedBytes)
  }

  function One<T>(x: T): nat { 1 }

  function InEntries(): Weights {
    Weights(x => One(x), x => One(x), x => One(x), x => One(x), x => One(x), DetachedOne)
  }

  ghost function Weight(s: State, w: Weights): nat {
    Sum(s.blocks, w.block) + Sum(s.objects, w.whole) + Sum(s.parts, w.part) +
    Sum(s.temps, w.temp) + Sum(s.installs, w.install) + Sum(s.flushes, w.flush)
  }

  lemma {:induction false} SumOfOnes<K, V>(m: map<K, V>, f: V -> nat)
    requires forall v :: f(v) == 1
    ensures Sum(m, f) == |m|
    decreases |m|
  {
    if m != map[] {
      var k :| k in m;
      SumRemove(m, f, k);
      SizeRemove(m, k);
      SumOfOnes(m - {k}, f);
    }
  }

  /** The ledger's two totals. */
  lemma Ledger(s: State)
    ensures Charge(s) == Weight(s, InBytes()) && Entries(s) == Weight(s, InEntries())
  {
    SumOfOnes(s.blocks, InEntries().block);
    SumOfOnes(s.objects, InEntries().whole);
    SumOfOnes(s.parts, InEntries().part);
    SumOfOnes(s.temps, InEntries().temp);
    SumOfOnes(s.installs, InEntries().install);
  }

  ghost function OptWeight<V>(v: Option<V>, f: V -> nat): nat {
    if v.Some? then f(v.value) else 0
  }

  lemma SumPut<K, V>(m: map<K, V>, k: K, v: Option<V>, f: V -> nat)
    ensures Sum(Put(m, k, v), f) == Sum(m, f) - OptWeight(Lookup(m, k), f) + OptWeight(v, f)
  {
    if v.Some? {
      SumUpdate(m, f, k, v.value);
    } else if k in m {
      SumRemove(m, f, k);
    } else {
      assert m - {k} == m;
    }
  }

  /** Only detached flushes count, and then no more than the block they wrote. */
  ghost predicate Fair(s: State, w: Weights) {
    && (forall f: Flush :: !f.detached ==> w.flush(f) == 0)
    && (forall u :: u in s.flushes && !s.flushes[u].detached && s.flushes[u].id in s.blocks ==>
          w.flush(s.flushes[u].(detached := true)) <= w.block(s.blocks[s.flushes[u].id]))
  }

  /** Of all flushes of a block only the current entry's is not detached yet. */
  lemma DetachIs(s: State, id: BlockId)
    requires FlushInv(s) && TagsInv(s)
    ensures DropAll(s, {id}).flushes ==
      if Flushing(s, id) then s.flushes[s.blocks[id].tag := s.flushes[s.blocks[id].tag].(detached := true)]
        else s.flushes
  {
    assert forall u :: u in s.flushes ==> FlushAt(s, u);
  }

  /** What detaching the flush of a block adds. */
  ghost function DetachCost(s: State, id: BlockId, w: Weights): nat {
    if Flushing(s, id) then w.flush(s.flushes[s.blocks[id].tag].(detached := true)) else 0
  }

  lemma DetachWeight(s: State, id: BlockId, w: Weights)
    requires FlushInv(s) && TagsInv(s) && Fair(s, w)
    ensures Sum(DropAll(s, {id}).flushes, w.flush) == Sum(s.flushes, w.flush) + DetachCost(s, id, w)
    ensures DetachCost(s, id, w) <= OptWeight(Lookup(s.blocks, id), w.block)
  {
    DetachIs(s, id);
    if Flushing(s, id) {
      var u := s.blocks[id].tag;
      assert FlushAt(s, u);
      SumUpdate(s.flushes, w.flush, u, s.flushes[u].(detached := true));
    }
  }

  /** A step on one block and one sparse file changes only their weights. */
  lemma EditWeight(s: State, e: Edit, detach: bool, tags: nat, w: Weights)
    requires FlushInv(s) && TagsInv(s) && Fair(s, w)
    ensures Weight(Edited(s, e, detach, {}, tags), w) ==
      Weight(s, w) - OptWeight(Lookup(s.blocks, e.id), w.block) + OptWeight(e.block, w.block)
                   - OptWeight(Lookup(s.parts, e.id.file), w.part) + OptWeight(e.part, w.part)
                   + (if detach then DetachCost(s, e.id, w) else 0)
  {
    SumPut(s.blocks, e.id, e.block, w.block);
    SumPut(s.parts, e.id.file, e.part, w.part);
    assert s.flushes - {} == s.flushes;
    assert DropAll(s, {e.id}).flushes - {} == DropAll(s, {e.id}).flushes;
    DetachWeight(s, e.id, w);
  }

  lemma EndedFlushes(s: State, id: BlockId, detach: bool, u: nat, w: Weights)
    requires FlushInv(s) && TagsInv(s) && Fair(s, w) && u in s.flushes && !s.flushes[u].detached && id in s.blocks &&
      s.blocks[id].tag == u
    ensures Sum((if detach then DropAll(s, {id}).flushes else s.flushes) - {u}, w.flush) == Sum(s.flushes, w.flush)
  {
    DetachIs(s, id);
    assert (if detach then DropAll(s, {id}).flushes else s.flushes) - {u} == s.flushes - {u};
    SumRemove(s.flushes, w.flush, u);
  }

  /** The end of a flush that was not detached. */
  lemma FlushEditWeight(s: State, e: Edit, detach: bool, u: nat, w: Weights)
    requires FlushInv(s) && TagsInv(s) && Fair(s, w)
    requires u in s.flushes && !s.flushes[u].detached && e.id in s.blocks && s.blocks[e.id].tag == u
    ensures Weight(Edited(s, e, detach, {u}, 0), w) ==
      Weight(s, w) - w.block(s.blocks[e.id]) + OptWeight(e.block, w.block)
                   - OptWeight(Lookup(s.parts, e.id.file), w.part) + OptWeight(e.part, w.part)
  {
    hide FlushInv, TagsInv, Fair, DropAll;
    SumPut(s.blocks, e.id, e.block, w.block);
    SumPut(s.parts, e.id.file, e.part, w.part);
    EndedFlushes(s, e.id, detach, u, w);
  }

  lemma DetachedOver(s: State, u: nat, w: Weights)
    requires u in s.flushes
    ensures Weight(s.(flushes := s.flushes - {u}), w) == Weight(s, w) - w.flush(s.flushes[u])
  {
    SumRemove(s.flushes, w.flush, u);
  }

  /** The two ways of weighing. */
  ghost predicate Ours(w: Weights) {
    w == InBytes() || w == InEntries()
  }

  /** A block in flight weighs what its flush will. */
  lemma InvFair(s: State, t: Truth, w: Weights)
    requires Inv(s, t) && Ours(w)
    ensures Fair(s, w)
  {
    hide TagsInv, WholeInv, InstallInv, LockOk, PartOk, Covered, Piece, PieceCount;
    forall u | u in s.flushes && !s.flushes[u].detached && s.flushes[u].id in s.blocks
      ensures w.flush(s.flushes[u].(detached := true)) <= w.block(s.blocks[s.flushes[u].id])
    {
      assert FlushAt(s, u);
      assert KeyOk(s, t, s.flushes[u].id.file) && BlockAt(s, t, s.flushes[u].id);
    }
  }

  // Many blocks of one file dropped.

  lemma DropOne(s: State, id: BlockId, ids: set<BlockId>)
    requires id in ids
    ensures DropAll(s, ids) == DropAll(DropAll(s, {id}), ids - {id})
  {
    var s1 := DropAll(s, {id});
    assert s.blocks - ids == (s.blocks - {id}) - (ids - {id});
    assert DropAll(s, ids).flushes == DropAll(s1, ids - {id}).flushes;
  }

  lemma DropOneKeeps(s: State, id: BlockId, w: Weights)
    requires FlushInv(s) && TagsInv(s) && Fair(s, w)
    ensures FlushInv(DropAll(s, {id})) && TagsInv(DropAll(s, {id})) && Fair(DropAll(s, {id}), w)
  {
    var s' := DropAll(s, {id});
    forall u | u in s'.flushes ensures FlushAt(s', u) { assert FlushAt(s, u); }
  }

  lemma DropOneWeight(s: State, id: BlockId, w: Weights)
    requires FlushInv(s) && TagsInv(s) && Fair(s, w)
    ensures Weight(DropAll(s, {id}), w) <= Weight(s, w)
  {
    DetachWeight(s, id, w);
    SumPut(s.blocks, id, None, w.block);
  }

  lemma {:induction false} DropWeight(s: State, ids: set<BlockId>, w: Weights)
    requires FlushInv(s) && TagsInv(s) && Fair(s, w)
    ensures Weight(DropAll(s, ids), w) <= Weight(s, w)
    decreases |ids|
  {
    hide FlushInv, TagsInv, Fair, DropAll, Weight;
    if ids == {} {
      DropNone(s);
    } else {
      var id :| id in ids;
      DropOne(s, id, ids);
      DropOneKeeps(s, id, w);
      DropOneWeight(s, id, w);
      DropWeight(DropAll(s, {id}), ids - {id}, w);
    }
  }

  lemma DropNone(s: State)
    ensures DropAll(s, {}) == s
  {
    assert s.blocks - {} == s.blocks;
    assert DropAll(s, {}).flushes == s.flushes;
  }
}
