/** In which order eviction takes entries, by the fields that record their use, and what a
    lookup does to these. */
module CacheOrder {

  import opened Common
  import opened CacheModel
  import opened CacheVictims
  import opened CacheIndex

  /** An entry that was used so is no colder than any that may go: entries used once before
      entries used again, and then by the time of their last use. */
  predicate NoColder(hot: bool, at: int, hot': bool, at': int) {
    (hot' ==> hot) && (hot' == hot ==> at' <= at)
  }

  /** Every entry that may go, against this use. */
  ghost predicate ColdestUse(s: State, exclude: Option<BlockId>, hot: bool, at: int) {
    && (forall id :: id in s.blocks && Evictable(s, BlockVictim(id), exclude) ==>
          NoColder(s.blocks[id].hot, s.blocks[id].lastAccess, hot, at))
    && (forall o :: o in s.objects && Evictable(s, ObjectVictim(o), exclude) ==>
          NoColder(s.objects[o].hot, s.objects[o].lastAccess, hot, at))
    && (forall k :: k in s.parts && Evictable(s, PartVictim(k), exclude) ==>
          NoColder(s.parts[k].hot, s.parts[k].lastAccess, hot, at))
  }

  /** What eviction takes: a temporary file while there is one; otherwise an entry that no
      other one that may go is colder than, by the entries' own use. */
  lemma TakesColdest(s: State, v: Victim, exclude: Option<BlockId>)
    requires Evictable(s, v, exclude) && Chosen(s, v, exclude)
    ensures v.TempVictim? <==> s.temps != map[]
    ensures match v
      case TempVictim(_) => true
      case BlockVictim(id) => ColdestUse(s, exclude, s.blocks[id].hot, s.blocks[id].lastAccess)
      case ObjectVictim(o) => ColdestUse(s, exclude, s.objects[o].hot, s.objects[o].lastAccess)
      case PartVictim(k) => ColdestUse(s, exclude, s.parts[k].hot, s.parts[k].lastAccess)
  {
    match v {
      case TempVictim(_) =>
      case BlockVictim(id) => AgainstAll(s, v, exclude, s.blocks[id].hot, s.blocks[id].lastAccess);
      case ObjectVictim(o) => AgainstAll(s, v, exclude, s.objects[o].hot, s.objects[o].lastAccess);
      case PartVictim(k) => AgainstAll(s, v, exclude, s.parts[k].hot, s.parts[k].lastAccess);
    }
  }

  lemma AgainstAll(s: State, v: Victim, exclude: Option<BlockId>, hot: bool, at: int)
    requires Evictable(s, v, exclude) && Chosen(s, v, exclude) && !v.TempVictim? && Rank(s, v) == (hot, at)
    ensures ColdestUse(s, exclude, hot, at)
  {
    hide Evictable;
    forall id | id in s.blocks && Evictable(s, BlockVictim(id), exclude)
      ensures NoColder(s.blocks[id].hot, s.blocks[id].lastAccess, hot, at)
    {
      assert Candidate(s, BlockVictim(id), exclude);
    }
    forall o | o in s.objects && Evictable(s, ObjectVictim(o), exclude)
      ensures NoColder(s.objects[o].hot, s.objects[o].lastAccess, hot, at)
    {
      assert Candidate(s, ObjectVictim(o), exclude);
    }
    forall k | k in s.parts && Evictable(s, PartVictim(k), exclude)
      ensures NoColder(s.parts[k].hot, s.parts[k].lastAccess, hot, at)
    {
      assert Candidate(s, PartVictim(k), exclude);
    }
  }

  /** After the pass for expired entries, everything that may go was used since the cutoff. */
  lemma RecentExactly(s: State, cutoff: int, exclude: Option<BlockId>)
    ensures Recent(s, cutoff, exclude) <==>
      && (forall id :: id in s.blocks && Evictable(s, BlockVictim(id), exclude) ==> s.blocks[id].lastAccess >= cutoff)
      && (forall o :: o in s.objects && Evictable(s, ObjectVictim(o), exclude) ==> s.objects[o].lastAccess >= cutoff)
      && (forall k :: k in s.parts && Evictable(s, PartVictim(k), exclude) ==> s.parts[k].lastAccess >= cutoff)
  {
    if Recent(s, cutoff, exclude) {
      forall id | id in s.blocks && Evictable(s, BlockVictim(id), exclude) ensures s.blocks[id].lastAccess >= cutoff {
        assert Candidate(s, BlockVictim(id), exclude);
      }
      forall o | o in s.objects && Evictable(s, ObjectVictim(o), exclude) ensures s.objects[o].lastAccess >= cutoff {
        assert Candidate(s, ObjectVictim(o), exclude);
      }
      forall k | k in s.parts && Evictable(s, PartVictim(k), exclude) ensures s.parts[k].lastAccess >= cutoff {
        assert Candidate(s, PartVictim(k), exclude);
      }
    }
  }

  // Lookups.

  function Used(b: Block, now: int): Block {
    b.(lastAccess := now, hot := true)
  }

  lemma BlockMarks(s: State, k: FileKey, idx: nat, now: int)
    ensures var s', id, sparse := TouchBlock(s, k, idx, now), BlockId(k, idx), k in s.parts && idx in s.parts[k].bits;
      && s' == s.(blocks := s'.blocks, parts := s'.parts)
      && s'.blocks == (if !sparse && id in s.blocks then s.blocks[id := Used(s.blocks[id], now)] else s.blocks)
      && s'.parts == if sparse then s.parts[k := s.parts[k].(lastAccess := now, hot := true)] else s.parts
  {
  }

  lemma WholeMarks(s: State, k: FileKey, now: int)
    ensures var s', o := TouchWhole(s, k, now), if k in s.files then s.files[k].whole else None;
      && s' == s.(objects := s'.objects)
      && s'.objects == if o.Some? && o.value in s.objects
           then s.objects[o.value := s.objects[o.value].(lastAccess := now, hot := true)] else s.objects
  {
    if k in s.files && s.files[k].whole.Some? && s.files[k].whole.value in s.objects {
      var o := s.files[k].whole.value;
      assert TouchWhole(s, k, now) == s.(objects := s.objects[o := s.objects[o].(lastAccess := now, hot := true)]);
    } else {
      assert TouchWhole(s, k, now) == s;
    }
  }

  /** A lookup marks what it finds as used again, now: the sparse file if it has the block,
      or else the block's entry, and the complete file; it changes nothing else. */
  lemma LookUpMarks(s: State, k: FileKey, idx: nat, now: int)
    ensures var s', id := TouchWhole(TouchBlock(s, k, idx, now), k, now), BlockId(k, idx);
      var sparse, o := k in s.parts && idx in s.parts[k].bits, if k in s.files then s.files[k].whole else None;
      && s' == s.(blocks := s'.blocks, parts := s'.parts, objects := s'.objects)
      && s'.blocks == (if !sparse && id in s.blocks then s.blocks[id := Used(s.blocks[id], now)] else s.blocks)
      && s'.parts == (if sparse then s.parts[k := s.parts[k].(lastAccess := now, hot := true)] else s.parts)
      && s'.objects == if o.Some? && o.value in s.objects
           then s.objects[o.value := s.objects[o.value].(lastAccess := now, hot := true)] else s.objects
  {
    hide TouchBlock, TouchWhole;
    BlockMarks(s, k, idx, now);
    WholeMarks(TouchBlock(s, k, idx, now), k, now);
  }

  /** What was looked up just now is not the next to go while something may go that was used
      once only, or longer ago. */
  lemma JustUsedStays(s: State, k: FileKey, idx: nat, now: int, w: BlockId, v: Victim, exclude: Option<BlockId>)
    requires BlockId(k, idx) in s.blocks && !(k in s.parts && idx in s.parts[k].bits) && w in s.blocks
    requires w != BlockId(k, idx) && (!s.blocks[w].hot || s.blocks[w].lastAccess < now)
    requires var s' := TouchWhole(TouchBlock(s, k, idx, now), k, now);
      Evictable(s', BlockVictim(w), exclude) && Evictable(s', v, exclude) && Chosen(s', v, exclude)
    ensures v != BlockVictim(BlockId(k, idx))
  {
    hide Chosen, TouchBlock, TouchWhole, Evictable;
    LookUpMarks(s, k, idx, now);
    TakesColdest(TouchWhole(TouchBlock(s, k, idx, now), k, now), v, exclude);
  }
  // Scans.

  predicate Hot(s: State, v: Victim) {
    match v
    case TempVictim(_) => false
    case BlockVictim(id) => id in s.blocks && s.blocks[id].hot
    case ObjectVictim(o) => o in s.objects && s.objects[o].hot
    case PartVictim(k) => k in s.parts && s.parts[k].hot
  }

  /** A scan that puts blocks one after the other takes nothing that was read again: while
      the block put last may go, whatever eviction takes is not hot. */
  lemma ScanSparesHot(s: State, id: BlockId, data: Bytes, size: nat, async: bool, now: int, v: Victim,
                      exclude: Option<BlockId>)
    requires var s' := PutBlock(s, id, data, size, async, now);
      Evictable(s', BlockVictim(id), exclude) && Evictable(s', v, exclude) && Chosen(s', v, exclude)
    ensures !Hot(PutBlock(s, id, data, size, async, now), v)
  {
    hide Chosen, Evictable, PutBlock;
    var s' := PutBlock(s, id, data, size, async, now);
    PutIsCold(s, id, data, size, async, now);
    TakesColdest(s', v, exclude);
  }

  lemma PutIsCold(s: State, id: BlockId, data: Bytes, size: nat, async: bool, now: int)
    ensures var s' := PutBlock(s, id, data, size, async, now);
      id in s'.blocks && !s'.blocks[id].hot && s'.blocks[id].lastAccess == now
  {
    hide Known;
  }
}
