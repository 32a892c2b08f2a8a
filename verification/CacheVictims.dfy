/** Which entry eviction takes next: cold before hot, then the longest unused. */
module CacheVictims {

  import opened Common
  import opened CacheModel

  /** Whether the entry was used again, and when last. */
  function Rank(s: State, v: Victim): (bool, int)
    requires Evictable(s, v, None)
  {
    match v
    case TempVictim(_) => (false, 0)
    case BlockVictim(id) => (s.blocks[id].hot, s.blocks[id].lastAccess)
    case ObjectVictim(o) => (s.objects[o].hot, s.objects[o].lastAccess)
    case PartVictim(k) => (s.parts[k].hot, s.parts[k].lastAccess)
  }

  predicate Colder(a: (bool, int), b: (bool, int)) {
    (!a.0 && b.0) || (a.0 == b.0 && a.1 < b.1)
  }

  /** An entry that may go; left-over temporary files are taken separately. */
  predicate Candidate(s: State, v: Victim, exclude: Option<BlockId>) {
    !v.TempVictim? && Evictable(s, v, exclude)
  }

  /** No candidate among those seen is colder. */
  ghost predicate Coldest(s: State, best: Option<Victim>, exclude: Option<BlockId>, seen: iset<Victim>) {
    && (best.Some? ==> Candidate(s, best.value, exclude))
    && (forall v :: v in seen && Candidate(s, v, exclude) ==> best.Some? && !Colder(Rank(s, v), Rank(s, best.value)))
  }

  /** `better`: the candidate replaces the best so far when it is colder. */
  function Better(s: State, best: Option<Victim>, v: Victim, exclude: Option<BlockId>): (r: Option<Victim>)
    requires Candidate(s, v, exclude) && (best.Some? ==> Candidate(s, best.value, exclude))
    ensures r.Some? && Candidate(s, r.value, exclude)
  {
    if best.None? || Colder(Rank(s, v), Rank(s, best.value)) then Some(v) else best
  }

  lemma BetterIsColdest(s: State, best: Option<Victim>, v: Victim, exclude: Option<BlockId>, seen: iset<Victim>)
    requires Coldest(s, best, exclude, seen) && Candidate(s, v, exclude)
    ensures Coldest(s, Better(s, best, v, exclude), exclude, seen + iset{v})
  {
    hide Rank;
  }

  lemma Skipped(s: State, best: Option<Victim>, v: Victim, exclude: Option<BlockId>, seen: iset<Victim>)
    requires Coldest(s, best, exclude, seen) && !Candidate(s, v, exclude)
    ensures Coldest(s, best, exclude, seen + iset{v})
  {
    hide Rank, Candidate;
  }

  ghost function Seen(vs: set<Victim>): iset<Victim> {
    iset v | v in vs
  }

  /** One of the three passes over the index. */
  method Scan(s: State, exclude: Option<BlockId>, first: Option<Victim>, pass: set<Victim>, ghost seen: set<Victim>)
    returns (best: Option<Victim>)
    requires Coldest(s, first, exclude, Seen(seen))
    ensures Coldest(s, best, exclude, Seen(seen + pass))
  {
    hide Coldest, Candidate, Evictable, Rank;
    best := first;
    var rest := pass;
    assert seen + (pass - rest) == seen;
    while rest != {}
      invariant rest <= pass && Coldest(s, best, exclude, Seen(seen + (pass - rest)))
      decreases |rest|
    {
      var v :| v in rest;
      ghost var before := Seen(seen + (pass - rest));
      if Candidate(s, v, exclude) {
        BetterIsColdest(s, best, v, exclude, before);
        CandidateOf(s, best, exclude, before);
        best := Better(s, best, v, exclude);
      } else {
        Skipped(s, best, v, exclude, before);
      }
      rest := rest - {v};
      assert Seen(seen + (pass - rest)) == before + iset{v};
    }
    assert seen + (pass - rest) == seen + pass;
  }

  lemma NothingSeen(s: State, exclude: Option<BlockId>)
    ensures Coldest(s, None, exclude, Seen({}))
  {
  }

  lemma CandidateOf(s: State, best: Option<Victim>, exclude: Option<BlockId>, seen: iset<Victim>)
    requires Coldest(s, best, exclude, seen)
    ensures best.Some? ==> Candidate(s, best.value, exclude)
  {
  }

  function BlockVictims(s: State): set<Victim> { set id | id in s.blocks :: BlockVictim(id) }

  function ObjectVictims(s: State): set<Victim> { set o | o in s.objects :: ObjectVictim(o) }

  function PartVictims(s: State): set<Victim> { set k | k in s.parts :: PartVictim(k) }

  /** The coldest entry that may go, if there is one. */
  method Pick(s: State, exclude: Option<BlockId>) returns (best: Option<Victim>)
    ensures best.Some? ==> Candidate(s, best.value, exclude)
    ensures best.Some? ==> forall v :: Candidate(s, v, exclude) ==> !Colder(Rank(s, v), Rank(s, best.value))
    ensures best.None? ==> forall v :: !Candidate(s, v, exclude)
  {
    hide Coldest, Candidate, Rank;
    var b, o, p := BlockVictims(s), ObjectVictims(s), PartVictims(s);
    NothingSeen(s, exclude);
    best := Scan(s, exclude, None, b, {});
    best := Scan(s, exclude, best, o, {} + b);
    best := Scan(s, exclude, best, p, {} + b + o);
    ColdestOfAll(s, best, exclude, {} + b + o + p);
  }

  lemma ColdestOfAll(s: State, best: Option<Victim>, exclude: Option<BlockId>, all: set<Victim>)
    requires Coldest(s, best, exclude, Seen(all)) && BlockVictims(s) <= all && ObjectVictims(s) <= all &&
      PartVictims(s) <= all
    ensures best.Some? ==> Candidate(s, best.value, exclude)
    ensures best.Some? ==> forall v :: Candidate(s, v, exclude) ==> !Colder(Rank(s, v), Rank(s, best.value))
    ensures best.None? ==> forall v :: !Candidate(s, v, exclude)
  {
    forall v | Candidate(s, v, exclude) ensures v in Seen(all) {
      match v {
        case BlockVictim(id) => assert v in BlockVictims(s);
        case ObjectVictim(o) => assert v in ObjectVictims(s);
        case PartVictim(k) => assert v in PartVictims(s);
      }
    }
  }
}
