/** Runs of honest callers and workers in which a hand-over takes an empty cache past its
    caps, or leaves a file claiming a block that is nowhere. */
module CacheOverruns {

  import opened Common
  import opened Sums
  import opened CacheModel
  import opened CacheInvariant
  import opened CacheSteps
  import opened CacheBudget
  import opened CacheBudgetSteps
  import opened CacheBudgetHands
  import opened CacheKeepsHands
  import opened CacheRuns
  import opened CacheCaps
  import opened CacheClaims
  import opened CacheFindings

  /** One more step at the end of a run. */
  lemma {:induction false} RunOn(s: State, t: Truth, acts: seq<Action>, a: Action)
    requires LawfulRun(s, t, acts) && Lawful(Run(s, t, acts), t, a)
    ensures LawfulRun(s, t, acts + [a]) && Run(s, t, acts + [a]) == Next(Run(s, t, acts), a)
    decreases |acts|
  {
    hide Enabled, Honest, SpoilsNothing, Next;
    if acts == [] {
      assert (acts + [a])[1..] == [];
    } else {
      RunOn(Next(s, acts[0]), t, acts[1..], a);
      assert (acts + [a])[1..] == acts[1..] + [a];
    }
  }

  // PutAsync of a block that is not there.

  /** The block is in memory, and nothing else of what a hand-over looks at has changed. */
  ghost predicate PutIn(s: State, s': State, id: BlockId, T: Bytes, size: nat) {
    && s'.cfg == s.cfg && s'.lock.Free? && s'.parts == s.parts && s'.notes == s.notes && s'.flushes == s.flushes
    && id in s'.blocks && s'.blocks[id].mem == Some(T) && s'.blocks[id].tag >= s.nextTag
    && s'.blocks == s.blocks[id := s'.blocks[id]]
    && id.file in s'.files && s'.files[id.file].size == size && id.index in s'.files[id.file].present
    && (id.file !in s.files ==> !FileProtected(s', id.file))
  }

  lemma AskAsync(s: State, t: Truth, id: BlockId, now: int)
    requires s.lock.Free? && id !in s.blocks && id.index < BlockTotal(s.cfg, t, id.file)
    requires CapsHold(s, |BlockTruth(s.cfg, t, id)|, 1)
    ensures var T, size := BlockTruth(s.cfg, t, id), |t(id.file)|;
      var a1, a2 := Admit(AskBlock(id, |T|, size)), Admit(Grant);
      && Lawful(s, t, a1) && Lawful(Next(s, a1), t, a2)
      && Next(Next(s, a1), a2) == s.(lock := Granted(BlockReq(id, |T|, size)))
  {
    hide Charge, Entries, BlockTruth;
    SameLedger(s, s.(lock := Asking(BlockReq(id, |BlockTruth(s.cfg, t, id)|, |t(id.file)|),
                                    |BlockTruth(s.cfg, t, id)|, 1)), SweepReq);
  }

  lemma CommitAsyncStep(s: State, t: Truth, id: BlockId, now: int)
    requires s.lock == Granted(BlockReq(id, |BlockTruth(s.cfg, t, id)|, |t(id.file)|)) && s.flushes == map[]
    ensures var T, size := BlockTruth(s.cfg, t, id), |t(id.file)|;
      var a := Store(CommitAsync(T, now));
      Lawful(s, t, a) && Next(s, a) == PutBlock(s, id, T, size, true, now) && PutIn(s, Next(s, a), id, T, size)
  {
    hide BlockTruth, PutBlock, PutIn;
    AsyncIn(s, id, BlockTruth(s.cfg, t, id), |t(id.file)|, now);
  }

  lemma AsyncIn(s: State, id: BlockId, T: Bytes, size: nat, now: int)
    requires s.flushes == map[]
    ensures PutIn(s, PutBlock(s, id, T, size, true, now), id, T, size)
  {
    hide Known;
    KnownFields(s, id.file);
    KnownTag(s, id.file);
    if id.file !in s.files { NewRecord(s, id.file); }
  }

  lemma NewRecord(s: State, k: FileKey)
    requires k !in s.files
    ensures Known(s, k).files == s.files[k := FileState(s.nextTag, 0, {}, false, false, None, {}, 0)]
  {
  }

  /** The three steps of the call. */
  lemma AsyncPut(s: State, t: Truth, acts: seq<Action>, id: BlockId, now: int) returns (more: seq<Action>)
    requires Inv(s, t) && LawfulRun(s, t, acts)
    requires var s1 := Run(s, t, acts);
      && s1.lock.Free? && s1.flushes == map[] && id !in s1.blocks && id.index < BlockTotal(s1.cfg, t, id.file)
      && CapsHold(s1, |BlockTruth(s1.cfg, t, id)|, 1)
    ensures LawfulRun(s, t, more)
    ensures var s1, s2 := Run(s, t, acts), Run(s, t, more);
      var T := BlockTruth(s1.cfg, t, id);
      && Inv(s2, t) && PutIn(s1, s2, id, T, |t(id.file)|)
      && Charge(s2) == Charge(s1) + |T| && Entries(s2) == Entries(s1) + 1
  {
    hide Inv, Enabled, Honest, SpoilsNothing, Next, LawfulRun, Run, BlockTruth, PutBlock, PutIn, Charge, Entries,
         CapsHold;
    var s1 := Run(s, t, acts);
    var T, size := BlockTruth(s1.cfg, t, id), |t(id.file)|;
    AskAsync(s1, t, id, now);
    var a1, a2, a3 := Admit(AskBlock(id, |T|, size)), Admit(Grant), Store(CommitAsync(T, now));
    var s3 := s1.(lock := Granted(BlockReq(id, |T|, size)));
    CommitAsyncStep(s3, t, id, now);
    RunOn(s, t, acts, a1);
    RunOn(s, t, acts + [a1], a2);
    RunOn(s, t, acts + [a1] + [a2], a3);
    more := acts + [a1] + [a2] + [a3];
    RunKeeps(s, t, acts + [a1] + [a2]);
    RunKeeps(s, t, more);
    PutBlockCharge(s3, t, id, T, size, true, now);
    SameLedger(s1, s3, SweepReq);
    PutInFrom(s1, s3, Run(s, t, more), id, T, size);
  }

  lemma PutInFrom(s: State, s1: State, s2: State, id: BlockId, T: Bytes, size: nat)
    requires PutIn(s1, s2, id, T, size) && s1 == s.(lock := s1.lock)
    ensures PutIn(s, s2, id, T, size)
  {
  }

  // The flush of that block, up to the note.

  lemma BeginStep(s: State, t: Truth, id: BlockId)
    requires s.lock.Free? && id in s.blocks && s.blocks[id].mem.Some? && s.flushes == map[]
    ensures Lawful(s, t, Do(BeginFlush(id))) && Next(s, Do(BeginFlush(id))) == FlushBegin(s, id)
  {
  }

  lemma EnsureStep(s: State, t: Truth, u: nat, now: int)
    requires CanDo(s, EnsurePart(u, now))
    ensures Lawful(s, t, Do(EnsurePart(u, now))) && Next(s, Do(EnsurePart(u, now))) == HandEnsure(s, u, now)
  {
    hide HandEnsure;
  }

  lemma DropStep(s: State, t: Truth, u: nat)
    requires CanDo(s, DropHanded(u))
    ensures Lawful(s, t, Do(DropHanded(u))) && Next(s, Do(DropHanded(u))) == HandDrop(s, u)
  {
    hide HandDrop;
  }

  lemma NoteStep(s: State, t: Truth, u: nat, now: int)
    requires CanDo(s, NoteHanded(u, now))
    ensures Lawful(s, t, Do(NoteHanded(u, now))) && Next(s, Do(NoteHanded(u, now))) == HandNote(s, u, now)
  {
    hide HandNote;
  }

  /** Beginning the flush changes only the flush, and makes the hand-over possible. */
  lemma Begun(s: State, t: Truth, id: BlockId, now: int)
    requires Inv(s, t) && s.lock.Free? && id in s.blocks && s.flushes == map[] && id.file !in s.parts
    requires s.blocks[id].mem == Some(BlockTruth(s.cfg, t, id)) && WholeLayout(s.cfg, |t(id.file)|)
    ensures var s', u := FlushBegin(s, id), s.blocks[id].tag;
      && s'.flushes.Keys == {u} && s'.flushes[u].id == id && s'.flushes[u].data == BlockTruth(s.cfg, t, id)
      && s'.cfg == s.cfg && s'.lock.Free? && s'.notes == s.notes && s'.blocks == s.blocks && s'.parts == s.parts
      && CanDo(s', EnsurePart(u, now)) && Owns(s', u) && s'.files == s.files
      && Charge(s') == Charge(s) && Entries(s') == Entries(s)
  {
    hide KeysInv, TagsInv, WholeInv, FlushInv, InstallInv, HandInv, LockOk, Charge, Entries;
    InvKnown(s, t, id);
    BeginFlushNothing(s, id);
  }

  lemma BeginFlushNothing(s: State, id: BlockId)
    requires id in s.blocks && s.blocks[id].mem.Some? && s.flushes == map[]
    ensures Charge(FlushBegin(s, id)) == Charge(s) && Entries(FlushBegin(s, id)) == Entries(s)
  {
    var s', u := FlushBegin(s, id), s.blocks[id].tag;
    SumUpdate(s.flushes, DetachedBytes, u, s'.flushes[u]);
    SumUpdate(s.flushes, DetachedOne, u, s'.flushes[u]);
  }

  lemma FreshCharge(s: State)
    requires Fresh(s) && s.temps == map[]
    ensures Charge(s) == 0 && Entries(s) == 0
  {
  }

  /** A put and the beginning of its flush in a cache that holds nothing: the sparse file
      is made. */
  lemma FirstHand(s: State, t: Truth, id: BlockId, now: int) returns (acts: seq<Action>, u: nat)
    requires Fresh(s) && s.temps == map[] && id.index < BlockTotal(s.cfg, t, id.file)
    requires WholeLayout(s.cfg, |t(id.file)|) && CapsHold(s, |BlockTruth(s.cfg, t, id)|, 1)
    ensures LawfulRun(s, t, acts)
    ensures var s', T := Run(s, t, acts), BlockTruth(s.cfg, t, id);
      && Inv(s', t) && s'.cfg == s.cfg && s'.lock.Free? && s'.notes == map[] && Charge(s') == |T| && Entries(s') == 2
      && s'.flushes.Keys == {u} && CanDo(s', DropHanded(u)) && s'.flushes[u].part.Some?
      && s'.flushes[u].id == id && s'.flushes[u].data == T
      && Live(s', Note(id, T, s'.flushes[u].part.value)) && s'.parts[id.file].bits == {}
      && s'.blocks.Keys == {id} && id.file in s'.files && id.index in s'.files[id.file].present
      && !FileProtected(s', id.file)
  {
    hide Inv, Enabled, Honest, SpoilsNothing, Next, LawfulRun, Run, BlockTruth, Charge, Entries, CapsHold, FlushBegin,
         HandEnsure, WholeLayout, CanDo;
    var T := BlockTruth(s.cfg, t, id);
    FreshInv(s, t);
    FreshCharge(s);
    NoSteps(s, t);
    acts := AsyncPut(s, t, [], id, now);
    var s1 := Run(s, t, acts);
    u := s1.blocks[id].tag;
    Begun(s1, t, id, now);
    BeginStep(s1, t, id);
    RunOn(s, t, acts, Do(BeginFlush(id)));
    acts := acts + [Do(BeginFlush(id))];
    var s2 := FlushBegin(s1, id);
    RunKeeps(s, t, acts);
    EnsureStep(s2, t, u, now);
    RunOn(s, t, acts, Do(EnsurePart(u, now)));
    acts := acts + [Do(EnsurePart(u, now))];
    RunKeeps(s, t, acts);
    EnsuredFirst(s2, t, u, now);
  }

  lemma NoSteps(s: State, t: Truth)
    ensures LawfulRun(s, t, []) && Run(s, t, []) == s
  {
  }

  lemma EnsuredFirst(s: State, t: Truth, u: nat, now: int)
    requires Inv(s, t) && CanDo(s, EnsurePart(u, now)) && Owns(s, u) && s.flushes[u].id.file !in s.parts
    ensures var s', f := HandEnsure(s, u, now), s.flushes[u];
      && s'.cfg == s.cfg && s'.lock == s.lock && s'.notes == s.notes && s'.blocks == s.blocks
      && Charge(s') == Charge(s) && Entries(s') == Entries(s) + 1
      && s'.flushes.Keys == s.flushes.Keys && CanDo(s', DropHanded(u)) && s'.flushes[u].part.Some?
      && s'.flushes[u].id == f.id && s'.flushes[u].data == f.data
      && Live(s', Note(f.id, f.data, s'.flushes[u].part.value)) && s'.parts[f.id.file].bits == {}
      && f.id.file in s'.files && s'.files == s.files[f.id.file := s'.files[f.id.file]]
      && (f.id.file in s.files ==> s'.files[f.id.file] == s.files[f.id.file].(size := f.size))
  {
    hide Inv, HandEnsure, Charge, Entries;
    EnsureCharge(s, t, u, now);
    EnsuredHands(s, u, now);
    EnsuredKeys(s, u, now);
    EnsuredFiles(s, u, now);
  }

  lemma EnsuredFiles(s: State, u: nat, now: int)
    requires u in s.flushes && s.flushes[u].id.file !in s.parts
    ensures var s', f := HandEnsure(s, u, now), s.flushes[u];
      && f.id.file in s'.files && s'.files == s.files[f.id.file := s'.files[f.id.file]]
      && (f.id.file in s.files ==> s'.files[f.id.file] == s.files[f.id.file].(size := f.size))
  {
    hide MadePart, PartBefore;
    MadeFields(Known(s, s.flushes[u].id.file), s.flushes[u].id.file, s.flushes[u].size, now);
  }

  lemma EnsuredKeys(s: State, u: nat, now: int)
    requires u in s.flushes
    ensures HandEnsure(s, u, now).flushes.Keys == s.flushes.Keys
  {
    hide WithPart;
  }

  /** Room for one object is room for the block of a large file. Its flush makes a second
      one. */
  lemma ObjectCapPassed(s: State, t: Truth, id: BlockId, now: int) returns (acts: seq<Action>)
    requires Fresh(s) && s.temps == map[] && id.index < BlockTotal(s.cfg, t, id.file)
    requires WholeLayout(s.cfg, |t(id.file)|) && s.cfg.maxBlocks == 1
    requires s.cfg.maxBytes > 0 ==> |BlockTruth(s.cfg, t, id)| <= s.cfg.maxBytes
    ensures LawfulRun(s, t, acts)
    ensures var s' := Run(s, t, acts); s'.lock.Free? && Entries(s') == 2 && !WithinCaps(s')
  {
    hide Inv, LawfulRun, Run, BlockTruth, Charge, Entries, WholeLayout, CanDo, Live;
    var u;
    FreshCharge(s);
    acts, u := FirstHand(s, t, id, now);
  }

  /** Two blocks that each fit into the byte cap and do not fit together: the second is
      admitted while the first is on its way into its sparse file. */
  lemma ByteCapPassed(s: State, t: Truth, id: BlockId, other: BlockId, now: int) returns (acts: seq<Action>)
    requires Fresh(s) && s.temps == map[] && (s.cfg.maxBlocks == 0 || s.cfg.maxBlocks >= 2)
    requires id.index < BlockTotal(s.cfg, t, id.file) && other.index < BlockTotal(s.cfg, t, other.file)
    requires WholeLayout(s.cfg, |t(id.file)|) && other != id
    requires var n, m := |BlockTruth(s.cfg, t, id)|, |BlockTruth(s.cfg, t, other)|;
      n <= s.cfg.maxBytes && 0 < m <= s.cfg.maxBytes < n + m
    ensures LawfulRun(s, t, acts)
    ensures var s' := Run(s, t, acts);
      && s'.lock.Free? && Charge(s') == |BlockTruth(s.cfg, t, id)| + |BlockTruth(s.cfg, t, other)|
      && !WithinCaps(s')
  {
    hide Inv, Enabled, Honest, SpoilsNothing, Next, LawfulRun, Run, BlockTruth, Charge, Entries, WholeLayout, CanDo,
         HandDrop, HandNote, Live;
    var u;
    FreshCharge(s);
    FreshInv(s, t);
    acts, u := FirstHand(s, t, id, now);
    var s1 := Run(s, t, acts);
    DropStep(s1, t, u);
    RunOn(s, t, acts, Do(DropHanded(u)));
    acts := acts + [Do(DropHanded(u))];
    RunKeeps(s, t, acts);
    var s2 := HandDrop(s1, u);
    DroppedFirst(s1, t, u);
    acts := AsyncPut(s, t, acts, other, now);
    var s3 := Run(s, t, acts);
    StillLive(s2, s3, u);
    CanNote(s3, u, now);
    NoteStep(s3, t, u, now);
    RunOn(s, t, acts, Do(NoteHanded(u, now)));
    acts := acts + [Do(NoteHanded(u, now))];
    HandNoteCharge(s3, t, u, now);
  }

  /** A sparse file evicted between the two sections leaves its file claiming a block that
      is nowhere, whatever is noted afterwards. */
  lemma ClaimIsLost(s: State, t: Truth, id: BlockId, now: int) returns (acts: seq<Action>)
    requires Fresh(s) && s.temps == map[] && id.index < BlockTotal(s.cfg, t, id.file)
    requires WholeLayout(s.cfg, |t(id.file)|) && CapsHold(s, |BlockTruth(s.cfg, t, id)|, 1)
    ensures LawfulRun(s, t, acts)
    ensures var s' := Run(s, t, acts);
      Unbacked(s', id.file, id.index) && !Coming(s', id.file, id.index) && s'.notes == map[] && s'.lock.Asking?
  {
    hide Inv, Enabled, Honest, SpoilsNothing, Next, LawfulRun, Run, BlockTruth, Charge, Entries, WholeLayout, CanDo,
         HandDrop, HandNote, ForgetPart, CapsHold, Unbacked, FileProtected;
    var u;
    FreshInv(s, t);
    acts, u := FirstHand(s, t, id, now);
    var s1 := Run(s, t, acts);
    DropStep(s1, t, u);
    RunOn(s, t, acts, Do(DropHanded(u)));
    acts := acts + [Do(DropHanded(u))];
    var s2, k := HandDrop(s1, u), id.file;
    LeftBehind(s1, u);
    SweepSteps(s2, t, k);
    RunOn(s, t, acts, Admit(AskSweep));
    acts := acts + [Admit(AskSweep)];
    RunOn(s, t, acts, Admit(Evicts(PartVictim(k))));
    acts := acts + [Admit(Evicts(PartVictim(k)))];
    var s4 := ForgetPart(s2.(lock := Asking(SweepReq, 0, 0)), k);
    PartGoneStill(s2, id, u);
    CanNote(s4, u, now);
    NoteStep(s4, t, u, now);
    NotNoted(s4, u, now);
    RunOn(s, t, acts, Do(NoteHanded(u, now)));
    acts := acts + [Do(NoteHanded(u, now))];
    NothingComes(s4.(notes := s4.notes - {u}), id);
    SameClaim(s4, s4.(notes := s4.notes - {u}), id);
  }

  lemma SameClaim(s: State, s': State, id: BlockId)
    requires s' == s.(notes := s'.notes) && Unbacked(s, id.file, id.index)
    ensures Unbacked(s', id.file, id.index)
  {
  }

  lemma LeftBehind(s: State, u: nat)
    requires u in s.flushes && s.flushes[u].part.Some? && s.notes == map[] && s.flushes[u].id.file in s.parts
    requires var id := s.flushes[u].id;
      && id.file in s.files && id.index in s.files[id.file].present && s.parts[id.file].bits == {} && s.lock.Free?
      && !FileProtected(s, id.file)
    ensures var s', id := HandDrop(s, u), s.flushes[u].id;
      && Unbacked(s', id.file, id.index) && s'.notes.Keys == {u} && s'.notes[u].id == id && s'.parts == s.parts
      && s'.files == s.files && s'.lock.Free? && !FileProtected(s', id.file)
  {
  }

  lemma SweepSteps(s: State, t: Truth, k: FileKey)
    requires s.lock.Free? && k in s.parts && !FileProtected(s, k)
    ensures var s1 := s.(lock := Asking(SweepReq, 0, 0));
      && Lawful(s, t, Admit(AskSweep)) && Next(s, Admit(AskSweep)) == s1
      && Lawful(s1, t, Admit(Evicts(PartVictim(k)))) && Next(s1, Admit(Evicts(PartVictim(k)))) == ForgetPart(s1, k)
  {
    hide ForgetPart;
  }

  lemma PartGoneStill(s: State, id: BlockId, u: nat)
    requires Unbacked(s, id.file, id.index) && s.notes.Keys == {u} && s.notes[u].id == id && id.file in s.parts
    requires s.parts[id.file].bits == {}
    ensures var s' := ForgetPart(s.(lock := Asking(SweepReq, 0, 0)), id.file);
      && Unbacked(s', id.file, id.index) && s'.notes == s.notes && !Live(s', s'.notes[u]) && s'.lock.Asking?
  {
  }

  lemma NothingComes(s: State, id: BlockId)
    requires s.notes.Keys == {}
    ensures !Coming(s, id.file, id.index) && s.notes == map[]
  {
  }

  lemma CanNote(s: State, u: nat, now: int)
    requires u in s.notes
    ensures CanDo(s, NoteHanded(u, now))
  {
  }

  lemma StillLive(s: State, s': State, u: nat)
    requires u in s.notes && s'.notes == s.notes && s'.parts == s.parts
    ensures u in s'.notes && NoteGrows(s', u) == NoteGrows(s, u)
  {
  }

  lemma DroppedFirst(s: State, t: Truth, u: nat)
    requires Inv(s, t) && CanDo(s, DropHanded(u)) && s.flushes.Keys == {u} && s.blocks.Keys == {s.flushes[u].id}
    requires var f := s.flushes[u];
      Live(s, Note(f.id, f.data, f.part.value)) && s.parts[f.id.file].bits == {}
    ensures var s', f := HandDrop(s, u), s.flushes[u];
      && s'.cfg == s.cfg && s'.lock == s.lock && s'.flushes == map[] && s'.blocks == map[]
      && Charge(s') == Charge(s) - |f.data| && Entries(s') == Entries(s) - 1
      && u in s'.notes && NoteGrows(s', u) == |f.data|
  {
    hide Inv, Charge, Entries;
    HandDropCharge(s, t, u);
  }
}
