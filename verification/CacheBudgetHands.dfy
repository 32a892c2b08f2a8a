/** What the three sections of a hand-over do to the charge. The block's bytes are charged
    to nothing between the second and the third. */
module CacheBudgetHands {

  import opened Geometry
  import opened Sums
  import opened CacheModel
  import opened CacheInvariant
  import opened CacheSteps
  import opened CacheEdits
  import opened CacheCharge
  import opened CacheBudget
  import opened CacheBudgetRuns
  import opened CacheKeepsBlocks
  import opened CacheKeepsParts
  import opened CacheKeepsCalls
  import opened CacheKeepsHands

  function NoteBytes(n: Note): nat { |n.data| }

  /** The bytes on their way into sparse files, which nothing charges. */
  ghost function Carried(s: State): nat {
    Sum(s.notes, NoteBytes)
  }

  /** Only notes and the sparse file a flush has found changed. */
  predicate HandsDiffer(s: State, s': State) {
    && s' == s.(flushes := s'.flushes, notes := s'.notes) && s'.flushes.Keys == s.flushes.Keys
    && forall u :: u in s.flushes ==>
         s'.flushes[u].detached == s.flushes[u].detached && s'.flushes[u].data == s.flushes[u].data
  }

  lemma HandsWeighNothing(s: State, s': State)
    requires HandsDiffer(s, s')
    ensures Charge(s') == Charge(s) && Entries(s') == Entries(s)
  {
    SumAlike(s.flushes, s'.flushes, DetachedBytes);
    SumAlike(s.flushes, s'.flushes, DetachedOne);
  }

  // ensurePart.

  lemma MadePartCharge(s: State, t: Truth, k: FileKey, size: nat, now: int)
    requires Inv(s, t) && k !in s.parts
    ensures var s' := MadePart(s, k, size, now);
      Charge(s') == Charge(s) && Entries(s') == Entries(s) + 1 && s'.cfg == s.cfg && s'.lock == s.lock
  {
    hide Inv, Edited, Charge, Entries, MadePart;
    var e := EnsureEdit(s, k, size, now);
    var s' := Edited(s, e, false, {}, 1);
    MadePartIsEdit(s, k, size, now);
    WeighEdit(s, t, e, false, 1);
    EmptyPart(s, k, size, now);
    SameLedger(s', s'.(lock := Free), SweepReq);
    EditFields(s, e, false, {}, 1);
  }

  lemma EmptyPart(s: State, k: FileKey, size: nat, now: int)
    requires k !in s.parts
    ensures PartBytes(PartBefore(s, k, size, now).0) == 0
  {
    NothingCovered(s.cfg.blockSize, size, PieceCount(s.cfg.blockSize, size));
  }

  /** A sparse file made for a flush is one more entry, admitted by nobody. */
  lemma EnsureCharge(s: State, t: Truth, u: nat, now: int)
    requires Inv(s, t) && CanDo(s, EnsurePart(u, now))
    ensures var s', made := HandEnsure(s, u, now), if s.flushes[u].id.file in s.parts then 0 else 1;
      Charge(s') == Charge(s) && Entries(s') == Entries(s) + made && s'.cfg == s.cfg && s'.lock == s.lock
  {
    hide Inv, Known, MadePart, Charge, Entries, PartBefore;
    var f := s.flushes[u];
    var k, s1 := f.id.file, WithPart(s, f.id.file, f.size, now);
    if k !in s.parts {
      KnownStays(s, t, k);
      KnownFields(s, k);
      KnownLedger(s, k);
      MadePartCharge(Known(s, k), t, k, f.size, now);
    }
    WithPartFields(s, k, f.size, now);
    HandsWeighNothing(s1, HandEnsure(s, u, now));
  }

  lemma KnownLedger(s: State, k: FileKey)
    ensures Charge(Known(s, k)) == Charge(s) && Entries(Known(s, k)) == Entries(s)
  {
    hide Charge, Entries, Known, ChargedSame;
    KnownCharged(s, k);
    SameLedger(s, Known(s, k).(lock := Free), SweepReq);
    LockWeighsNothing(Known(s, k));
  }

  lemma LockWeighsNothing(s: State)
    ensures Charge(s.(lock := Free)) == Charge(s) && Entries(s.(lock := Free)) == Entries(s)
  {
  }

  // The block leaves the index.

  /** Its bytes are charged to nothing now. */
  lemma HandDropCharge(s: State, t: Truth, u: nat)
    requires Inv(s, t) && CanDo(s, DropHanded(u))
    ensures var s', n := HandDrop(s, u), |s.flushes[u].data|;
      && Charge(s') == Charge(s) - n && Entries(s') == Entries(s) - 1 && s'.cfg == s.cfg && s'.lock == s.lock
      && Carried(s') == Carried(s) + n
  {
    hide KeysInv, WholeInv, InstallInv, SparseAt, NoteAt, LockOk, Edited, Weight, FlushInv, TagsInv, Charge, Entries,
         BlockOk, HandDrop;
    var e, f := HandDropEdit(s, u), s.flushes[u];
    OwnsExactly(s, u);
    FlushIsReal(s, t, u);
    FlushedSize(s, t, f.id);
    InvFair(s, t, InBytes());
    InvFair(s, t, InEntries());
    FlushEditWeight(s, e, false, u, InBytes());
    FlushEditWeight(s, e, false, u, InEntries());
    Ledger(s);
    Ledger(Edited(s, e, false, {u}, 0));
    HandDropIsEdit(s, u);
    EditFields(s, e, false, {u}, 0);
    HandsWeighNothing(Edited(s, e, false, {u}, 0), HandDrop(s, u));
    assert u !in s.notes by { assert Owns(s, u); }
    SumUpdate(s.notes, NoteBytes, u, Note(f.id, f.data, f.part.value));
  }

  // notePartBlock.

  /** What the note will add to the charge. */
  function NoteGrows(s: State, u: nat): nat
    requires u in s.notes
  {
    var n := s.notes[u];
    if Live(s, n) && n.id.index !in s.parts[n.id.file].bits then |n.data| else 0
  }

  lemma HandNoteCharge(s: State, t: Truth, u: nat, now: int)
    requires Inv(s, t) && u in s.notes
    ensures var s' := HandNote(s, u, now);
      && Charge(s') == Charge(s) + NoteGrows(s, u) && Entries(s') == Entries(s) && s'.cfg == s.cfg && s'.lock == s.lock
      && Carried(s') == Carried(s) - |s.notes[u].data|
  {
    hide KeysInv, TagsInv, WholeInv, FlushInv, InstallInv, LockOk, Edited, Charge, Entries, HandNote, WithBlock,
         PartBytes, BlockTruth;
    var n, s1 := s.notes[u], s.(notes := s.notes - {u});
    assert NoteAt(s.cfg, t, n);
    SumRemove(s.notes, NoteBytes, u);
    HandsWeighNothing(s, s1);
    if Live(s, n) {
      NoteOver(s, t, u);
      LivePart(s1, t, n);
      HandNoteIs(s, t, u, now);
      var size, holds := s.parts[n.id.file].size, FileOf(s, n.id.file).holds;
      var e := FillEdit(s1, n.id, n.data, size, holds, false, false, now);
      var s' := Edited(s1, e, false, {}, 1);
      FilledBytes(s1, t, n.id, n.data, size, now);
      WeighEdit(s1, t, e, false, 1);
      LockWeighsNothing(s');
      EditFields(s1, e, false, {}, 1);
    } else {
      NotNoted(s, u, now);
    }
  }

  // Under another call's grant.

  /** The same blocks, and sparse files with no less in them. */
  predicate PartsGrow(s: State, s': State) {
    && s'.cfg == s.cfg && s'.blocks == s.blocks && s'.objects == s.objects && s'.flushes.Keys == s.flushes.Keys
    && forall k :: k in s.parts ==> k in s'.parts && s.parts[k].bits <= s'.parts[k].bits
  }

  lemma PartsGrowth(s: State, s': State, r: Request)
    requires PartsGrow(s, s')
    ensures GrowthBytes(s', r) <= GrowthBytes(s, r) && GrowthEntries(s', r) <= GrowthEntries(s, r)
  {
    hide Covered, PieceCount;
    match r {
      case BlockReq(id, _, _) => assert Flushing(s', id) == Flushing(s, id);
      case RangeReq(id, off, n, _) =>
        assert Missing(s'.cfg, s'.blocks, id, off, n) == Missing(s.cfg, s.blocks, id, off, n);
      case _ =>
    }
  }

  lemma EnsureGrows(s: State, u: nat, now: int)
    requires u in s.flushes
    ensures PartsGrow(s, HandEnsure(s, u, now))
  {
    hide Known, MadePart, PartBefore;
    var f := s.flushes[u];
    KnownFields(s, f.id.file);
    MadeFields(Known(s, f.id.file), f.id.file, f.size, now);
  }

  lemma NoteGrowsParts(s: State, u: nat, now: int)
    requires u in s.notes
    ensures PartsGrow(s, HandNote(s, u, now))
  {
    hide FillPart;
    var n, s1 := s.notes[u], s.(notes := s.notes - {u});
    if Live(s, n) { FillFields(s1, n.id.file, s.parts[n.id.file].size, n.id.index, n.data, now); }
  }

  /** The block a granted range put relies on leaves the index. */
  predicate Overtaken(s: State, u: nat) {
    s.lock.Granted? && s.lock.req.RangeReq? && u in s.flushes && s.flushes[u].id == s.lock.req.id
  }

  lemma HandDropGrowth(s: State, t: Truth, u: nat, r: Request)
    requires Inv(s, t) && CanDo(s, DropHanded(u)) && !(r.RangeReq? && r.id == s.flushes[u].id)
    ensures var s' := HandDrop(s, u);
      GrowthBytes(s', r) <= GrowthBytes(s, r) && GrowthEntries(s', r) <= GrowthEntries(s, r)
  {
    hide KeysInv, WholeInv, InstallInv, HandInv, LockOk, Edited, GrowthBytes, GrowthEntries, FlushInv, TagsInv,
         HandDrop;
    var e := HandDropEdit(s, u);
    OwnsExactly(s, u);
    FlushIsReal(s, t, u);
    HandDropIsEdit(s, u);
    EditGrowth(s, e, false, u, r);
    NotesGrowNothing(Edited(s, e, false, {u}, 0), HandDrop(s, u), r);
  }

  lemma NotesGrowNothing(s: State, s': State, r: Request)
    requires s' == s.(notes := s'.notes)
    ensures GrowthBytes(s', r) == GrowthBytes(s, r) && GrowthEntries(s', r) == GrowthEntries(s, r)
  {
    hide Covered, PieceCount;
  }
}
