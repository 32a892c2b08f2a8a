/** A step that changes one block, one file record and one sparse file. */
module CacheEdits {

  import opened Common
  import opened Bitmap
  import opened Geometry
  import opened CacheModel
  import opened CacheInvariant
  import opened CacheFrames
  import opened CacheLocks

  /** What block `id` and its file become; None is gone. */
  datatype Edit = Edit(id: BlockId, block: Option<Block>, onDisk: Option<Bytes>, file: FileState,
                       part: Option<Part>, partOnDisk: Option<Bytes>)

  function Put<K, V>(m: map<K, V>, k: K, v: Option<V>): map<K, V> {
    if v.Some? then m[k := v.value] else m - {k}
  }

  lemma PutSame<K, V>(m: map<K, V>, k: K)
    ensures Put(m, k, Lookup(m, k)) == m
  {
  }

  /** The edit that changes nothing. */
  function Kept(s: State, id: BlockId): Edit {
    Edit(id, Lookup(s.blocks, id), Lookup(s.blockFile, id), FileOf(s, id.file), Lookup(s.parts, id.file),
         Lookup(s.partFile, id.file))
  }

  /** `detach`: flushes of the block are detached; `ended`: flushes that are over. */
  function Edited(s: State, e: Edit, detach: bool, ended: set<nat>, tags: nat): State {
    s.(blocks := Put(s.blocks, e.id, e.block), blockFile := Put(s.blockFile, e.id, e.onDisk),
       files := s.files[e.id.file := e.file],
       parts := Put(s.parts, e.id.file, e.part), partFile := Put(s.partFile, e.id.file, e.partOnDisk),
       flushes := (if detach then DropAll(s, {e.id}).flushes else s.flushes) - ended,
       nextTag := s.nextTag + tags)
  }

  /** The file record moves forward. */
  ghost predicate FileMoves(s: State, t: Truth, k: FileKey, f: FileState) {
    && k in s.files && f.tag == s.files[k].tag && f.whole == s.files[k].whole
    && (s.files[k].size == |t(k)| ==> f.size == |t(k)|)
    && s.files[k].generation <= f.generation && (forall u :: u in s.files[k].holds && u in s.installs ==> u in f.holds)
  }

  /** The entry is the same one or a new one, and its flush goes with it. */
  ghost predicate EntryMoves(s: State, e: Edit, detach: bool, ended: set<nat>, tags: nat) {
    if e.block.Some? then
      || (e.id in s.blocks && e.block.value.tag == s.blocks[e.id].tag && !detach &&
          (e.block.value.mem == s.blocks[e.id].mem || s.blocks[e.id].tag in ended))
      || (s.nextTag <= e.block.value.tag < s.nextTag + tags && (detach || e.id !in s.blocks))
    else detach || e.id !in s.blocks || s.blocks[e.id].tag in ended
  }

  /** The sparse file is the one it was, or a new one. */
  predicate PartMoves(s: State, e: Edit, tags: nat) {
    e.part.Some? ==>
      || (e.id.file in s.parts && e.part.value.tag == s.parts[e.id.file].tag)
      || s.nextTag <= e.part.value.tag < s.nextTag + tags
  }

  /** The blocks a hydration reads stay on disk, or there is no hydration, or it is
      superseded. */
  ghost predicate SourceMoves(s: State, e: Edit) {
    || (e.id.file in s.files && (e.file.generation > s.files[e.id.file].generation || s.files[e.id.file].holds == {}))
    || (e.id in s.blocks && s.blocks[e.id].bits.None? && s.blocks[e.id].mem.None? ==>
          e.block.Some? && e.block.value.bits.None? && e.block.value.mem.None?)
  }

  lemma EditOthers(s: State, e: Edit, detach: bool, ended: set<nat>, tags: nat)
    ensures OthersSame(s, Edited(s, e, detach, ended, tags), e.id.file)
  {
  }

  lemma EditTags(s: State, e: Edit, detach: bool, ended: set<nat>, tags: nat)
    requires EntryMoves(s, e, detach, ended, tags)
    ensures TagsKept(s, Edited(s, e, detach, ended, tags), e.id)
  {
  }

  lemma EditFlushes(s: State, e: Edit, detach: bool, ended: set<nat>, tags: nat)
    requires EntryMoves(s, e, detach, ended, tags) && FlushInv(s)
    ensures FlushesKept(s, Edited(s, e, detach, ended, tags))
  {
    var s' := Edited(s, e, detach, ended, tags);
    forall u | u in s'.flushes && !s.flushes[u].detached
      ensures s.flushes[u].id in s.blocks && s.blocks[s.flushes[u].id].tag == u {
      assert FlushAt(s, u);
    }
  }

  lemma EditSourceSafe(s: State, t: Truth, e: Edit, detach: bool, ended: set<nat>, tags: nat)
    requires FileMoves(s, t, e.id.file, e.file) && SourceMoves(s, e)
    ensures SourceSafe(s, Edited(s, e, detach, ended, tags), t, e.id.file)
  {
    hide Edited;
    EditFields(s, e, detach, ended, tags);
    if e.file.generation <= s.files[e.id.file].generation && s.files[e.id.file].holds != {} {
      EditSource(s, t, e, detach, ended, tags);
    }
  }

  lemma EditInstalls(s: State, t: Truth, e: Edit, detach: bool, ended: set<nat>, tags: nat)
    requires FileMoves(s, t, e.id.file, e.file) && SourceMoves(s, e)
    ensures InstallsKept(s, Edited(s, e, detach, ended, tags), t, e.id.file)
  {
    hide Edited, SourceMoves, SourceSafe;
    EditFields(s, e, detach, ended, tags);
    EditSourceSafe(s, t, e, detach, ended, tags);
  }

  lemma EditFields(s: State, e: Edit, detach: bool, ended: set<nat>, tags: nat)
    ensures var s' := Edited(s, e, detach, ended, tags);
      s'.cfg == s.cfg && s'.installs == s.installs && s'.files == s.files[e.id.file := e.file] &&
        s'.nextTag >= s.nextTag &&
      s'.objects == s.objects && s'.inodes == s.inodes && s'.lock == s.lock && s'.notes == s.notes &&
      s'.blocks == Put(s.blocks, e.id, e.block) && s'.parts == Put(s.parts, e.id.file, e.part)
  {
  }

  lemma EditFlushKeys(s: State, e: Edit, detach: bool, ended: set<nat>, tags: nat)
    ensures Edited(s, e, detach, ended, tags).flushes.Keys == s.flushes.Keys - ended
  {
  }

  lemma EditSource(s: State, t: Truth, e: Edit, detach: bool, ended: set<nat>, tags: nat)
    requires e.id.file in s.files && SourceMoves(s, e) && e.file.generation <= s.files[e.id.file].generation &&
      s.files[e.id.file].holds != {}
    ensures SourceKept(s, Edited(s, e, detach, ended, tags), t, e.id.file)
  {
  }

  lemma EditWhole(s: State, t: Truth, e: Edit, detach: bool, ended: set<nat>, tags: nat)
    requires FileMoves(s, t, e.id.file, e.file)
    ensures WholeKept(s, Edited(s, e, detach, ended, tags), t, e.id.file)
  {
  }

  /** Block i is whole in what the edit writes. */
  predicate Backs(e: Edit, i: nat) {
    || (i == e.id.index && e.block.Some? && e.block.value.bits.None?)
    || (e.part.Some? && i in e.part.value.bits)
  }

  /** Presence is claimed for what the edit writes, and as before for other blocks
      that have a file of their own. */
  ghost predicate PresenceOk(s: State, e: Edit) {
    forall i :: i in e.file.present ==>
      || Backs(e, i)
      || (i != e.id.index && e.id.file in s.files && i in s.files[e.id.file].present &&
          !(e.id.file in s.parts && i in s.parts[e.id.file].bits))
  }

  /** What the edit writes is real. */
  ghost predicate Real(s: State, t: Truth, e: Edit) {
    && FileMoves(s, t, e.id.file, e.file)
    && (e.block.Some? ==>
          && e.file.size == |t(e.id.file)| && e.id.index < BlockTotal(s.cfg, t, e.id.file)
          && BlockOk(s.cfg, e.block.value, e.onDisk, BlockTruth(s.cfg, t, e.id)))
    && (e.part.Some? ==> e.file.size == |t(e.id.file)| && PartOk(s.cfg, e.part.value, e.partOnDisk, t(e.id.file)))
    && e.file.present <= Range(BlockTotal(s.cfg, t, e.id.file)) &&
       (e.file.present != {} ==> e.file.size == |t(e.id.file)|)
    && (WholeLayout(s.cfg, |t(e.id.file)|) || PresenceOk(s, e))
    && (e.part.Some? && e.id.file in s.parts && e.part.value.tag == s.parts[e.id.file].tag ==>
          PiecesKept(s.cfg.blockSize, Lookup(s.partFile, e.id.file), e.partOnDisk, t(e.id.file)))
  }

  lemma EditBlocks(s: State, t: Truth, e: Edit, detach: bool, ended: set<nat>, tags: nat, x: BlockId)
    requires KeyOk(s, t, e.id.file) && Real(s, t, e)
    requires x in Edited(s, e, detach, ended, tags).blocks && x.file == e.id.file
    ensures BlockAt(Edited(s, e, detach, ended, tags), t, x)
  {
    hide BlockOk, PartOk, PresenceOk;
    if x != e.id { assert BlockAt(s, t, x); }
  }

  lemma EditPresent(s: State, t: Truth, e: Edit, detach: bool, ended: set<nat>, tags: nat)
    requires KeyOk(s, t, e.id.file) && Real(s, t, e)
    ensures PresentAt(Edited(s, e, detach, ended, tags), t, e.id.file)
  {
    hide BlockOk, PartOk;
    var k, s' := e.id.file, Edited(s, e, detach, ended, tags);
    if !WholeLayout(s.cfg, |t(k)|) {
      forall i | i in e.file.present ensures Backed(s', k, i) {
        if !Backs(e, i) { assert Backed(s, k, i); }
      }
    }
  }

  lemma EditKey(s: State, t: Truth, e: Edit, detach: bool, ended: set<nat>, tags: nat)
    requires KeyOk(s, t, e.id.file) && Real(s, t, e)
    ensures KeyOk(Edited(s, e, detach, ended, tags), t, e.id.file)
  {
    hide BlockOk, PartOk, PresenceOk;
    var s' := Edited(s, e, detach, ended, tags);
    forall x | x in s'.blocks && x.file == e.id.file ensures BlockAt(s', t, x) {
      EditBlocks(s, t, e, detach, ended, tags, x);
    }
    EditPresent(s, t, e, detach, ended, tags);
  }

  lemma EditFrame(s: State, t: Truth, e: Edit, detach: bool, ended: set<nat>, tags: nat)
    requires FlushInv(s) && Real(s, t, e) && EntryMoves(s, e, detach, ended, tags) && SourceMoves(s, e)
    requires PartMoves(s, e, tags)
    ensures FileFrame(s, Edited(s, e, detach, ended, tags), t, e.id.file, e.id)
  {
    hide FlushInv, EntryMoves, SourceMoves, FileMoves, Edited, OthersSame, TagsKept, FlushesKept, InstallsKept,
         WholeKept, Real, PartKept;
    assert FileMoves(s, t, e.id.file, e.file) by { RealMoves(s, t, e); }
    EditPart(s, t, e, detach, ended, tags);
    EditFields(s, e, detach, ended, tags);
    EditOthers(s, e, detach, ended, tags);
    EditTags(s, e, detach, ended, tags);
    EditFlushes(s, e, detach, ended, tags);
    EditInstalls(s, t, e, detach, ended, tags);
    EditWhole(s, t, e, detach, ended, tags);
  }

  lemma RealMoves(s: State, t: Truth, e: Edit)
    requires Real(s, t, e)
    ensures FileMoves(s, t, e.id.file, e.file)
  {
  }

  lemma EditPart(s: State, t: Truth, e: Edit, detach: bool, ended: set<nat>, tags: nat)
    requires Real(s, t, e) && PartMoves(s, e, tags)
    ensures PartKept(s, Edited(s, e, detach, ended, tags), t, e.id.file)
  {
    hide PiecesKept, BlockOk, PartOk, PresenceOk, FileMoves;
  }

  /** A real edit keeps the invariant, whatever becomes of the lock. */
  lemma EditKeeps(s: State, t: Truth, e: Edit, detach: bool, ended: set<nat>, tags: nat, l: Lock)
    requires Inv(s, t) && Real(s, t, e) && EntryMoves(s, e, detach, ended, tags) && SourceMoves(s, e)
    requires PartMoves(s, e, tags) && LockOk(Edited(s, e, detach, ended, tags).(lock := l), t)
    ensures Inv(Edited(s, e, detach, ended, tags).(lock := l), t)
  {
    hide KeyOk, TagsInv, WholeInv, FlushInv, InstallInv, HandInv, LockOk, EntryMoves, SourceMoves, BlockOk, PartOk,
         PresenceOk, FileMoves, Edited, FileFrame;
    EditFrame(s, t, e, detach, ended, tags);
    EditKey(s, t, e, detach, ended, tags);
    StepOnFile(s, Edited(s, e, detach, ended, tags), t, e.id.file, e.id, l);
  }

  /** A real edit made while another call may hold the lock. */
  lemma EditUnderLock(s: State, t: Truth, e: Edit, detach: bool, ended: set<nat>, tags: nat)
    requires Inv(s, t) && Real(s, t, e) && EntryMoves(s, e, detach, ended, tags) && SourceMoves(s, e)
    requires PartMoves(s, e, tags) && e.file.holds == FileOf(s, e.id.file).holds
    requires s.lock.Asking? ==> GrowthShrinks(s, Edited(s, e, detach, ended, tags), s.lock.req)
    ensures Inv(Edited(s, e, detach, ended, tags), t)
  {
    hide KeyOk, TagsInv, WholeInv, FlushInv, InstallInv, HandInv, LockOk, EntryMoves, SourceMoves, BlockOk, PartOk,
         PresenceOk, Edited, FileFrame, GrowthShrinks, SourceSafe;
    var s' := Edited(s, e, detach, ended, tags);
    EditFrame(s, t, e, detach, ended, tags);
    EditFields(s, e, detach, ended, tags);
    EditSourceSafe(s, t, e, detach, ended, tags);
    LockMoves(s, s', t, e.id.file, e.id);
    assert s'.(lock := s.lock) == s';
    EditKeeps(s, t, e, detach, ended, tags, s.lock);
  }

  /** Only the file record changes, and claims no other blocks. */
  lemma RecordReal(s: State, t: Truth, id: BlockId, f: FileState)
    requires KeyOk(s, t, id.file) && FileMoves(s, t, id.file, f) && f.present == s.files[id.file].present
    requires f.size == s.files[id.file].size || f.size == |t(id.file)|
    ensures Real(s, t, Kept(s, id).(file := f))
  {
    hide BlockOk, PartOk, PieceCount;
    var e := Kept(s, id).(file := f);
    assert PresentAt(s, t, id.file);
    if id in s.blocks { assert BlockAt(s, t, id); }
    if !WholeLayout(s.cfg, |t(id.file)|) {
      forall i | i in e.file.present
        ensures Backs(e, i) || (i != id.index && !(id.file in s.parts && i in s.parts[id.file].bits))
      {
        assert Backed(s, id.file, i);
      }
    }
  }

  lemma RecordIsEdit(s: State, id: BlockId, f: FileState, tags: nat)
    ensures s.(files := s.files[id.file := f], nextTag := s.nextTag + tags) ==
      Edited(s, Kept(s, id).(file := f), false, {}, tags)
  {
    PutSame(s.blocks, id);
    PutSame(s.blockFile, id);
    PutSame(s.parts, id.file);
    PutSame(s.partFile, id.file);
    assert s.flushes - {} == s.flushes;
  }

  lemma RecordKeeps(s: State, t: Truth, k: FileKey, f: FileState, tags: nat)
    requires Inv(s, t) && FileMoves(s, t, k, f) && f.present == s.files[k].present &&
      (f.size == s.files[k].size || f.size == |t(k)|)
    ensures Inv(s.(files := s.files[k := f], nextTag := s.nextTag + tags, lock := Free), t)
  {
    hide KeyOk, TagsInv, WholeInv, FlushInv, InstallInv, Real, Edited, FileMoves;
    var id := BlockId(k, 0);
    RecordReal(s, t, id, f);
    RecordIsEdit(s, id, f, tags);
    EditKeeps(s, t, Kept(s, id).(file := f), false, {}, tags, Free);
  }
}
