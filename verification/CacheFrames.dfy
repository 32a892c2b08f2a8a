/** What a step that touches one file leaves alone. */
module CacheFrames {

  import opened Common
  import opened Geometry
  import opened CacheModel
  import opened CacheInvariant

  /** Nothing about files other than k changed. */
  ghost predicate OthersSame(s: State, s': State, k: FileKey) {
    && s'.cfg == s.cfg && s.nextTag <= s'.nextTag
    && (forall id: BlockId :: id.file != k ==>
        Lookup(s'.blocks, id) == Lookup(s.blocks, id) && Lookup(s'.blockFile, id) == Lookup(s.blockFile, id))
    && (forall j :: j != k ==>
        Lookup(s'.files, j) == Lookup(s.files, j) && Lookup(s'.parts, j) == Lookup(s.parts, j) &&
        Lookup(s'.partFile, j) == Lookup(s.partFile, j))
  }

  lemma OtherKey(s: State, s': State, t: Truth, k: FileKey, j: FileKey)
    requires KeyOk(s, t, j) && OthersSame(s, s', k) && j != k
    ensures KeyOk(s', t, j)
  {
    hide BlockOk, PartOk;
    forall id | id in s'.blocks && id.file == j ensures BlockAt(s', t, id) {
      assert Lookup(s'.blocks, id) == Lookup(s.blocks, id);
      assert BlockAt(s, t, id) && Lookup(s'.files, j) == Lookup(s.files, j);
    }
    assert Lookup(s'.files, j) == Lookup(s.files, j) && Lookup(s'.parts, j) == Lookup(s.parts, j);
    if j in s'.files {
      assert PresentAt(s, t, j);
      forall i | i in s'.files[j].present ensures Backed(s', j, i) || WholeLayout(s'.cfg, |t(j)|) {
        assert Backed(s, j, i) || WholeLayout(s.cfg, |t(j)|);
        assert Lookup(s'.blocks, BlockId(j, i)) == Lookup(s.blocks, BlockId(j, i));
      }
    }
  }

  /** A step on one file: only that file has to be looked at. */
  lemma KeysFrame(s: State, s': State, t: Truth, k: FileKey)
    requires KeysInv(s, t) && OthersSame(s, s', k) && KeyOk(s', t, k)
    ensures KeysInv(s', t)
  {
    hide KeyOk, OthersSame;
    forall j ensures KeyOk(s', t, j) {
      if j != k { OtherKey(s, s', t, k, j); }
    }
  }

  /** Entries kept their tags, but for at most one new entry. */
  ghost predicate TagsKept(s: State, s': State, id: BlockId) {
    && s.nextTag <= s'.nextTag
    && (forall x :: x in s'.blocks && x != id ==> x in s.blocks && s'.blocks[x].tag == s.blocks[x].tag)
    && (id in s'.blocks ==>
        (id in s.blocks && s'.blocks[id].tag == s.blocks[id].tag) || s.nextTag <= s'.blocks[id].tag < s'.nextTag)
  }

  lemma TagsFrame(s: State, s': State, id: BlockId)
    requires TagsInv(s) && TagsKept(s, s', id)
    ensures TagsInv(s')
  {
  }

  /** The flush is the one it was, but for the sparse file it found and for having been
      detached. */
  predicate SameFlush(f: Flush, g: Flush) {
    g.id == f.id && g.data == f.data && g.size == f.size && g.sparse == f.sparse
  }

  /** Flushes of entries that are gone are detached, the others still match. */
  ghost predicate FlushesKept(s: State, s': State) {
    forall u :: u in s'.flushes ==>
      && u in s.flushes && SameFlush(s.flushes[u], s'.flushes[u])
      && (s'.flushes[u].part == s.flushes[u].part || FoundBefore(s', s'.flushes[u]))
      && (s.flushes[u].detached ==> s'.flushes[u].detached)
      && (!s'.flushes[u].detached ==> var id := s.flushes[u].id;
            id in s.blocks ==>
              id in s'.blocks && s'.blocks[id].tag == s.blocks[id].tag && s'.blocks[id].mem == s.blocks[id].mem)
      && (s'.flushes[u].detached && !s.flushes[u].detached ==> var id := s.flushes[u].id;
            id in s'.blocks ==> s'.blocks[id].tag >= s.nextTag)
  }

  lemma FlushFrame(s: State, s': State, id: BlockId)
    requires FlushInv(s) && TagsInv(s) && TagsKept(s, s', id) && FlushesKept(s, s')
    ensures FlushInv(s')
  {
    forall u | u in s'.flushes ensures FlushAt(s', u) {
      assert FlushAt(s, u);
      if s'.flushes[u].detached {
        forall x | x in s'.blocks ensures s'.blocks[x].tag != u {
          assert x in s.blocks && s.blocks[x].tag == u ==> x == s.flushes[u].id;
        }
      }
    }
  }

  /** Only blocks that a flush has just let go of are new on their way. */
  ghost predicate NotesKept(s: State, s': State, t: Truth) {
    forall u :: u in s'.notes ==>
      || (u in s.notes && s'.notes[u] == s.notes[u])
      || (NoteAt(s.cfg, t, s'.notes[u]) && Gone(s', u) && s'.notes[u].part < s'.nextTag && Landed(s', s'.notes[u]))
  }

  /** Blocks of a file that were real still are. */
  ghost predicate PiecesKept(unit: nat, file: Option<Bytes>, file': Option<Bytes>, data: Bytes) {
    file.Some? ==>
      && file'.Some?
      && forall i: nat :: Piece(file.value, unit, i) == Piece(data, unit, i) ==>
           Piece(file'.value, unit, i) == Piece(data, unit, i)
  }

  /** The sparse file of k is the one it was, with every real block real, or a new one. */
  ghost predicate PartKept(s: State, s': State, t: Truth, k: FileKey) {
    k in s'.parts ==>
      if k in s.parts && s'.parts[k].tag == s.parts[k].tag
      then PiecesKept(s.cfg.blockSize, Lookup(s.partFile, k), Lookup(s'.partFile, k), t(k))
      else s.nextTag <= s'.parts[k].tag < s'.nextTag
  }

  lemma HandFrame(s: State, s': State, t: Truth, k: FileKey, id: BlockId)
    requires HandInv(s, t) && OthersSame(s, s', k) && TagsKept(s, s', id) && FlushesKept(s, s') && NotesKept(s, s', t)
    requires PartKept(s, s', t, k)
    ensures HandInv(s', t)
  {
    hide FlushesKept, PiecesKept, SparseAt;
    assert forall u :: u in s'.flushes ==> SparseAt(s'.cfg, t, s'.flushes[u]) && FoundBefore(s', s'.flushes[u]) by {
      FlushesStay(s, s', t);
    }
    forall u | u in s'.notes
      ensures NoteAt(s'.cfg, t, s'.notes[u]) && Gone(s', u) && s'.notes[u].part < s'.nextTag && Landed(s', s'.notes[u])
    {
      if u in s.notes && s'.notes[u] == s.notes[u] {
        assert NoteAt(s.cfg, t, s.notes[u]);
        StaysLanded(s, s', t, k, s.notes[u]);
      }
    }
    forall j | j in s'.parts ensures s'.parts[j].tag < s'.nextTag {
      assert j != k ==> Lookup(s'.parts, j) == Lookup(s.parts, j);
    }
  }

  lemma StaysLanded(s: State, s': State, t: Truth, k: FileKey, n: Note)
    requires OthersSame(s, s', k) && PartKept(s, s', t, k) && NoteAt(s.cfg, t, n) && Landed(s, n) && n.part < s.nextTag
    ensures Landed(s', n)
  {
    assert n.id.file != k ==>
      Lookup(s'.parts, n.id.file) == Lookup(s.parts, n.id.file) &&
      Lookup(s'.partFile, n.id.file) == Lookup(s.partFile, n.id.file);
  }

  lemma FlushesStay(s: State, s': State, t: Truth)
    requires FlushesKept(s, s') && s'.cfg == s.cfg && s.nextTag <= s'.nextTag
    requires forall u :: u in s.flushes ==> SparseAt(s.cfg, t, s.flushes[u]) && FoundBefore(s, s.flushes[u])
    ensures forall u :: u in s'.flushes ==> SparseAt(s'.cfg, t, s'.flushes[u]) && FoundBefore(s', s'.flushes[u])
  {
  }

  /** The file's record moved on: it is another one, or its generation is later. */
  predicate Superseded(s: State, s': State, k: FileKey) {
    k !in s'.files || k !in s.files || s'.files[k].tag != s.files[k].tag ||
      s'.files[k].generation > s.files[k].generation
  }

  /** A hydration's blocks are as they were. */
  ghost predicate SourceKept(s: State, s': State, t: Truth, k: FileKey) {
    SourceOk(s, t, k) ==> SourceOk(s', t, k)
  }

  /** What a hydration of k copies is still there, or no hydration may finish. */
  ghost predicate SourceSafe(s: State, s': State, t: Truth, k: FileKey) {
    Superseded(s, s', k) || s.files[k].holds == {} || SourceKept(s, s', t, k)
  }

  predicate Unhydrated(s: State, k: FileKey) {
    forall u :: u in s.installs && s.installs[u].hydrate && s.installs[u].key == k && k in s.files ==>
      s.installs[u].fileTag != s.files[k].tag
  }

  ghost predicate InstallsKept(s: State, s': State, t: Truth, k: FileKey) {
    && s.nextTag <= s'.nextTag
    && (forall u :: u in s'.installs ==> u in s.installs && s'.installs[u] == s.installs[u])
    && (k in s'.files ==>
          if k in s.files && s'.files[k].tag == s.files[k].tag then
            && s'.files[k].generation >= s.files[k].generation
            && (forall u :: u in s.files[k].holds && u in s'.installs ==> u in s'.files[k].holds)
          else s'.files[k].tag >= s.nextTag)
    && (SourceSafe(s, s', t, k) || Unhydrated(s, k))
  }

  lemma OtherSource(s: State, s': State, t: Truth, k: FileKey, j: FileKey)
    requires OthersSame(s, s', k) && j != k && SourceOk(s, t, j)
    ensures SourceOk(s', t, j)
  {
    forall i | 0 <= i < BlockTotal(s'.cfg, t, j)
      ensures BlockId(j, i) in s'.blocks && s'.blocks[BlockId(j, i)].bits.None? && s'.blocks[BlockId(j, i)].mem.None?
    {
      assert Lookup(s'.blocks, BlockId(j, i)) == Lookup(s.blocks, BlockId(j, i));
    }
  }

  /** An install is unaffected by a step on file k that leaves its hold. */
  lemma InstallMoves(s: State, s': State, t: Truth, k: FileKey, u: nat, i: Install)
    requires InstallOk(s, t, u, i) && OthersSame(s, s', k) && InstallsKept(s, s', t, k)
    requires SourceSafe(s, s', t, k) || (u in s.installs && s.installs[u] == i)
    requires k in s.files && k in s'.files && u in s.files[k].holds && s'.files[k].tag == s.files[k].tag ==>
      u in s'.files[k].holds
    ensures InstallOk(s', t, u, i)
  {
    hide SourceOk, Copied;
    if i.key != k {
      assert Lookup(s'.files, i.key) == Lookup(s.files, i.key);
      if i.hydrate && Current(s', i) { OtherSource(s, s', t, k, i.key); }
    }
  }

  lemma InstallFrame(s: State, s': State, t: Truth, k: FileKey)
    requires InstallInv(s, t) && OthersSame(s, s', k) && InstallsKept(s, s', t, k)
    ensures InstallInv(s', t)
  {
    hide InstallOk, OthersSame;
    forall u | u in s'.installs ensures InstallOk(s', t, u, s'.installs[u]) {
      InstallMoves(s, s', t, k, u, s.installs[u]);
    }
  }

  /** Objects and the file's inode are as they were; its size is the real one. */
  ghost predicate WholeKept(s: State, s': State, t: Truth, k: FileKey) {
    && s'.objects == s.objects && s'.inodes == s.inodes
    && (k in s.files ==>
        k in s'.files && s'.files[k].whole == s.files[k].whole &&
        (s.files[k].size == |t(k)| ==> s'.files[k].size == |t(k)|))
    && (k !in s.files && k in s'.files ==> s'.files[k].whole.None?)
  }

  lemma WholeFrame(s: State, s': State, t: Truth, k: FileKey)
    requires WholeInv(s, t) && OthersSame(s, s', k) && WholeKept(s, s', t, k)
    ensures WholeInv(s', t)
  {
    forall j | j in s'.files ensures WholeAt(s', t, j) {
      assert Lookup(s'.files, j) == Lookup(s.files, j) || j == k;
      if j in s.files { assert WholeAt(s, t, j); }
    }
    forall o | o in s'.objects ensures ObjectAt(s', o) {
      assert ObjectAt(s, o);
      forall j | j in s'.objects[o].refs ensures j in s'.files && s'.files[j].whole == Some(o) {
        assert Lookup(s'.files, j) == Lookup(s.files, j) || j == k;
      }
    }
  }

  /** A step that touches only file k and gives at most block id a new entry. */
  ghost predicate FileFrame(s: State, s': State, t: Truth, k: FileKey, id: BlockId) {
    OthersSame(s, s', k) && TagsKept(s, s', id) && FlushesKept(s, s') && NotesKept(s, s', t) &&
      PartKept(s, s', t, k) && InstallsKept(s, s', t, k) && WholeKept(s, s', t, k)
  }

  /** Only the lock looks at the lock. */
  lemma LockApart(s: State, t: Truth, l: Lock)
    requires KeysInv(s, t) && TagsInv(s) && WholeInv(s, t) && FlushInv(s) && InstallInv(s, t) && HandInv(s, t)
    requires LockOk(s.(lock := l), t)
    ensures Inv(s.(lock := l), t)
  {
    hide BlockOk, PartOk, Copied, LockOk, SparseAt, NoteAt, Piece;
    var s' := s.(lock := l);
    forall k ensures KeyOk(s', t, k) {
      assert KeyOk(s, t, k);
      forall id | id in s'.blocks && id.file == k ensures BlockAt(s', t, id) { assert BlockAt(s, t, id); }
      if k in s'.files { assert PresentAt(s, t, k); }
    }
    forall u | u in s'.flushes ensures FlushAt(s', u) { assert FlushAt(s, u); }
    forall u | u in s'.installs ensures InstallOk(s', t, u, s'.installs[u]) {
      assert InstallOk(s, t, u, s.installs[u]);
    }
    forall k | k in s'.files ensures WholeAt(s', t, k) { assert WholeAt(s, t, k); }
    forall o | o in s'.objects ensures ObjectAt(s', o) { assert ObjectAt(s, o); }
  }

  /** All that a step on one file has to show. */
  lemma StepOnWhole(s: State, s': State, t: Truth, k: FileKey, id: BlockId, l: Lock)
    requires Inv(s, t) && OthersSame(s, s', k) && TagsKept(s, s', id) && FlushesKept(s, s') && NotesKept(s, s', t)
    requires InstallsKept(s, s', t, k) && PartKept(s, s', t, k)
    requires KeyOk(s', t, k) && WholeInv(s', t) && LockOk(s'.(lock := l), t)
    ensures Inv(s'.(lock := l), t)
  {
    hide OthersSame, KeyOk, LockOk, TagsKept, FlushesKept, NotesKept, InstallsKept, KeysInv, TagsInv, WholeInv,
         FlushInv, InstallInv, HandInv, PartKept;
    KeysFrame(s, s', t, k);
    TagsFrame(s, s', id);
    FlushFrame(s, s', id);
    HandFrame(s, s', t, k, id);
    InstallFrame(s, s', t, k);
    LockApart(s', t, l);
  }

  /** All that a step on the blocks of one file has to show. */
  lemma StepOnFile(s: State, s': State, t: Truth, k: FileKey, id: BlockId, l: Lock)
    requires Inv(s, t) && FileFrame(s, s', t, k, id) && KeyOk(s', t, k) && LockOk(s'.(lock := l), t)
    ensures Inv(s'.(lock := l), t)
  {
    hide OthersSame, KeyOk, LockOk, TagsKept, FlushesKept, NotesKept, InstallsKept, WholeKept, KeysInv, TagsInv,
         WholeInv, FlushInv, InstallInv, HandInv, PartKept;
    WholeFrame(s, s', t, k);
    StepOnWhole(s, s', t, k, id, l);
  }
}
