/** Asking for room, reserving, starting a flush, copying a block, leasing, pinning
    and looking up keep the invariant. */
module CacheKeepsCalls {

  import opened Common
  import opened Geometry
  import opened Ranges
  import opened CacheModel
  import opened CacheInvariant
  import opened CacheSteps
  import opened CacheFrames
  import opened CacheLocks
  import opened CacheEdits
  import opened CacheKeepsBlocks
  import opened CacheKeepsWhole

  // Recency, pins, leases and left-over temporary files.

  predicate BlockLike(b: Block, b': Block) {
    b'.(lastAccess := b.lastAccess, hot := b.hot, pinned := b.pinned) == b
  }

  predicate PartLike(p: Part, p': Part) {
    p'.(lastAccess := p.lastAccess, hot := p.hot) == p
  }

  predicate FileLike(f: FileState, f': FileState) {
    f'.(pinned := f.pinned, userPinned := f.userPinned) == f
  }

  predicate ObjectLike(o: Object, o': Object) {
    o'.(lastAccess := o.lastAccess, hot := o.hot, readers := o.readers) == o && o.readers <= o'.readers
  }

  predicate AllLike<K, V>(m: map<K, V>, m': map<K, V>, like: (V, V) -> bool) {
    m'.Keys == m.Keys && forall k :: k in m ==> like(m[k], m'[k])
  }

  /** Only what no content depends on changed. */
  ghost predicate Cosmetic(s: State, s': State) {
    && s'.cfg == s.cfg && s'.flushes == s.flushes && s'.notes == s.notes && s'.installs == s.installs &&
       s'.lock == s.lock && s'.nextTag == s.nextTag
    && s'.blockFile == s.blockFile && s'.partFile == s.partFile && s'.inodes == s.inodes
    && AllLike(s.blocks, s'.blocks, BlockLike) && AllLike(s.files, s'.files, FileLike)
    && AllLike(s.parts, s'.parts, PartLike) && AllLike(s.objects, s'.objects, ObjectLike)
  }

  lemma AlikeBut<K, V>(m: map<K, V>, k: K, v: V, like: (V, V) -> bool)
    requires AllLike(m, m, like) && k in m && like(m[k], v)
    ensures AllLike(m, m[k := v], like)
  {
    assert m[k := v].Keys == m.Keys;
  }

  lemma Alike(s: State)
    ensures AllLike(s.blocks, s.blocks, BlockLike) && AllLike(s.files, s.files, FileLike)
    ensures AllLike(s.parts, s.parts, PartLike) && AllLike(s.objects, s.objects, ObjectLike)
  {
  }

  lemma BlockLikeOk(c: Config, b: Block, b': Block, file: Option<Bytes>, T: Bytes)
    requires BlockOk(c, b, file, T) && BlockLike(b, b')
    ensures BlockOk(c, b', file, T)
  {
    hide Covered, Piece, PieceCount;
    if PartialOk(c, b, file, T) {
      forall i | i in b'.bits.value ensures SubOk(c, b', file, T, i) { assert SubOk(c, b, file, T, i); }
    }
  }

  lemma CosmeticKey(s: State, s': State, t: Truth, k: FileKey)
    requires KeyOk(s, t, k) && Cosmetic(s, s')
    ensures KeyOk(s', t, k)
  {
    hide BlockOk, BlockTotal;
    assert k in s.files ==> FileLike(s.files[k], s'.files[k]);
    assert k in s.parts ==> PartLike(s.parts[k], s'.parts[k]);
    forall x | x in s'.blocks && x.file == k ensures BlockAt(s', t, x) {
      assert BlockAt(s, t, x);
      BlockLikeOk(s.cfg, s.blocks[x], s'.blocks[x], Lookup(s.blockFile, x), BlockTruth(s.cfg, t, x));
    }
    if k in s.files {
      assert PresentAt(s, t, k);
      forall i | i in s'.files[k].present ensures Backed(s', k, i) || WholeLayout(s'.cfg, |t(k)|) {
        assert Backed(s, k, i) || WholeLayout(s.cfg, |t(k)|);
        if BlockId(k, i) in s.blocks { assert BlockLike(s.blocks[BlockId(k, i)], s'.blocks[BlockId(k, i)]); }
      }
    }
  }

  lemma CosmeticSource(s: State, s': State, t: Truth, k: FileKey)
    requires SourceOk(s, t, k) && Cosmetic(s, s')
    ensures SourceOk(s', t, k)
  {
    forall j | 0 <= j < BlockTotal(s'.cfg, t, k)
      ensures BlockId(k, j) in s'.blocks && s'.blocks[BlockId(k, j)].bits.None? && s'.blocks[BlockId(k, j)].mem.None?
    {
      assert BlockLike(s.blocks[BlockId(k, j)], s'.blocks[BlockId(k, j)]);
    }
  }

  lemma CosmeticInstall(s: State, s': State, t: Truth, u: nat, i: Install)
    requires InstallOk(s, t, u, i) && Cosmetic(s, s')
    ensures InstallOk(s', t, u, i)
  {
    hide SourceOk, Copied;
    assert i.key in s.files ==> FileLike(s.files[i.key], s'.files[i.key]);
    if i.hydrate && Current(s', i) { CosmeticSource(s, s', t, i.key); }
  }

  lemma CosmeticWhole(s: State, s': State, t: Truth)
    requires WholeInv(s, t) && Cosmetic(s, s')
    ensures WholeInv(s', t)
  {
    forall k | k in s'.files ensures WholeAt(s', t, k) {
      assert WholeAt(s, t, k) && FileLike(s.files[k], s'.files[k]);
      if s.files[k].whole.Some? {
        assert ObjectLike(s.objects[s.files[k].whole.value], s'.objects[s.files[k].whole.value]);
      }
    }
    forall o | o in s'.objects ensures ObjectAt(s', o) {
      assert ObjectAt(s, o) && ObjectLike(s.objects[o], s'.objects[o]);
      forall k | k in s'.objects[o].refs ensures k in s'.files && s'.files[k].whole == Some(o) {
        assert FileLike(s.files[k], s'.files[k]);
      }
    }
  }

  lemma CosmeticIndex(s: State, s': State)
    requires TagsInv(s) && FlushInv(s) && Cosmetic(s, s')
    ensures TagsInv(s') && FlushInv(s') && forall u :: Gone(s, u) ==> Gone(s', u)
  {
    forall id | id in s'.blocks ensures s'.blocks[id].tag == s.blocks[id].tag && s'.blocks[id].mem == s.blocks[id].mem {
      assert BlockLike(s.blocks[id], s'.blocks[id]);
    }
    forall u | u in s'.flushes ensures FlushAt(s', u) { assert FlushAt(s, u); }
  }

  lemma CosmeticGrowth(s: State, s': State, r: Request)
    requires Cosmetic(s, s')
    ensures GrowthShrinks(s, s', r)
  {
    hide Covered, PieceCount;
    match r {
      case BlockReq(id, _, _) => assert id in s.blocks ==> BlockLike(s.blocks[id], s'.blocks[id]);
      case RangeReq(id, off, n, _) =>
        assert id in s.blocks ==> BlockLike(s.blocks[id], s'.blocks[id]);
        assert Missing(s'.cfg, s'.blocks, id, off, n) == Missing(s.cfg, s.blocks, id, off, n);
      case PartReq(id, _, _, _, _) => assert id.file in s.parts ==> PartLike(s.parts[id.file], s'.parts[id.file]);
      case _ =>
    }
  }

  lemma CosmeticRequest(s: State, s': State, t: Truth, r: Request)
    requires RequestOk(s, t, r) && Cosmetic(s, s')
    ensures RequestOk(s', t, r)
  {
    hide InstallOk, Aligned, Piece;
    match r {
      case PartReq(id, _, _, _, _) => assert FileLike(s.files[id.file], s'.files[id.file]);
      case InstallReq(u, i) =>
        CosmeticInstall(s, s', t, u, i);
        assert FileLike(s.files[i.key], s'.files[i.key]);
      case _ =>
    }
  }

  lemma CosmeticKeeps(s: State, s': State, t: Truth)
    requires Inv(s, t) && Cosmetic(s, s')
    ensures Inv(s', t)
  {
    hide KeyOk, TagsInv, WholeInv, FlushInv, InstallOk, Cosmetic, RequestOk, Waiting, GrowthBytes, GrowthEntries,
         SparseAt, NoteAt;
    forall k ensures KeyOk(s', t, k) { CosmeticKey(s, s', t, k); }
    CosmeticIndex(s, s');
    CosmeticWhole(s, s', t);
    CosmeticFields(s, s');
    CosmeticParts(s, s');
    forall u | u in s'.installs ensures InstallOk(s', t, u, s'.installs[u]) {
      CosmeticInstall(s, s', t, u, s.installs[u]);
    }
    if !s.lock.Free? {
      CosmeticRequest(s, s', t, s.lock.req);
      CosmeticGrowth(s, s', s.lock.req);
    }
  }

  lemma CosmeticFields(s: State, s': State)
    requires Cosmetic(s, s')
    ensures s'.installs == s.installs && s'.lock == s.lock && s'.cfg == s.cfg
    ensures s'.flushes == s.flushes && s'.notes == s.notes && s'.partFile == s.partFile && s'.nextTag == s.nextTag
  {
  }

  lemma CosmeticParts(s: State, s': State)
    requires Cosmetic(s, s')
    ensures s'.parts.Keys == s.parts.Keys && forall k :: k in s.parts ==> s'.parts[k].tag == s.parts[k].tag
  {
    forall k | k in s.parts ensures s'.parts[k].tag == s.parts[k].tag { assert PartLike(s.parts[k], s'.parts[k]); }
  }

  lemma BlocksAlike(s: State, t: Truth, blocks: map<BlockId, Block>)
    requires Inv(s, t) && AllLike(s.blocks, blocks, BlockLike)
    ensures Inv(s.(blocks := blocks), t)
  {
    hide Inv;
    Alike(s);
    CosmeticKeeps(s, s.(blocks := blocks), t);
  }

  lemma PartsAlike(s: State, t: Truth, parts: map<FileKey, Part>)
    requires Inv(s, t) && AllLike(s.parts, parts, PartLike)
    ensures Inv(s.(parts := parts), t)
  {
    hide Inv;
    Alike(s);
    CosmeticKeeps(s, s.(parts := parts), t);
  }

  lemma FilesAlike(s: State, t: Truth, files: map<FileKey, FileState>)
    requires Inv(s, t) && AllLike(s.files, files, FileLike)
    ensures Inv(s.(files := files), t)
  {
    hide Inv;
    Alike(s);
    CosmeticKeeps(s, s.(files := files), t);
  }

  lemma ObjectsAlike(s: State, t: Truth, objects: map<nat, Object>)
    requires Inv(s, t) && AllLike(s.objects, objects, ObjectLike)
    ensures Inv(s.(objects := objects), t)
  {
    hide Inv;
    Alike(s);
    CosmeticKeeps(s, s.(objects := objects), t);
  }

  lemma TouchBlockKeeps(s: State, t: Truth, k: FileKey, idx: nat, now: int)
    requires Inv(s, t)
    ensures Inv(TouchBlock(s, k, idx, now), t)
  {
    hide Inv, AllLike;
    Alike(s);
    var id := BlockId(k, idx);
    if k in s.parts && idx in s.parts[k].bits {
      var p := s.parts[k].(lastAccess := now, hot := true);
      AlikeBut(s.parts, k, p, PartLike);
      PartsAlike(s, t, s.parts[k := p]);
    } else if id in s.blocks {
      var b := s.blocks[id].(lastAccess := now, hot := true);
      AlikeBut(s.blocks, id, b, BlockLike);
      BlocksAlike(s, t, s.blocks[id := b]);
    }
  }

  lemma TouchWholeKeeps(s: State, t: Truth, k: FileKey, now: int)
    requires Inv(s, t)
    ensures Inv(TouchWhole(s, k, now), t)
  {
    hide Inv, AllLike;
    Alike(s);
    if k in s.files && s.files[k].whole.Some? && s.files[k].whole.value in s.objects {
      var o := s.files[k].whole.value;
      var ob := s.objects[o].(lastAccess := now, hot := true);
      AlikeBut(s.objects, o, ob, ObjectLike);
      ObjectsAlike(s, t, s.objects[o := ob]);
    }
  }

  lemma LookupKeeps(s: State, t: Truth, k: FileKey, idx: nat, now: int)
    requires Inv(s, t)
    ensures Inv(TouchWhole(TouchBlock(s, k, idx, now), k, now), t)
  {
    hide Inv, TouchBlock, TouchWhole;
    TouchBlockKeeps(s, t, k, idx, now);
    TouchWholeKeeps(TouchBlock(s, k, idx, now), t, k, now);
  }

  lemma LeaseKeeps(s: State, t: Truth, k: FileKey, now: int)
    requires Inv(s, t) && k in s.files && s.files[k].whole.Some? && s.files[k].whole.value in s.objects
    ensures Inv(OpenWhole(s, k, now), t)
  {
    hide Inv, AllLike;
    Alike(s);
    var o := s.files[k].whole.value;
    AlikeBut(s.objects, o, OpenWhole(s, k, now).objects[o], ObjectLike);
    ObjectsAlike(s, t, OpenWhole(s, k, now).objects);
  }

  lemma IdleKeeps(s: State, t: Truth, temps: map<string, nat>, closed: bool)
    requires Inv(s, t)
    ensures Inv(s.(temps := temps, closed := closed), t)
  {
    hide Inv;
    Alike(s);
    CosmeticKeeps(s, s.(temps := temps, closed := closed), t);
  }

  /** A file record made while another call may hold the lock. */
  lemma KnownStays(s: State, t: Truth, k: FileKey)
    requires Inv(s, t)
    ensures Inv(Known(s, k), t)
  {
    hide KeyOk, TagsInv, WholeInv, FlushInv, InstallInv, LockOk, FileFrame, GrowthShrinks;
    if k !in s.files {
      var s' := Known(s, k);
      NewRecordFrame(s, t, k);
      if s.lock.Asking? { SameGrowth(s, s', s.lock.req); }
      LockMoves(s, s', t, k, BlockId(k, 0));
      assert s'.(lock := s.lock) == s';
      StepOnFile(s, s', t, k, BlockId(k, 0), s.lock);
    }
  }

  lemma RepinnedLike(blocks: map<BlockId, Block>, k: FileKey, pinned: bool)
    ensures AllLike(blocks, Repinned(blocks, k, pinned), BlockLike)
  {
  }

  lemma PinRecord(s: State, t: Truth, k: FileKey, f: FileState)
    requires Inv(s, t) && k in s.files && FileLike(s.files[k], f)
    ensures Inv(SetFile(s, k, f).(blocks := Repinned(s.blocks, k, f.pinned || f.userPinned)), t)
  {
    hide Inv, AllLike, Repinned, FileLike;
    Alike(s);
    AlikeBut(s.files, k, f, FileLike);
    FilesAlike(s, t, s.files[k := f]);
    RepinnedLike(s.blocks, k, f.pinned || f.userPinned);
    BlocksAlike(s.(files := s.files[k := f]), t, Repinned(s.blocks, k, f.pinned || f.userPinned));
  }

  lemma PinKeeps(s: State, t: Truth, k: FileKey, pinned: bool, user: bool)
    requires Inv(s, t)
    ensures Inv(Pinned(s, k, pinned, user), t)
  {
    hide Inv, Repinned;
    if !(user && FileOf(s, k).userPinned == pinned) {
      KnownStays(s, t, k);
      var s1 := Known(s, k);
      PinRecord(s1, t, k, if user then FileOf(s1, k).(userPinned := pinned) else FileOf(s1, k).(pinned := pinned));
    }
  }

  // Flushes and installs in flight.

  /** Only flushes and installs changed, and they are sound. */
  lemma QuietStep(s: State, s': State, t: Truth)
    requires Inv(s, t) && s' == s.(flushes := s'.flushes, installs := s'.installs, lock := s'.lock)
    requires FlushInv(s') && InstallInv(s', t) && HandInv(s', t) && LockOk(s', t)
    ensures Inv(s', t)
  {
    hide KeyOk, FlushInv, InstallInv, HandInv, LockOk;
    forall k ensures KeyOk(s', t, k) { SameKey(s, s', t, k); }
    forall k | k in s'.files ensures WholeAt(s', t, k) { assert WholeAt(s, t, k); }
    forall o | o in s'.objects ensures ObjectAt(s', o) { assert ObjectAt(s, o); }
  }

  lemma SameInstalls(s: State, s': State, t: Truth)
    requires InstallInv(s, t) && IndexFor(s, s') && s'.installs == s.installs
    ensures InstallInv(s', t)
  {
    hide Copied, SourceOk;
    forall u | u in s'.installs ensures InstallOk(s', t, u, s'.installs[u]) { InstallSame(s, s', t, u, s.installs[u]); }
  }

  /** What installs depend on is the same. */
  predicate IndexFor(s: State, s': State) {
    s'.cfg == s.cfg && s'.files == s.files && s'.blocks == s.blocks && s'.parts == s.parts && s'.nextTag == s.nextTag
  }

  lemma InstallSame(s: State, s': State, t: Truth, u: nat, i: Install)
    requires InstallOk(s, t, u, i) && IndexFor(s, s')
    ensures InstallOk(s', t, u, i)
  {
  }

  lemma FlushBeginKeeps(s: State, t: Truth, id: BlockId)
    requires Inv(s, t) && s.lock.Free? && id in s.blocks && s.blocks[id].mem.Some?
    ensures Inv(FlushBegin(s, id), t)
  {
    hide WholeInv, InstallInv, KeyOk, NoteAt, Piece;
    var s', u := FlushBegin(s, id), s.blocks[id].tag;
    forall v | v in s'.flushes ensures FlushAt(s', v) { if v != u { assert FlushAt(s, v); } }
    assert KeyOk(s, t, id.file);
    IndexedSize(s, t, id);
    SameInstalls(s, s', t);
    QuietStep(s, s', t);
  }

  /** The size of a file with a block in the index is the real one. */
  lemma IndexedSize(s: State, t: Truth, id: BlockId)
    requires KeyOk(s, t, id.file) && id in s.blocks
    ensures SizeKnown(s, t, id.file) && id.index < BlockTotal(s.cfg, t, id.file)
  {
    hide BlockOk, PartOk;
    assert BlockAt(s, t, id);
  }

  lemma ReserveKeeps(s: State, t: Truth)
    requires Inv(s, t) && s.lock.Granted? && s.lock.req.InstallReq?
    ensures Inv(s.(installs := s.installs[s.lock.req.token := s.lock.req.install], lock := Free), t)
  {
    hide KeysInv, WholeInv, InstallOk, SparseAt, NoteAt;
    var u, i := s.lock.req.token, s.lock.req.install;
    var s' := s.(installs := s.installs[u := i], lock := Free);
    forall v | v in s'.installs ensures InstallOk(s', t, v, s'.installs[v]) {
      InstallSame(s, s', t, v, s'.installs[v]);
    }
    forall v, w | v in s'.installs && w in s'.installs && SameSource(s'.installs[v], s'.installs[w]) ensures v == w {
      if v != w { OnlyHold(s, t, if v == u then w else v); }
    }
    forall v | v in s'.flushes ensures FlushAt(s', v) { assert FlushAt(s, v); }
    QuietStep(s, s', t);
  }

  /** A hydration admitted holds its file alone, so no other one is in flight. */
  lemma OnlyHold(s: State, t: Truth, v: nat)
    requires Inv(s, t) && s.lock.Granted? && s.lock.req.InstallReq? && v in s.installs
    requires s.lock.req.install.hydrate && s.installs[v].key == s.lock.req.install.key
    ensures s.installs[v].fileTag != s.lock.req.install.fileTag
  {
    hide KeysInv, WholeInv, TagsInv, FlushInv, SourceOk, Copied;
    assert InstallOk(s, t, v, s.installs[v]);
  }

  // Hydration copies one more block.

  lemma CopiedNext(s: State, t: Truth, u: nat)
    requires Inv(s, t) && u in s.installs && s.installs[u].hydrate && Current(s, s.installs[u])
    requires s.installs[u].next < PieceCount(s.cfg.blockSize, s.installs[u].size)
    requires BlockId(s.installs[u].key, s.installs[u].next) in s.blockFile
    ensures var i := s.installs[u];
      Copied(s.cfg, i.(next := i.next + 1, temp := i.temp + s.blockFile[BlockId(i.key, i.next)]), t(i.key))
  {
    hide TagsInv, WholeInv, FlushInv, LockOk, Piece, PieceCount, Covered, Cut;
    var i := s.installs[u];
    var id := BlockId(i.key, i.next);
    assert InstallOk(s, t, u, i);
    assert id in s.blocks && KeyOk(s, t, i.key) && BlockAt(s, t, id);
    NextPiece(t(i.key), s.cfg.blockSize, i.next);
  }

  lemma CopyInstalls(s: State, t: Truth, u: nat)
    requires Inv(s, t) && u in s.installs && s.installs[u].hydrate
    requires s.installs[u].next < PieceCount(s.cfg.blockSize, s.installs[u].size)
    requires BlockId(s.installs[u].key, s.installs[u].next) in s.blockFile
    ensures InstallInv(HydrateCopy(s, u), t)
  {
    hide KeysInv, WholeInv, TagsInv, FlushInv, LockOk, SourceOk, Copied, PieceCount;
    var s' := HydrateCopy(s, u);
    forall v | v in s'.installs ensures InstallOk(s', t, v, s'.installs[v]) {
      InstallSame(s, s', t, v, s.installs[v]);
      if v == u && Current(s, s.installs[u]) { CopiedNext(s, t, u); }
    }
    assert forall v, w :: v in s'.installs && w in s'.installs && SameSource(s'.installs[v], s'.installs[w]) ==>
      SameSource(s.installs[v], s.installs[w]);
  }

  lemma CopyKeeps(s: State, t: Truth, u: nat)
    requires Inv(s, t) && u in s.installs && s.installs[u].hydrate
    requires s.installs[u].next < PieceCount(s.cfg.blockSize, s.installs[u].size)
    requires BlockId(s.installs[u].key, s.installs[u].next) in s.blockFile
    ensures Inv(HydrateCopy(s, u), t)
  {
    hide KeysInv, WholeInv, TagsInv, InstallInv, LockOk, PieceCount, SparseAt, NoteAt;
    var s' := HydrateCopy(s, u);
    CopyInstalls(s, t, u);
    forall v | v in s'.flushes ensures FlushAt(s', v) { assert FlushAt(s, v); }
    LockSame(s, s', t);
    QuietStep(s, s', t);
  }

  lemma LockSame(s: State, s': State, t: Truth)
    requires LockOk(s, t) && IndexFor(s, s') && s'.installs.Keys == s.installs.Keys && s'.lock == s.lock
    requires s'.objects == s.objects && s'.inodes == s.inodes && s'.flushes == s.flushes
    ensures LockOk(s', t)
  {
    hide InstallOk, Covered, PieceCount, Piece, Aligned;
    if !s.lock.Free? {
      match s.lock.req {
        case InstallReq(u, i) => InstallSame(s, s', t, u, i);
        case RangeReq(id, off, n, _) => assert Missing(s'.cfg, s'.blocks, id, off, n) ==
          Missing(s.cfg, s.blocks, id, off, n);
        case _ =>
      }
    }
  }

  // Unlocking and granting.

  lemma GrantKeeps(s: State, t: Truth)
    requires Inv(s, t) && s.lock.Asking?
    ensures Inv(s.(lock := Granted(s.lock.req)), t)
  {
    hide KeysInv, TagsInv, WholeInv, FlushInv, InstallInv, GrowthBytes, GrowthEntries, Waiting;
    var l := Granted(s.lock.req);
    RequestApart(s, t, s.lock.req, l);
    LockApart(s, t, l);
  }

  /** No request depends on the lock itself. */
  lemma RequestApart(s: State, t: Truth, r: Request, l: Lock)
    requires RequestOk(s, t, r)
    ensures RequestOk(s.(lock := l), t, r)
  {
    hide InstallOk, Piece, Aligned;
    if r.InstallReq? { InstallSame(s, s.(lock := l), t, r.token, r.install); }
  }

  lemma HoldLetGo(s: State, t: Truth, k: FileKey, fileTag: nat, token: nat)
    requires Inv(s, t) && token !in s.installs
    ensures Inv(ReleaseHold(s, k, fileTag, token).(lock := Free), t)
  {
    hide KeysInv, TagsInv, WholeInv, FlushInv, InstallInv, LockOk;
    if k in s.files && s.files[k].tag == fileTag {
      var f := s.files[k].(holds := s.files[k].holds - {token});
      RecordKeeps(s, t, k, f, 0);
      assert ReleaseHold(s, k, fileTag, token).(lock := Free) ==
        s.(files := s.files[k := f], nextTag := s.nextTag + 0, lock := Free);
    } else {
      JustFreed(s, t);
    }
  }

  lemma UnlockKeeps(s: State, t: Truth)
    requires Inv(s, t) && !s.lock.Free?
    ensures Inv(Freed(s), t)
  {
    hide Inv, Freed, ReleaseHold;
    FreedByKind(s);
    TokenIsNew(s, t);
    match s.lock.req {
      case PartReq(id, _, _, token, fileTag) => HoldLetGo(s, t, id.file, fileTag, token);
      case InstallReq(token, i) => HoldLetGo(s, t, i.key, i.fileTag, token);
      case _ => JustFreed(s, t);
    }
  }

  lemma FreedByKind(s: State)
    requires !s.lock.Free?
    ensures Freed(s) ==
      match s.lock.req
      case PartReq(id, _, _, token, fileTag) => ReleaseHold(s, id.file, fileTag, token).(lock := Free)
      case InstallReq(token, i) => ReleaseHold(s, i.key, i.fileTag, token).(lock := Free)
      case _ => s.(lock := Free)
  {
    hide ReleaseHold;
  }

  /** The token of a request is not yet that of an install. */
  lemma TokenIsNew(s: State, t: Truth)
    requires Inv(s, t) && !s.lock.Free?
    ensures s.lock.req.PartReq? ==> s.lock.req.token !in s.installs
    ensures s.lock.req.InstallReq? ==> s.lock.req.token !in s.installs
  {
    hide KeysInv, TagsInv, WholeInv, FlushInv, InstallInv, HandInv, GrowthBytes, GrowthEntries, Waiting, InstallOk;
  }

  lemma JustFreed(s: State, t: Truth)
    requires Inv(s, t)
    ensures Inv(s.(lock := Free), t)
  {
    hide KeysInv, TagsInv, WholeInv, FlushInv, InstallInv, HandInv, LockOk;
    FreeLock(s.(lock := Free), t);
    LockApart(s, t, Free);
  }
}
