/** Steps on complete files: attaching, leasing, evicting and forgetting them keeps
    the invariant. */
module CacheKeepsWhole {

  import opened Common
  import opened Geometry
  import opened Ranges
  import opened CacheModel
  import opened CacheInvariant
  import opened CacheFrames
  import opened CacheLocks
  import opened CacheEdits

  /** Only objects, inodes and the files' links to them changed. */
  ghost predicate WholeOnly(s: State, s': State) {
    && s' == s.(objects := s'.objects, inodes := s'.inodes, files := s'.files)
    && s'.files.Keys == s.files.Keys
    && forall k :: k in s.files ==> s'.files[k].(whole := None) == s.files[k].(whole := None)
  }

  lemma WholeOnlyKey(s: State, s': State, t: Truth, k: FileKey)
    requires KeyOk(s, t, k) && WholeOnly(s, s')
    ensures KeyOk(s', t, k)
  {
    hide BlockOk, PartOk;
    assert k in s.files ==> s'.files[k].(whole := None) == s.files[k].(whole := None);
    forall x | x in s'.blocks && x.file == k ensures BlockAt(s', t, x) { assert BlockAt(s, t, x); }
    if k in s.files {
      assert PresentAt(s, t, k);
      forall i | i in s'.files[k].present ensures Backed(s', k, i) || WholeLayout(s'.cfg, |t(k)|) {
        assert Backed(s, k, i) || WholeLayout(s.cfg, |t(k)|);
      }
    }
  }

  lemma WholeOnlyInstall(s: State, s': State, t: Truth, u: nat, i: Install)
    requires InstallOk(s, t, u, i) && WholeOnly(s, s')
    ensures InstallOk(s', t, u, i)
  {
    assert i.key in s.files ==> s'.files[i.key].(whole := None) == s.files[i.key].(whole := None);
  }

  lemma WholeOnlyKeeps(s: State, s': State, t: Truth)
    requires Inv(s, t) && WholeOnly(s, s') && WholeInv(s', t) && LockOk(s', t)
    ensures Inv(s', t)
  {
    hide KeyOk, InstallOk, WholeOnly, LockOk, WholeInv, SparseAt, NoteAt;
    forall k ensures KeyOk(s', t, k) { WholeOnlyKey(s, s', t, k); }
    WholeOnlyFields(s, s');
    forall u | u in s'.installs ensures InstallOk(s', t, u, s'.installs[u]) {
      WholeOnlyInstall(s, s', t, u, s.installs[u]);
    }
    forall u | u in s'.flushes ensures FlushAt(s', u) { assert FlushAt(s, u); }
  }

  lemma WholeOnlyFields(s: State, s': State)
    requires WholeOnly(s, s')
    ensures s'.blocks == s.blocks && s'.flushes == s.flushes && s'.installs == s.installs && s'.nextTag == s.nextTag
    ensures s'.lock == s.lock && s'.parts == s.parts && s'.cfg == s.cfg && s'.notes == s.notes
    ensures s'.partFile == s.partFile
  {
  }

  /** Inodes only go away. */
  predicate ObjectsShrink(s: State, s': State) {
    forall o :: o in s'.objects ==> o in s.objects && o in s.inodes && o in s'.inodes && s'.inodes[o] == s.inodes[o]
  }

  lemma WholeOnlyLock(s: State, s': State, t: Truth)
    requires LockOk(s, t) && WholeOnly(s, s') && ObjectsShrink(s, s')
    ensures LockOk(s', t)
  {
    hide Covered, Piece, Aligned, InstallOk, PieceCount;
    if !s.lock.Free? {
      var r := s.lock.req;
      match r {
        case PartReq(id, _, _, _, _) => assert s'.files[id.file].(whole := None) == s.files[id.file].(whole := None);
        case InstallReq(u, i) =>
          WholeOnlyInstall(s, s', t, u, i);
          assert s'.files[i.key].(whole := None) == s.files[i.key].(whole := None);
        case RangeReq(id, off, n, _) => assert Missing(s'.cfg, s'.blocks, id, off, n) ==
          Missing(s.cfg, s.blocks, id, off, n);
        case _ =>
      }
    }
  }

  /** A step on objects alone, with inodes only going away. */
  lemma ObjectStep(s: State, s': State, t: Truth)
    requires Inv(s, t) && WholeOnly(s, s') && ObjectsShrink(s, s') && WholeInv(s', t)
    ensures Inv(s', t)
  {
    hide KeysInv, TagsInv, WholeInv, FlushInv, InstallInv, LockOk, WholeOnly, ObjectsShrink;
    WholeOnlyLock(s, s', t);
    WholeOnlyKeeps(s, s', t);
  }

  // The links between files and inodes.

  type Files = map<FileKey, FileState>
  type Objects = map<nat, Object>
  type Inodes = map<nat, Bytes>

  ghost predicate LinkAt(files: Files, objects: Objects, inodes: Inodes, t: Truth, k: FileKey)
    requires k in files
  {
    files[k].whole.Some? ==>
      var o := files[k].whole.value;
      o in objects && k in objects[o].refs && o in inodes && inodes[o] == t(k) && files[k].size == |t(k)|
  }

  ghost predicate RefsAt(files: Files, objects: Objects, inodes: Inodes, o: nat)
    requires o in objects
  {
    o in inodes && objects[o].size == |inodes[o]| && forall k :: k in objects[o].refs ==>
      k in files && files[k].whole == Some(o)
  }

  predicate InUse(objects: Objects, o: nat)
    requires o in objects
  {
    objects[o].refs != {} || objects[o].readers > 0
  }

  /** As WholeInv, but inode x may be waiting to be released. */
  ghost predicate Linked(files: Files, objects: Objects, inodes: Inodes, t: Truth, x: nat) {
    && (forall k :: k in files ==> LinkAt(files, objects, inodes, t, k))
    && (forall o :: o in objects ==> RefsAt(files, objects, inodes, o) && (o == x || InUse(objects, o)))
  }

  lemma WholeLinked(s: State, t: Truth, x: nat)
    requires WholeInv(s, t)
    ensures Linked(s.files, s.objects, s.inodes, t, x)
  {
    forall k | k in s.files ensures LinkAt(s.files, s.objects, s.inodes, t, k) { assert WholeAt(s, t, k); }
    forall o | o in s.objects ensures RefsAt(s.files, s.objects, s.inodes, o) && InUse(s.objects, o) {
      assert ObjectAt(s, o);
    }
  }

  lemma LinkedWhole(s: State, t: Truth, x: nat)
    requires Linked(s.files, s.objects, s.inodes, t, x) && (x in s.objects ==> InUse(s.objects, x))
    ensures WholeInv(s, t)
  {
    forall k | k in s.files ensures WholeAt(s, t, k) { assert LinkAt(s.files, s.objects, s.inodes, t, k); }
    forall o | o in s.objects ensures ObjectAt(s, o) {
      assert RefsAt(s.files, s.objects, s.inodes, o) && InUse(s.objects, o);
    }
  }

  lemma ReleaseLinks(files: Files, objects: Objects, inodes: Inodes, t: Truth, x: nat)
    requires Linked(files, objects, inodes, t, x) && x in objects && !InUse(objects, x)
    ensures Linked(files, objects - {x}, inodes - {x}, t, x)
  {
    forall k | k in files ensures LinkAt(files, objects - {x}, inodes - {x}, t, k) {
      assert LinkAt(files, objects, inodes, t, k);
    }
    forall o | o in objects - {x} ensures RefsAt(files, objects - {x}, inodes - {x}, o) {
      assert RefsAt(files, objects, inodes, o);
    }
  }

  /** Releasing an inode that nothing uses any more. */
  lemma ReleasedKeeps(s: State, s1: State, t: Truth, x: nat)
    requires Inv(s, t) && WholeOnly(s, s1) && Linked(s1.files, s1.objects, s1.inodes, t, x) && ObjectsShrink(s, s1)
    ensures Inv(Released(s1, x), t) && WholeOnly(s, Released(s1, x)) && Released(s1, x).files == s1.files
    ensures ObjectsShrink(s, Released(s1, x))
  {
    hide KeysInv, TagsInv, WholeInv, FlushInv, InstallInv, LockOk, Linked;
    if x in s1.objects && !InUse(s1.objects, x) {
      ReleaseLinks(s1.files, s1.objects, s1.inodes, t, x);
      var s' := s1.(objects := s1.objects - {x}, inodes := s1.inodes - {x});
      LinkedWhole(s', t, x);
      ObjectStep(s, s', t);
    } else {
      LinkedWhole(s1, t, x);
      ObjectStep(s, s1, t);
    }
  }

  // Detaching and evicting.

  lemma UnlinkKeeps(files: Files, objects: Objects, inodes: Inodes, t: Truth, k: FileKey, x: nat)
    requires Linked(files, objects, inodes, t, x) && k in files && files[k].whole == Some(x) && x in objects
    ensures Linked(files[k := files[k].(whole := None)], objects[x := objects[x].(refs := objects[x].refs - {k})],
                   inodes, t, x)
  {
    var files', objects' := files[k := files[k].(whole := None)],
      objects[x := objects[x].(refs := objects[x].refs - {k})];
    forall j | j in files' ensures LinkAt(files', objects', inodes, t, j) {
      assert LinkAt(files, objects, inodes, t, j);
    }
    forall o | o in objects' ensures RefsAt(files', objects', inodes, o) && (o == x || InUse(objects', o)) {
      assert RefsAt(files, objects, inodes, o);
    }
  }

  lemma WholeOf(s: State, t: Truth, k: FileKey)
    requires WholeInv(s, t) && k in s.files
    ensures WholeAt(s, t, k) && ObjectsShrink(s, s)
  {
    forall o | o in s.objects ensures o in s.inodes { assert ObjectAt(s, o); }
  }

  lemma DetachKeeps(s: State, t: Truth, k: FileKey)
    requires Inv(s, t) && k in s.files
    ensures Inv(Detach(s, k), t) && WholeOnly(s, Detach(s, k)) &&
      Detach(s, k).files == s.files[k := s.files[k].(whole := None)]
    ensures ObjectsShrink(s, Detach(s, k))
  {
    hide KeysInv, TagsInv, WholeInv, FlushInv, InstallInv, LockOk, Linked, Released;
    var f := s.files[k];
    WholeOf(s, t, k);
    if f.whole.Some? {
      var o := f.whole.value;
      WholeLinked(s, t, o);
      UnlinkKeeps(s.files, s.objects, s.inodes, t, k, o);
      var s1 := s.(files := s.files[k := f.(whole := None)],
                   objects := s.objects[o := s.objects[o].(refs := s.objects[o].refs - {k})]);
      ReleasedKeeps(s, s1, t, o);
    } else {
      assert s.files[k := f.(whole := None)] == s.files;
    }
  }

  lemma CloseWholeKeeps(s: State, t: Truth, o: nat)
    requires Inv(s, t) && o in s.objects && s.objects[o].readers > 0
    ensures Inv(CloseWhole(s, o), t)
  {
    hide KeysInv, TagsInv, FlushInv, InstallInv, LockOk, Released;
    var s1 := s.(objects := s.objects[o := s.objects[o].(readers := s.objects[o].readers - 1)]);
    WholeLinked(s, t, o);
    forall k | k in s1.files ensures LinkAt(s1.files, s1.objects, s1.inodes, t, k) {
      assert LinkAt(s.files, s.objects, s.inodes, t, k);
    }
    forall p | p in s1.objects ensures RefsAt(s1.files, s1.objects, s1.inodes, p) {
      assert RefsAt(s.files, s.objects, s.inodes, p);
    }
    ReleasedKeeps(s, s1, t, o);
  }

  lemma UnlinkAll(files: Files, objects: Objects, inodes: Inodes, t: Truth, x: nat)
    requires Linked(files, objects, inodes, t, x) && x in objects
    ensures Linked(Unlinked(files, objects[x].refs), objects[x := objects[x].(refs := {})], inodes, t, x)
  {
    var files', objects' := Unlinked(files, objects[x].refs), objects[x := objects[x].(refs := {})];
    assert RefsAt(files, objects, inodes, x);
    forall k | k in files' ensures LinkAt(files', objects', inodes, t, k) {
      assert LinkAt(files, objects, inodes, t, k);
    }
    forall o | o in objects' ensures RefsAt(files', objects', inodes, o) && (o == x || InUse(objects', o)) {
      assert RefsAt(files, objects, inodes, o);
    }
  }

  lemma EvictObjectKeeps(s: State, t: Truth, o: nat)
    requires Inv(s, t) && o in s.objects
    ensures Inv(EvictObject(s, o), t)
  {
    hide KeysInv, TagsInv, FlushInv, InstallInv, LockOk, Released, Linked;
    var refs := s.objects[o].refs;
    if refs != {} {
      var s1 := s.(files := Unlinked(s.files, refs), objects := s.objects[o := s.objects[o].(refs := {})]);
      WholeLinked(s, t, o);
      UnlinkAll(s.files, s.objects, s.inodes, t, o);
      assert forall p :: p in s.objects ==> ObjectAt(s, p);
      ReleasedKeeps(s, s1, t, o);
    }
  }

  // Attaching.

  /** The inode's object with one more name. */
  function WithName(objects: Objects, o: nat, k: FileKey, size: nat, now: int): Objects {
    var ob := if o in objects then objects[o] else Object(size, {}, 0, now, false);
    objects[o := ob.(refs := ob.refs + {k}, lastAccess := now)]
  }

  lemma LinkKeeps(files: Files, objects: Objects, inodes: Inodes, t: Truth, k: FileKey, o: nat, now: int)
    requires Linked(files, objects, inodes, t, o) && k in files && files[k].whole in {None, Some(o)} &&
      files[k].size == |t(k)|
    requires o in objects ==> inodes[o] == t(k)
    ensures Linked(files[k := files[k].(whole := Some(o))], WithName(objects, o, k, |t(k)|, now),
                   if o in objects then inodes else inodes[o := t(k)], t, o)
    ensures InUse(WithName(objects, o, k, |t(k)|, now), o)
  {
    var files', objects', inodes' :=
      files[k := files[k].(whole := Some(o))], WithName(objects, o, k, |t(k)|, now), if o in objects then inodes
        else inodes[o := t(k)];
    assert o in objects ==> RefsAt(files, objects, inodes, o);
    forall j | j in files' ensures LinkAt(files', objects', inodes', t, j) {
      assert LinkAt(files, objects, inodes, t, j);
    }
    forall p | p in objects' ensures RefsAt(files', objects', inodes', p) && (p == o || InUse(objects', p)) {
      if p in objects { assert RefsAt(files, objects, inodes, p); }
    }
  }

  lemma FreeLock(s: State, t: Truth)
    requires s.lock.Free?
    ensures LockOk(s, t)
  {
  }

  /** The old content detached, unless it is the new one. */
  function Cleared(s: State, k: FileKey, o: nat): State {
    if FileOf(s, k).whole == Some(o) then s else Detach(s, k)
  }

  lemma ClearedKeeps(s: State, t: Truth, k: FileKey, o: nat)
    requires Inv(s, t) && k in s.files
    ensures Inv(Cleared(s, k, o), t) && WholeOnly(s, Cleared(s, k, o)) && ObjectsShrink(s, Cleared(s, k, o))
    ensures k in Cleared(s, k, o).files && Cleared(s, k, o).files[k].whole in {None, Some(o)}
  {
    hide KeysInv, TagsInv, WholeInv, FlushInv, InstallInv, LockOk, Detach;
    DetachKeeps(s, t, k);
    WholeOf(s, t, k);
  }

  function Linking(s: State, k: FileKey, o: nat, data: Bytes, now: int): State
    requires k in s.files
  {
    s.(files := s.files[k := s.files[k].(whole := Some(o))], objects := WithName(s.objects, o, k, |data|, now),
       inodes := if o in s.objects then s.inodes else s.inodes[o := data])
  }

  lemma LinkingKeeps(s: State, t: Truth, k: FileKey, o: nat, now: int)
    requires Inv(s, t) && s.lock.Free? && k in s.files && s.files[k].whole in {None, Some(o)} &&
      s.files[k].size == |t(k)|
    requires o in s.objects ==> o in s.inodes && s.inodes[o] == t(k)
    ensures Inv(Linking(s, k, o, t(k), now), t)
  {
    hide KeysInv, TagsInv, WholeInv, FlushInv, InstallInv, LockOk, Linked, WithName;
    var s' := Linking(s, k, o, t(k), now);
    WholeLinked(s, t, o);
    LinkKeeps(s.files, s.objects, s.inodes, t, k, o, now);
    LinkedWhole(s', t, o);
    FreeLock(s', t);
    WholeOnlyKeeps(s, s', t);
  }

  lemma AttachIs(s: State, k: FileKey, o: nat, data: Bytes, now: int)
    requires s.lock.Free? && k in s.files && k in Cleared(s, k, o).files && Cleared(s, k, o).lock.Free?
    ensures var s1 := Cleared(s, k, o);
      Attach(s, k, o, data, now) ==
        Linking(s1.(files := s1.files[k := s1.files[k].(size := |data|)], lock := Free), k, o, data, now)
  {
    hide Detach;
  }

  lemma AttachKeeps(s: State, t: Truth, k: FileKey, o: nat, data: Bytes, now: int)
    requires Inv(s, t) && s.lock.Free? && k in s.files && data == t(k) &&
      (o in s.objects ==> o in s.inodes && s.inodes[o] == t(k))
    ensures Inv(Attach(s, k, o, data, now), t)
  {
    hide Inv, Attach, Cleared, Linking;
    ClearedKeeps(s, t, k, o);
    var s1 := Cleared(s, k, o);
    AttachIs(s, k, o, data, now);
    RecordKeeps(s1, t, k, s1.files[k].(size := |data|), 0);
    LinkingKeeps(s1.(files := s1.files[k := s1.files[k].(size := |data|)], lock := Free), t, k, o, now);
  }

  // Everything a file had is dropped.

  /** No blocks and no sparse file of k; the records become `files`. */
  function Emptied(s: State, k: FileKey, files: Files): State {
    var ids := BlocksOf(s, k);
    DropAll(s, ids).(blockFile := s.blockFile - ids, parts := s.parts - {k}, partFile := s.partFile - {k},
                     files := files)
  }

  lemma EmptiedOthers(s: State, k: FileKey, files: Files)
    requires forall j :: j != k ==> Lookup(files, j) == Lookup(s.files, j)
    ensures OthersSame(s, Emptied(s, k, files), k)
  {
  }

  lemma EmptiedIndex(s: State, k: FileKey, files: Files)
    ensures TagsKept(s, Emptied(s, k, files), BlockId(k, 0)) && FlushesKept(s, Emptied(s, k, files))
    ensures Emptied(s, k, files).notes == s.notes
  {
  }

  lemma EmptiedFields(s: State, k: FileKey, files: Files)
    ensures var s' := Emptied(s, k, files);
      && s'.cfg == s.cfg && s'.files == files && s'.installs == s.installs && s'.nextTag == s.nextTag &&
         s'.lock == s.lock
      && s'.objects == s.objects && s'.inodes == s.inodes && k !in s'.parts && forall id :: id in s'.blocks ==>
         id.file != k
  {
  }

  /** A complete file supersedes the sparse one and the blocks. */
  function Wiped(s: State, k: FileKey, f: FileState): State {
    Emptied(s, k, s.files[k := f.(present := {})])
  }

  lemma WipedIs(s: State, k: FileKey, f: FileState)
    ensures RemoveFileBlocks(SetFile(s, k, f), k) == Wiped(s, k, f)
  {
    assert s.files[k := f][k := f.(present := {})] == s.files[k := f.(present := {})];
    assert BlocksOf(SetFile(s, k, f), k) == BlocksOf(s, k);
  }

  lemma WipedKey(s: State, t: Truth, k: FileKey, f: FileState)
    requires KeysInv(s, t) && FileMoves(s, t, k, f)
    ensures KeyOk(Wiped(s, k, f), t, k)
  {
    hide Emptied, FileMoves;
    EmptiedFields(s, k, s.files[k := f.(present := {})]);
    assert KeyOk(s, t, k) && PresentAt(s, t, k) && f.tag == s.files[k].tag by { FileMovesTag(s, t, k, f); }
  }

  lemma FileMovesTag(s: State, t: Truth, k: FileKey, f: FileState)
    requires FileMoves(s, t, k, f)
    ensures k in s.files && f.tag == s.files[k].tag
  {
  }

  lemma WipedFrame(s: State, t: Truth, k: FileKey, f: FileState)
    requires FileMoves(s, t, k, f) && (f.generation > s.files[k].generation || Unhydrated(s, k))
    ensures FileFrame(s, Wiped(s, k, f), t, k, BlockId(k, 0))
  {
    hide Emptied, SourceKept, OthersSame, TagsKept, FlushesKept;
    var files := s.files[k := f.(present := {})];
    EmptiedFields(s, k, files);
    EmptiedOthers(s, k, files);
    EmptiedIndex(s, k, files);
  }

  lemma WipedKeeps(s: State, t: Truth, k: FileKey, f: FileState)
    requires Inv(s, t) && s.lock.Free? && FileMoves(s, t, k, f) &&
      (f.generation > s.files[k].generation || Unhydrated(s, k))
    ensures Inv(Wiped(s, k, f), t)
  {
    hide KeysInv, TagsInv, WholeInv, FlushInv, InstallInv, LockOk, FileFrame, Emptied, FileMoves, KeyOk;
    var s' := Wiped(s, k, f);
    WipedFrame(s, t, k, f);
    WipedKey(s, t, k, f);
    EmptiedFields(s, k, s.files[k := f.(present := {})]);
    FreeLock(s', t);
    assert s'.(lock := Free) == s';
    StepOnFile(s, s', t, k, BlockId(k, 0), Free);
  }

  // Forget.

  lemma ForgottenWhole(s: State, t: Truth, k: FileKey)
    requires WholeInv(s, t) && k in s.files && s.files[k].whole.None?
    ensures WholeInv(Emptied(s, k, s.files - {k}), t)
  {
    hide Emptied;
    var s' := Emptied(s, k, s.files - {k});
    EmptiedFields(s, k, s.files - {k});
    forall j | j in s'.files ensures WholeAt(s', t, j) { assert WholeAt(s, t, j); }
    forall o | o in s'.objects ensures ObjectAt(s', o) { assert ObjectAt(s, o); }
  }

  lemma ForgottenKeeps(s: State, t: Truth, k: FileKey)
    requires Inv(s, t) && s.lock.Free? && k in s.files && s.files[k].whole.None?
    ensures Inv(Emptied(s, k, s.files - {k}), t)
  {
    hide KeysInv, TagsInv, WholeInv, FlushInv, InstallInv, LockOk, Emptied, SourceKept, OthersSame, TagsKept,
         FlushesKept;
    var s' := Emptied(s, k, s.files - {k});
    EmptiedFields(s, k, s.files - {k});
    EmptiedOthers(s, k, s.files - {k});
    EmptiedIndex(s, k, s.files - {k});
    ForgottenWhole(s, t, k);
    FreeLock(s', t);
    assert s'.(lock := Free) == s';
    StepOnWhole(s, s', t, k, BlockId(k, 0), Free);
  }

  lemma ForgetIs(s: State, k: FileKey)
    requires k in s.files && WholeOnly(s, Detach(s, k))
    ensures Forget(s, k) == Emptied(Detach(s, k), k, Detach(s, k).files - {k})
  {
    hide Detach;
    assert BlocksOf(Detach(s, k), k) == BlocksOf(s, k);
  }

  lemma ForgetKeeps(s: State, t: Truth, k: FileKey)
    requires Inv(s, t) && s.lock.Free?
    ensures Inv(Forget(s, k), t)
  {
    hide Inv, Detach, Emptied;
    if k in s.files {
      DetachKeeps(s, t, k);
      ForgetIs(s, k);
      ForgottenKeeps(Detach(s, k), t, k);
    }
  }

  // The end of an install.

  /** Nothing but file records, installs and tags changed. */
  predicate IndexSame(s: State, s': State) {
    && s'.cfg == s.cfg && s'.blocks == s.blocks && s'.parts == s.parts && s'.flushes == s.flushes &&
       s'.blockFile == s.blockFile && s'.notes == s.notes
    && s'.partFile == s.partFile && s'.objects == s.objects && s'.inodes == s.inodes && s.nextTag <= s'.nextTag &&
       s'.lock == s.lock
  }

  /** The record of k is the same but for what no claim depends on. */
  predicate SameClaims(f: FileState, g: FileState) {
    g.(holds := f.holds, pinned := f.pinned, userPinned := f.userPinned) == f
  }

  /** At most the record of k changed, and some installs ended. */
  predicate RecordStep(s: State, s': State, k: FileKey) {
    && IndexSame(s, s') && (forall u :: u in s'.installs ==> u in s.installs && s'.installs[u] == s.installs[u])
    && (s'.files == s.files ||
        (k in s.files && k in s'.files && s'.files == s.files[k := s'.files[k]] && SameClaims(s.files[k], s'.files[k])))
    && (k in s.files ==> s'.files[k].holds <= s.files[k].holds &&
                         forall u :: u in s.files[k].holds && (u in s'.installs || u !in s.installs) ==>
                           u in s'.files[k].holds)
  }

  lemma EndInstallIndex(s: State, u: nat)
    requires u in s.installs
    ensures IndexSame(s, EndInstall(s, u)) && EndInstall(s, u).installs == s.installs - {u}
  {
  }

  lemma EndInstallFiles(s: State, u: nat)
    requires u in s.installs
    ensures var i := s.installs[u];
      EndInstall(s, u).files == if i.key in s.files && s.files[i.key].tag == i.fileTag
        then s.files[i.key := s.files[i.key].(holds := s.files[i.key].holds - {u})] else s.files
  {
  }

  lemma EndInstallIs(s: State, u: nat)
    requires u in s.installs
    ensures RecordStep(s, EndInstall(s, u), s.installs[u].key)
  {
    hide EndInstall, IndexSame;
    EndInstallIndex(s, u);
    EndInstallFiles(s, u);
  }

  lemma RecordStepFrame(s: State, s': State, t: Truth, k: FileKey)
    requires RecordStep(s, s', k)
    ensures FileFrame(s, s', t, k, BlockId(k, 0)) && RecordKept(s, s', t, k) && SourceSafe(s, s', t, k)
  {
    assert SourceKept(s, s', t, k);
    assert OthersSame(s, s', k);
    assert FlushesKept(s, s');
  }

  lemma RecordStepKey(s: State, s': State, t: Truth, k: FileKey)
    requires RecordStep(s, s', k) && KeyOk(s, t, k)
    ensures KeyOk(s', t, k)
  {
    hide BlockOk, PartOk;
    forall x | x in s'.blocks && x.file == k ensures BlockAt(s', t, x) { assert BlockAt(s, t, x); }
    if k in s.files {
      assert PresentAt(s, t, k);
      forall i | i in s'.files[k].present ensures Backed(s', k, i) || WholeLayout(s'.cfg, |t(k)|) {
        assert Backed(s, k, i) || WholeLayout(s.cfg, |t(k)|);
      }
    }
  }

  lemma SameGrowth(s: State, s': State, r: Request)
    requires IndexSame(s, s')
    ensures GrowthShrinks(s, s', r)
  {
    hide Covered, PieceCount;
    if r.RangeReq? {
      assert Missing(s'.cfg, s'.blocks, r.id, r.off, r.n) == Missing(s.cfg, s.blocks, r.id, r.off, r.n);
    }
  }

  lemma RecordStepKeeps(s: State, s': State, t: Truth, k: FileKey)
    requires Inv(s, t) && RecordStep(s, s', k)
    ensures Inv(s', t)
  {
    hide KeyOk, TagsInv, WholeInv, FlushInv, InstallInv, LockOk, FileFrame, SourceSafe, RecordKept, GrowthShrinks;
    RecordStepFrame(s, s', t, k);
    RecordStepKey(s, s', t, k);
    if s.lock.Asking? { SameGrowth(s, s', s.lock.req); }
    LockMoves(s, s', t, k, BlockId(k, 0));
    assert s'.(lock := s.lock) == s';
    StepOnFile(s, s', t, k, BlockId(k, 0), s.lock);
  }

  lemma EndInstallKeeps(s: State, t: Truth, u: nat)
    requires Inv(s, t) && u in s.installs
    ensures Inv(EndInstall(s, u), t)
  {
    hide Inv, EndInstall, RecordStep;
    EndInstallIs(s, u);
    RecordStepKeeps(s, EndInstall(s, u), t, s.installs[u].key);
  }

  // Publishing a complete file.

  lemma AttachFields(s: State, t: Truth, k: FileKey, o: nat, data: Bytes, now: int)
    requires Inv(s, t) && s.lock.Free? && k in s.files
    ensures var s' := Attach(s, k, o, data, now);
      && s'.lock.Free? && s'.installs == s.installs && k in s'.files && s'.files[k].tag == s.files[k].tag &&
         s'.files[k].size == |data|
  {
    hide Inv, Detach;
    DetachKeeps(s, t, k);
  }

  lemma InstalledKeeps(s: State, t: Truth, k: FileKey, o: nat, data: Bytes, pinned: bool, now: int)
    requires Inv(s, t) && s.lock.Free? && k in s.files && data == t(k) &&
      (o in s.objects ==> o in s.inodes && s.inodes[o] == t(k))
    ensures Inv(Installed(s, k, o, data, pinned, now), t)
  {
    hide Inv, Attach, RemoveFileBlocks, Wiped;
    var s1 := Attach(s, k, o, data, now);
    AttachKeeps(s, t, k, o, data, now);
    AttachFields(s, t, k, o, data, now);
    var f := s1.files[k].(pinned := s1.files[k].pinned || pinned, generation := s1.files[k].generation + 1);
    WipedIs(s1, k, f);
    WipedKeeps(s1, t, k, f);
  }

  /** A hydration that copied every block copied the file. */
  lemma CopiedAll(c: Config, i: Install, data: Bytes)
    requires Copied(c, i, data) && i.next == PieceCount(c.blockSize, |data|)
    ensures i.temp == data
  {
    PieceInRange(c.blockSize, i.next, |data|);
    assert Cut(data, 0, i.next * c.blockSize) == data;
  }

  lemma FinishHydrateReal(s: State, t: Truth, u: nat)
    requires Inv(s, t) && u in s.installs && s.installs[u].hydrate && Current(s, s.installs[u])
    requires s.installs[u].next == PieceCount(s.cfg.blockSize, s.installs[u].size)
    ensures s.installs[u].temp == t(s.installs[u].key) && Unhydrated(EndInstall(s, u), s.installs[u].key)
  {
    hide KeysInv, TagsInv, WholeInv, FlushInv, LockOk, SourceOk, PieceCount, Copied;
    var i := s.installs[u];
    assert InstallOk(s, t, u, i);
    CopiedAll(s.cfg, i, t(i.key));
    var s' := EndInstall(s, u);
    forall v | v in s'.installs && s'.installs[v].hydrate && s'.installs[v].key == i.key && i.key in s'.files
      ensures s'.installs[v].fileTag != s'.files[i.key].tag
    {
      assert v != u && s'.files[i.key].tag == i.fileTag;
      assert !SameSource(s.installs[v], s.installs[u]);
    }
  }

  lemma HydrateFinishKeeps(s: State, t: Truth, u: nat, o: nat, now: int)
    requires Inv(s, t) && s.lock.Free? && u in s.installs && s.installs[u].hydrate && Current(s, s.installs[u]) &&
      o !in s.objects
    requires s.installs[u].next == PieceCount(s.cfg.blockSize, s.installs[u].size)
    ensures Inv(HydrateFinish(s, u, o, now), t)
  {
    hide Inv, Attach, RemoveFileBlocks, Wiped, EndInstall, PieceCount;
    var i, s0 := s.installs[u], EndInstall(s, u);
    FinishHydrateReal(s, t, u);
    EndInstallKeeps(s, t, u);
    EndInstallIs(s, u);
    AttachKeeps(s0, t, i.key, o, i.temp, now);
    AttachFields(s0, t, i.key, o, i.temp, now);
    var s1 := Attach(s0, i.key, o, i.temp, now);
    assert SetFile(s1, i.key, s1.files[i.key]) == s1;
    WipedIs(s1, i.key, s1.files[i.key]);
    WipedKeeps(s1, t, i.key, s1.files[i.key]);
  }

  lemma PutWholeFinishKeeps(s: State, t: Truth, u: nat, o: nat, data: Bytes, now: int)
    requires Inv(s, t) && s.lock.Free? && u in s.installs && Current(s, s.installs[u]) && o !in s.objects &&
      data == t(s.installs[u].key)
    ensures Inv(PutWholeFinish(s, u, o, data, now), t)
  {
    hide Inv, Installed, EndInstall;
    EndInstallKeeps(s, t, u);
    EndInstallIs(s, u);
    InstalledKeeps(EndInstall(s, u), t, s.installs[u].key, o, data, false, now);
  }
}
