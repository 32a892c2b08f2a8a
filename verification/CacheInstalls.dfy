/** Complete files on the index: attaching, superseding blocks, reservations and their
    use, and the end of a flush. */
module CacheInstalls {

  import opened Common
  import opened Bitmap
  import opened Geometry
  import opened Sums
  import opened CacheModel
  import opened CacheCharge
  import opened CacheKeepsWhole
  import opened CacheIndex

  /** A file's inode, if it has one, is charged. */
  predicate Charged(s: State, k: FileKey) {
    k in s.files && (s.files[k].whole.Some? ==> s.files[k].whole.value in s.objects)
  }

  lemma NewObjectTotals(s: State, o: nat, ob: Object, files: map<FileKey, FileState>, inodes: map<nat, Bytes>)
    ensures var s', x := s.(objects := s.objects[o := ob], files := files, inodes := inodes), Exact(s);
      Exact(s') == x.(whole := x.whole + (if o in s.objects then ob.size - s.objects[o].size else ob.size)) &&
        (Tidy(s) ==> Tidy(s'))
  {
    hide Tidy, Exact;
    SumUpdate(s.objects, ObjectBytes, o, ob);
    WholeTotals(s, files, s.objects[o := ob], inodes);
    ExactWhole(s);
  }

  /** attachWholeLocked: the inode is charged on its first name, and only then. */
  method AttachWhole(c: Cache, k: FileKey, o: nat, data: Bytes, now: int)
    requires c.Valid() && Charged(c.st, k)
    modifies c
    ensures c.Valid() && c.st == Attach(old(c.st), k, o, data, now)
  {
    hide Tidy, Exact, Detach;
    if c.st.files[k].whole != Some(o) {
      ghost var s := c.st;
      c.DetachWhole(k);
      DetachKnown(s, k);
    }
    var unseen := o !in c.st.objects;
    var ob := if unseen then Object(|data|, {}, 0, now, false) else c.st.objects[o];
    var inodes := if unseen then c.st.inodes[o := data] else c.st.inodes;
    var files := c.st.files[k := FileOf(c.st, k).(whole := Some(o), size := |data|)];
    NewObjectTotals(c.st, o, ob.(refs := ob.refs + {k}, lastAccess := now), files, inodes);
    c.totals := c.totals.(whole := c.totals.whole + (if unseen then |data| else 0));
    c.st := c.st.(objects := c.st.objects[o := ob.(refs := ob.refs + {k}, lastAccess := now)], inodes := inodes,
                  files := files);
  }

  lemma DetachKnown(s: State, k: FileKey)
    requires k in s.files
    ensures k in Detach(s, k).files
  {
  }

  // A complete file supersedes blocks and sparse file.

  lemma DropMore(s: State, done: set<BlockId>, id: BlockId)
    ensures DropAll(DropAll(s, done), {id}) == DropAll(s, done + {id})
  {
    assert (s.blocks - done) - {id} == s.blocks - (done + {id});
    assert DropAll(DropAll(s, done), {id}).flushes == DropAll(s, done + {id}).flushes;
  }

  /** The file's blocks dropped so far. */
  function Partly(s: State, done: set<BlockId>): State {
    DropAll(s, done).(blockFile := s.blockFile - done)
  }

  lemma PartlyMore(s: State, done: set<BlockId>, id: BlockId)
    ensures var d := DropAll(Partly(s, done), {id}); d.(blockFile := d.blockFile - {id}) == Partly(s, done + {id})
  {
    hide DropAll;
    DropMore(s, done, id);
    DropApart(DropAll(s, done), s.blockFile - done, {id});
    DropFile(s, done);
    DropFile(s, done + {id});
    DropFile(DropAll(s, done), {id});
    assert (s.blockFile - done) - {id} == s.blockFile - (done + {id});
  }

  lemma DropApart(s: State, onDisk: map<BlockId, Bytes>, ids: set<BlockId>)
    ensures DropAll(s.(blockFile := onDisk), ids) == DropAll(s, ids).(blockFile := onDisk)
  {
  }

  lemma DropFile(s: State, ids: set<BlockId>)
    ensures DropAll(s, ids).blockFile == s.blockFile && DropAll(s, ids).blocks == s.blocks - ids
  {
  }

  lemma PartlyNone(s: State)
    ensures Partly(s, {}) == s
  {
    hide DropAll;
    DropNone(s);
    assert s.blockFile - {} == s.blockFile;
  }

  /** The blocks of a file, one after the other. */
  method DropBlocks(c: Cache, k: FileKey)
    requires c.Valid()
    modifies c
    ensures c.Valid() && c.st == Partly(old(c.st), BlocksOf(old(c.st), k))
  {
    hide Tidy, Exact, DropAll, Partly;
    ghost var s, done := c.st, {};
    var rest := BlocksOf(c.st, k);
    PartlyNone(s);
    while rest != {}
      invariant c.Valid() && done + rest == BlocksOf(s, k) && done !! rest && c.st == Partly(s, done)
      decreases |rest|
    {
      var id :| id in rest;
      assert id in c.st.blocks by { StillThere(s, done, id); }
      PartlyMore(s, done, id);
      c.DropBlock(id);
      SameTotals(c.st, c.st.(blockFile := c.st.blockFile - {id}));
      c.st := c.st.(blockFile := c.st.blockFile - {id});
      rest, done := rest - {id}, done + {id};
    }
    assert done == BlocksOf(s, k);
  }

  lemma StillThere(s: State, done: set<BlockId>, id: BlockId)
    requires id in s.blocks && id !in done
    ensures id in Partly(s, done).blocks
  {
  }

  lemma PartGone(s: State, k: FileKey)
    ensures var s' := s.(parts := s.parts - {k}, partFile := s.partFile - {k}); var x := Exact(s);
      Exact(s') == x.(part := x.part - (if k in s.parts then PartBytes(s.parts[k]) else 0)) && (Tidy(s) ==> Tidy(s'))
  {
    hide Tidy;
    if k in s.parts {
      PartTotals(s, k, s.files);
    } else {
      assert s.parts - {k} == s.parts;
      SameTotals(s, s.(parts := s.parts - {k}, partFile := s.partFile - {k}));
    }
  }

  /** removeFileBlocksLocked. */
  method RemoveBlocks(c: Cache, k: FileKey)
    requires c.Valid()
    modifies c
    ensures c.Valid() && c.st == RemoveFileBlocks(old(c.st), k)
  {
    hide Tidy, Exact, DropAll, PartBytes;
    ghost var s := c.st;
    DropBlocks(c, k);
    DropParts(s, BlocksOf(s, k));
    PartGone(c.st, k);
    if k in c.st.parts { c.totals := c.totals.(part := c.totals.part - PartBytes(c.st.parts[k])); }
    c.st := c.st.(parts := c.st.parts - {k}, partFile := c.st.partFile - {k});
    var files := c.st.files[k := FileOf(c.st, k).(present := {})];
    SameTotals(c.st, c.st.(files := files));
    c.st := c.st.(files := files);
  }

  lemma DropParts(s: State, ids: set<BlockId>)
    ensures var s' := DropAll(s, ids); s'.parts == s.parts && s'.partFile == s.partFile && s'.files == s.files
  {
  }

  /** installTemp, once the file is renamed into place. */
  method Install(c: Cache, k: FileKey, o: nat, data: Bytes, pinned: bool, now: int)
    requires c.Valid() && Charged(c.st, k)
    modifies c
    ensures c.Valid() && c.st == Installed(old(c.st), k, o, data, pinned, now)
  {
    hide Tidy, Exact, Attach, RemoveFileBlocks;
    AttachWhole(c, k, o, data, now);
    var f := FileOf(c.st, k);
    var files := c.st.files[k := f.(pinned := f.pinned || pinned, generation := f.generation + 1)];
    SameTotals(c.st, c.st.(files := files));
    c.st := c.st.(files := files);
    RemoveBlocks(c, k);
  }

  /** finishPartLocked: the sparse file becomes the complete one. Its blocks tile it, so
      exactly the file's length moves from one total to the other; an older complete file
      that nothing else holds stops being charged. */
  method Publish(c: Cache, k: FileKey, o: nat, now: int)
    requires c.Valid() && Charged(c.st, k) && o !in c.st.objects
    requires k in c.st.parts && k in c.st.partFile && c.st.parts[k].unit > 0 && |c.st.partFile[k]| == c.st.parts[k].size
    requires c.st.parts[k].bits == Range(PieceCount(c.st.parts[k].unit, c.st.parts[k].size))
    modifies c
    ensures c.Valid() && c.st == PublishPart(old(c.st), k, o, now)
    ensures var n := |old(c.st).partFile[k]|;
      c.totals.part == old(c.totals).part - n && c.totals.whole == old(c.totals).whole + n - Uncharged(old(c.st), k)
  {
    hide Tidy, Installed, PieceCount, Detach;
    ghost var s := c.st;
    Install(c, k, o, c.st.partFile[k], false, now);
    InstalledParts(s, k, o, s.partFile[k], now);
    DetachedWhole(s, k, o);
    SumRemove(s.parts, PartBytes, k);
    SumUpdate(Detach(s, k).objects, ObjectBytes, o, c.st.objects[o]);
    AllPiecesTile(s.parts[k].unit, s.parts[k].size);
  }

  /** What is no longer charged once the file lets go of its inode. */
  function Uncharged(s: State, k: FileKey): nat
    requires Charged(s, k)
  {
    var w := s.files[k].whole;
    if w.Some? && s.objects[w.value].refs <= {k} && s.objects[w.value].readers == 0 then s.objects[w.value].size else 0
  }

  lemma DetachedWhole(s: State, k: FileKey, o: nat)
    requires Charged(s, k) && o !in s.objects
    ensures o !in Detach(s, k).objects &&
      Sum(Detach(s, k).objects, ObjectBytes) == Sum(s.objects, ObjectBytes) - Uncharged(s, k)
  {
    hide Detach;
    var w := s.files[k].whole;
    if w.Some? {
      DetachObjects(s, k);
      var ob := s.objects[w.value].(refs := s.objects[w.value].refs - {k});
      SumUpdate(s.objects, ObjectBytes, w.value, ob);
      SumRemove(s.objects[w.value := ob], ObjectBytes, w.value);
    } else {
      DetachNothing(s, k);
    }
  }

  lemma DetachNothing(s: State, k: FileKey)
    requires Charged(s, k) && s.files[k].whole.None?
    ensures Detach(s, k) == s
  {
  }

  lemma DetachObjects(s: State, k: FileKey)
    requires Charged(s, k) && s.files[k].whole.Some?
    ensures var w := s.files[k].whole.value;
      var ob := s.objects[w].(refs := s.objects[w].refs - {k});
      Detach(s, k).objects == if ob.refs == {} && ob.readers == 0 then s.objects[w := ob] - {w} else s.objects[w := ob]
  {
  }

  lemma InstalledParts(s: State, k: FileKey, o: nat, data: Bytes, now: int)
    requires Charged(s, k) && o !in s.objects
    ensures var s', d := Installed(s, k, o, data, false, now), Detach(s, k).objects;
      s'.parts == s.parts - {k} && o in s'.objects && s'.objects[o].size == |data| &&
        s'.objects == d[o := s'.objects[o]]
  {
    hide RemoveFileBlocks, Detach;
    DetachKnown(s, k);
    DetachParts(s, k);
    DetachedWhole(s, k, o);
    var s1 := Attach(s, k, o, data, now);
    var f := s1.files[k];
    RemovedFields(SetFile(s1, k, f.(pinned := f.pinned || false, generation := f.generation + 1)), k);
  }

  lemma DetachParts(s: State, k: FileKey)
    ensures Detach(s, k).parts == s.parts
  {
  }

  lemma RemovedFields(s: State, k: FileKey)
    ensures RemoveFileBlocks(s, k).parts == s.parts - {k} && RemoveFileBlocks(s, k).objects == s.objects
  {
  }

  // Reservations.

  lemma InstallsTotals(s: State, files: map<FileKey, FileState>, installs: map<nat, Install>)
    ensures var s' := s.(files := files, installs := installs);
      Exact(s') == Exact(s).(reserved := Sum(installs, InstallBytes), reservedEntries := |installs|) &&
        (Tidy(s) ==> Tidy(s'))
    ensures Exact(s).reserved == Sum(s.installs, InstallBytes) && Exact(s).reservedEntries == |s.installs|
  {
    hide Tidy;
    if Tidy(s) { TidyBut(s, s.(files := files, installs := installs)); }
  }

  /** Hydrate and PutWhole reserve the room they were granted. */
  method Reserve(c: Cache, token: nat, i: CacheModel.Install)
    requires c.Valid() && token !in c.st.installs
    modifies c
    ensures c.Valid() && c.st == old(c.st).(installs := old(c.st).installs[token := i])
  {
    hide Tidy, Exact;
    SumUpdate(c.st.installs, InstallBytes, token, i);
    SizeUpdate(c.st.installs, token, i);
    InstallsTotals(c.st, c.st.files, c.st.installs[token := i]);
    c.totals := c.totals.(reserved := c.totals.reserved + i.size, reservedEntries := c.totals.reservedEntries + 1);
    c.st := c.st.(installs := c.st.installs[token := i]);
  }

  /** Every way out of Hydrate and PutWhole gives the reservation and the hold back. */
  method EndReservation(c: Cache, token: nat)
    requires c.Valid() && token in c.st.installs
    modifies c
    ensures c.Valid() && c.st == EndInstall(old(c.st), token)
  {
    hide Tidy, Exact;
    var i := c.st.installs[token];
    var files := c.st.files;
    if i.key in files && files[i.key].tag == i.fileTag {
      files := files[i.key := files[i.key].(holds := files[i.key].holds - {token})];
    }
    SumRemove(c.st.installs, InstallBytes, token);
    SizeRemove(c.st.installs, token);
    InstallsTotals(c.st, files, c.st.installs - {token});
    EndInstallWith(c.st, token, files);
    c.totals := c.totals.(reserved := c.totals.reserved - i.size, reservedEntries := c.totals.reservedEntries - 1);
    c.st := c.st.(files := files, installs := c.st.installs - {token});
  }

  lemma EndInstallWith(s: State, u: nat, files: map<FileKey, FileState>)
    requires u in s.installs
    requires var i := s.installs[u];
      files == if i.key in s.files &&
        s.files[i.key].tag == i.fileTag then s.files[i.key := s.files[i.key].(holds := s.files[i.key].holds - {u})]
          else s.files
    ensures EndInstall(s, u) == s.(files := files, installs := s.installs - {u})
  {
    var i := s.installs[u];
    if i.key in s.files && s.files[i.key].tag == i.fileTag {
      assert ReleaseHold(s, i.key, i.fileTag, u) == s.(files := files);
    } else {
      assert ReleaseHold(s, i.key, i.fileTag, u) == s;
    }
  }

  /** PutWhole publishes: the reservation is used up in the same step. */
  method FinishPutWhole(c: Cache, token: nat, o: nat, data: Bytes, now: int)
    requires c.Valid() && token in c.st.installs && Charged(c.st, c.st.installs[token].key)
    modifies c
    ensures c.Valid() && c.st == PutWholeFinish(old(c.st), token, o, data, now)
  {
    hide Tidy, Exact, Installed, EndInstall;
    var k := c.st.installs[token].key;
    ghost var s := c.st;
    EndReservation(c, token);
    EndCharged(s, token, k);
    Install(c, k, o, data, false, now);
  }

  lemma EndCharged(s: State, u: nat, k: FileKey)
    requires u in s.installs && Charged(s, k)
    ensures Charged(EndInstall(s, u), k)
  {
    hide EndInstall;
    EndInstallFiles(s, u);
    EndInstallIndex(s, u);
  }

  /** Hydrate publishes the merged file and drops the blocks. */
  method FinishHydrate(c: Cache, token: nat, o: nat, now: int)
    requires c.Valid() && token in c.st.installs && Charged(c.st, c.st.installs[token].key)
    modifies c
    ensures c.Valid() && c.st == HydrateFinish(old(c.st), token, o, now)
  {
    hide Tidy, Exact, Attach, RemoveFileBlocks, EndInstall;
    var i := c.st.installs[token];
    ghost var s := c.st;
    EndReservation(c, token);
    EndCharged(s, token, i.key);
    AttachWhole(c, i.key, o, i.temp, now);
    RemoveBlocks(c, i.key);
  }
}
