/** Steps taken while another call holds the admission lock leave its request and
    the room it was promised alone. */
module CacheLocks {

  import opened Geometry
  import opened Ranges
  import opened CacheModel
  import opened CacheInvariant
  import opened CacheFrames

  /** The file record keeps its identity and its size, and all holds but those of
      installs. */
  predicate RecordKept(s: State, s': State, t: Truth, k: FileKey) {
    k in s.files ==>
      && k in s'.files && s'.files[k].tag == s.files[k].tag &&
         (s.files[k].size == |t(k)| ==> s'.files[k].size == |t(k)|)
      && s'.files[k].holds <= s.files[k].holds &&
         (forall u :: u in s.files[k].holds && u !in s.installs ==> u in s'.files[k].holds)
  }

  lemma RequestMoves(s: State, s': State, t: Truth, k: FileKey, id: BlockId, r: Request)
    requires RequestOk(s, t, r) && FileFrame(s, s', t, k, id) && RecordKept(s, s', t, k) && SourceSafe(s, s', t, k)
    ensures RequestOk(s', t, r)
  {
    hide InstallOk, Aligned, Piece, SourceSafe;
    match r {
      case PartReq(x, _, _, _, _) => assert Lookup(s'.files, x.file) == Lookup(s.files, x.file) || x.file == k;
      case InstallReq(u, i) =>
        assert Lookup(s'.files, i.key) == Lookup(s.files, i.key) || i.key == k;
        InstallMoves(s, s', t, k, u, i);
      case _ =>
    }
  }

  /** What the request will add does not become more. */
  ghost predicate GrowthShrinks(s: State, s': State, r: Request) {
    Waiting(s, r) ==>
      Waiting(s', r) && GrowthBytes(s', r) <= GrowthBytes(s, r) && GrowthEntries(s', r) <= GrowthEntries(s, r)
  }

  /** The lock's promise survives a step on one file. */
  lemma LockMoves(s: State, s': State, t: Truth, k: FileKey, id: BlockId)
    requires LockOk(s, t) && FileFrame(s, s', t, k, id) && RecordKept(s, s', t, k) && SourceSafe(s, s', t, k) &&
      s'.lock == s.lock
    requires s.lock.Asking? ==> GrowthShrinks(s, s', s.lock.req)
    ensures LockOk(s', t)
  {
    hide RequestOk, FileFrame, RecordKept, SourceSafe, GrowthBytes, GrowthEntries;
    if !s.lock.Free? { RequestMoves(s, s', t, k, id, s.lock.req); }
  }
}
