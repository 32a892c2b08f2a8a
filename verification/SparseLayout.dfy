/** The sparse whole-file layout: each operation is the sequence of disk steps the code
    makes, any of which may fail, and a crash may come after any of them. */
module SparseLayout {

  import opened Common
  import opened Bitmap
  import opened Geometry
  import opened SparseCrash

  lemma WholeBlocks(unit: nat, file: Bytes, i: nat, p: Bytes, j: nat)
    requires unit > 0 && i < PieceCount(unit, |file|) && |p| == PieceLen(unit, i, |file|)
    ensures i * unit + |p| <= |file| && |p| > 0
    ensures Piece(Overwrite(file, i * unit, p), unit, j) == if j == i then p else Piece(file, unit, j)
  {
    PieceInRange(unit, i, |file|);
    WritePiece(file, unit, i, p, j);
  }

  /** A full-length file all of whose blocks are real is the file. */
  lemma FullIsTruth(unit: nat, T: Bytes, content: Bytes, bits: set<nat>)
    requires unit > 0 && |content| == |T| && |bits| == PieceCount(unit, |T|)
    requires forall i :: i in bits ==> i < PieceCount(unit, |T|) && RealBlock(unit, T, content, i)
    ensures content == T
  {
    hide Piece, PieceCount;
    var n := PieceCount(unit, |T|);
    FullMeansAll(bits, n);
    forall i | 0 <= i < n ensures Piece(content, unit, i) == Piece(T, unit, i) {
      assert i in bits && RealBlock(unit, T, content, i);
    }
    SamePiecesSameFile(content, T, unit);
  }

  /** The sparse file that opening and sizing gives: one kept by an unlink that failed stays
      as it is. */
  function Opened(left: Option<PartFile>, size: nat): PartFile {
    if left.Some? && |left.value.content| == size then left.value
    else PartFile(Sized(if left.Some? then left.value.content else [], size), {})
  }

  /** Opening keeps every byte that is there and fits, and fills up with zeros; what has been
      settled counts as such only at the length it had. */
  lemma OpenedKeeps(left: Option<PartFile>, size: nat, x: nat)
    requires x < size
    ensures |Opened(left, size).content| == size
    ensures Opened(left, size).content[x] ==
      if left.Some? && x < |left.value.content| then left.value.content[x] else 0
    ensures Opened(left, size).settled != {} ==> left.Some? && |left.value.content| == size
  {
  }

  class SparseFile {
    const unit: nat
    ghost const truth: Bytes
    const size: nat
    /** What is on disk now, and every state it has been in. */
    var disk: Disk
    ghost var trace: seq<Disk>
    /** The blocks the index knows to be in the sparse file; None without one. */
    var bits: Option<set<nat>>

    ghost predicate Valid()
      reads this
    {
      && unit > 0 && size == |truth| > 0
      && (forall d :: d in trace ==> Ordered(unit, truth, d))
      && Ordered(unit, truth, disk)
      && (bits.Some? ==> Mounted())
    }

    /** A sparse file in use is full-length and holds the noted blocks, and its bitmap
        claims no others. */
    ghost predicate Mounted()
      requires unit > 0 && bits.Some?
      reads this
    {
      && disk.part.Some? && |disk.part.value.content| == size && disk.claim.Some? && disk.claim.value.bits <= bits.value
      && forall i :: i in bits.value ==>
         i < PieceCount(unit, size) && RealBlock(unit, truth, disk.part.value.content, i)
    }

    constructor (unit: nat, ghost truth: Bytes, size: nat)
      requires unit > 0 && size == |truth| > 0
      ensures Valid() && this.unit == unit && this.truth == truth && this.size == size && bits == None && trace == []
    {
      this.unit, this.truth, this.size := unit, truth, size;
      disk := Disk(None, None, None);
      trace := [];
      bits := None;
    }

    // Disk steps. Each leaves its state in the trace; one that fails changes nothing
    // but may leave junk in the block it was writing. `sure`: no disk step fails.

    method WriteClaim(claimed: set<nat>, sure: bool) returns (ok: bool)
      requires Valid() && (disk.part.Some? ==> forall i :: i in claimed ==> ClaimOk(unit, truth, disk.part.value, i))
      requires bits.Some? ==> claimed <= bits.value
      modifies this
      ensures Valid() && bits == old(bits) && (sure ==> ok)
      ensures disk == if ok then old(disk).(claim := Some(Claim(size, claimed))) else old(disk)
      ensures trace == if ok then old(trace) + [disk] else old(trace)
    {
      ok := *;
      ok := ok || sure;
      if ok {
        disk := disk.(claim := Some(Claim(size, claimed)));
        trace := trace + [disk];
      }
    }

    method RemoveClaim(sure: bool)
      requires Valid() && bits.None?
      modifies this
      ensures Valid() && bits.None? && (disk == old(disk) || disk == old(disk).(claim := None))
      ensures (sure ==> disk.claim == None) && trace == old(trace) + [disk]
    {
      var ok: bool := *;
      if ok || sure { disk := disk.(claim := None); }
      trace := trace + [disk];
    }

    method RemovePart(sure: bool)
      requires Valid() && bits.None?
      modifies this
      ensures Valid() && bits.None? && (disk == old(disk) || disk == old(disk).(part := None))
      ensures (sure ==> disk.part == None) && trace == old(trace) + [disk]
    {
      var ok: bool := *;
      if ok || sure { disk := disk.(part := None); }
      trace := trace + [disk];
    }

    /** Everything written so far becomes settled. */
    method Sync(sure: bool) returns (ok: bool)
      requires Valid() && disk.part.Some?
      modifies this
      ensures Valid() && bits == old(bits) && (sure ==> ok)
      ensures disk == if ok
        then old(disk).(part := Some(PartFile(old(disk).part.value.content, Range(PieceCount(unit, size)))))
          else old(disk)
      ensures trace == old(trace) + [disk]
    {
      ok := *;
      ok := ok || sure;
      if ok {
        ghost var before := disk;
        disk := disk.(part := Some(PartFile(disk.part.value.content, Range(PieceCount(unit, size)))));
        assert forall i :: before.claim.Some? && i in before.claim.value.bits ==>
          ClaimOk(unit, truth, before.part.value, i);
      }
      trace := trace + [disk];
    }

    /** Opens the sparse file, keeping what an earlier one may have left. */
    method CreatePart(sure: bool) returns (ok: bool)
      requires Valid() && bits.None? && disk.claim == Some(Claim(size, {}))
      modifies this
      ensures Valid() && bits.None? && disk.claim == old(disk).claim && disk.published == old(disk).published
      ensures sure ==> ok
      ensures if ok then disk.part == (if old(disk).part.Some? then old(disk).part else Some(PartFile([], {})))
        else disk == old(disk)
      ensures trace == old(trace) + [disk]
    {
      ok := *;
      ok := ok || sure;
      if ok && disk.part.None? { disk := disk.(part := Some(PartFile([], {}))); }
      trace := trace + [disk];
    }

    method TruncatePart(sure: bool) returns (ok: bool)
      requires Valid() && bits.None? && disk.part.Some? && disk.claim == Some(Claim(size, {}))
      modifies this
      ensures Valid() && bits.None? && disk.claim == old(disk).claim && disk.published == old(disk).published &&
        disk.part.Some?
      ensures (sure ==> ok) && (ok ==> disk.part.value == Opened(old(disk).part, size))
      ensures trace == old(trace) + [disk]
    {
      ok := *;
      ok := ok || sure;
      if ok && |disk.part.value.content| != size {
        disk := disk.(part := Some(PartFile(Sized(disk.part.value.content, size), {})));
      }
      trace := trace + [disk];
    }

    /** One block written at its offset; a failed write leaves junk there. */
    method WriteBlock(idx: nat, data: Bytes, junk: Bytes, sure: bool) returns (ok: bool)
      requires Valid() && bits.Some? && idx !in bits.value && idx < PieceCount(unit, size)
      requires |data| == |junk| == PieceLen(unit, idx, size)
      modifies this
      ensures Valid() && bits == old(bits) && disk.claim == old(disk).claim && disk.published == old(disk).published &&
        disk.part.Some?
      ensures (sure ==> ok) && (ok ==> Piece(disk.part.value.content, unit, idx) == data)
      ensures forall i :: i in bits.value ==>
        Piece(disk.part.value.content, unit, i) == Piece(old(disk).part.value.content, unit, i)
      ensures trace == old(trace) + [disk]
    {
      ok := *;
      ok := ok || sure;
      var p := disk.part.value;
      var d := if ok then data else junk;
      WholeBlocks(unit, p.content, idx, d, idx);
      var content := Overwrite(p.content, idx * unit, d);
      forall j ensures Piece(content, unit, j) == if j == idx then d else Piece(p.content, unit, j) {
        WholeBlocks(unit, p.content, idx, d, j);
      }
      ghost var before := disk;
      disk := disk.(part := Some(PartFile(content, p.settled - {idx})));
      assert forall i :: i in before.claim.value.bits ==> ClaimOk(unit, truth, p, i) && i != idx;
      trace := trace + [disk];
    }

    /** The sparse file becomes the published one. */
    method RenamePart(sure: bool) returns (ok: bool)
      requires Valid() && disk.part.Some? && disk.part.value.content == truth
      modifies this
      ensures sure ==> ok
      ensures Valid() && if ok then bits.None? && disk == old(disk).(part := None, published := Some(truth))
        else bits == old(bits) && disk == old(disk)
      ensures trace == old(trace) + [disk]
    {
      ok := *;
      ok := ok || sure;
      if ok {
        disk := disk.(part := None, published := Some(disk.part.value.content));
        bits := None;
      }
      trace := trace + [disk];
    }

    // The operations.

    /** ensurePart: the empty claim goes down before the file exists. `tidy`: what a failure
        leaves can be removed. */
    method EnsurePart(sure: bool, tidy: bool) returns (ok: bool)
      requires Valid()
      modifies this
      ensures Valid() && old(trace) <= trace && disk.published == old(disk).published
      ensures sure ==> ok
      ensures ok ==> bits.Some? && bits.value == (if old(bits).Some? then old(bits).value else {})
      ensures ok && old(bits).None? ==> disk.part == Some(Opened(old(disk).part, size)) && disk.claim.value.bits == {}
      ensures !ok ==> bits == old(bits)
      ensures !ok && tidy ==>
        disk == old(disk) || (disk.claim.None? && (disk.part.None? || disk.part == old(disk).part))
    {
      if bits.Some? { return true; }
      ok := WriteClaim({}, sure);
      if !ok { return; }
      ok := CreatePart(sure);
      if !ok {
        RemoveClaim(tidy);
        return;
      }
      ok := TruncatePart(sure);
      if !ok {
        RemovePart(tidy);
        RemoveClaim(tidy);
        return;
      }
      bits := Some({});
    }

    /** The first half of persistPart: the data a claim is about to name is synced. */
    method SyncClaim(sure: bool) returns (ok: bool, claimed: set<nat>)
      requires Valid() && bits.Some?
      modifies this
      ensures Valid() && old(trace) <= trace && bits == old(bits) && disk.published == old(disk).published
      ensures claimed == bits.value && (ok ==> ClaimInOrder(claimed)) && disk.part.Some?
      ensures sure ==> ok && disk.part.value.settled == Range(PieceCount(unit, size))
    {
      hide PieceCount, RealBlock;
      claimed := bits.value;
      ok := Sync(sure);
    }

    /** The claim names blocks that the sparse file, as it is now, has settled. */
    ghost predicate ClaimInOrder(claimed: set<nat>)
      requires unit > 0
      reads this
    {
      && (disk.part.Some? ==> forall i :: i in claimed ==> ClaimOk(unit, truth, disk.part.value, i))
      && (bits.Some? ==> claimed <= bits.value)
    }

    /** The second half, which does not hold the admission lock after a flush: the claim is
        written whenever its writer gets to it, and is right exactly when it is in order
        with whatever is there by then. */
    method LateClaim(claimed: set<nat>, sure: bool) returns (ok: bool)
      requires Valid()
      modifies this
      ensures bits == old(bits) && disk == if ok then old(disk).(claim := Some(Claim(size, claimed))) else old(disk)
      ensures old(trace) <= trace && (ok ==> disk in trace) && (sure ==> ok)
      ensures Valid() <==> (ok ==> old(ClaimInOrder(claimed)))
    {
      hide PieceCount, RealBlock;
      ok := *;
      ok := ok || sure;
      if ok {
        disk := disk.(claim := Some(Claim(size, claimed)));
        trace := trace + [disk];
        assert disk in trace;
        assert forall d :: d in trace <==> d in old(trace) || d == disk;
      }
    }

    /** The claim names every block there is, and everything written is settled. */
    ghost predicate Persisted()
      requires unit > 0
      reads this
    {
      && bits.Some? && disk.claim == Some(Claim(size, bits.value)) && disk.part.Some?
      && disk.part.value.settled == Range(PieceCount(unit, size))
    }

    /** persistPart with nothing in between; when no disk step fails, the claim names all that
        the index knows, and all of it is settled. */
    method Persist(sure: bool)
      requires Valid() && bits.Some?
      modifies this
      ensures Valid() && old(trace) <= trace && bits == old(bits) && disk.published == old(disk).published
      ensures sure ==> Persisted()
    {
      var ok, claimed := SyncClaim(sure);
      if ok { ok := LateClaim(claimed, sure); }
    }

    /** persistPart with the sparse file evicted and made anew between its halves: when the
        claim lands, some crash reloads a wrong block, exactly when the eviction got rid of
        the file. */
    method OvertakenPersist(sure: bool) returns (landed: bool, ghost removed: bool, ghost w: Wreck)
      requires Valid() && bits.Some? && bits.value != {} && disk.published.None?
      modifies this
      ensures old(trace) <= trace && (sure ==> landed && removed)
      ensures landed && removed ==> Crashed(unit, disk, w) && !Ordered(unit, truth, Reloaded(unit, w))
      ensures landed && !removed ==> Ordered(unit, truth, disk)
    {
      landed, removed, w := false, false, Wreck(None, None, None);
      var ok, claimed := SyncClaim(sure);
      if !ok { return; }
      Evict(sure);
      removed := disk.part.None?;
      ok := EnsurePart(sure, false);
      if !ok { return; }
      landed := LateClaim(claimed, sure);
      if landed && removed {
        ghost var i :| i in claimed;
        w := UnsettledClaimInvents(unit, truth, disk, i);
      }
    }

    /** finishPartLocked: a full sparse file is synced and renamed. */
    method Finish(sure: bool)
      requires Valid() && bits.Some? && |bits.value| == PieceCount(unit, size)
      modifies this
      ensures Valid() && old(trace) <= trace
      ensures bits == old(bits) || (bits.None? && disk.published == Some(truth) && disk.part.None?)
      ensures sure ==> bits.None? && disk == Disk(None, None, Some(truth))
    {
      var ok := Sync(sure);
      if !ok { return; }
      FullIsTruth(unit, truth, disk.part.value.content, bits.value);
      ok := RenamePart(sure);
      if ok { RemoveClaim(sure); }
    }

    /** putPart: one whole block of the file. A block of the wrong length is left out. */
    method PutPart(idx: nat, data: Bytes, junk: Bytes, due: bool, sure: bool) returns (stored: bool)
      requires Valid() && |junk| == |data|
      requires idx < PieceCount(unit, size) && |data| == PieceLen(unit, idx, size) ==> data == Piece(truth, unit, idx)
      modifies this
      ensures Valid() && old(trace) <= trace
      ensures stored ==> (bits.Some? && idx in bits.value) || disk.published == Some(truth)
      ensures sure ==> (stored <==> idx < PieceCount(unit, size) && |data| == PieceLen(unit, idx, size))
      ensures old(bits).Some? ==> (bits.Some? && old(bits).value <= bits.value) || disk.published == Some(truth)
      ensures sure && stored && !(old(bits).Some? && idx in old(bits).value) ==>
        var b := (if old(bits).Some? then old(bits).value else {}) + {idx};
        if |b| == PieceCount(unit, size) then bits.None? && disk == Disk(None, None, Some(truth))
        else bits == Some(b) && (due ==> Persisted())
      ensures old(bits).Some? && idx in old(bits).value ==> disk == old(disk) && bits == old(bits)
    {
      PieceInRange(unit, idx, size);
      if PieceLen(unit, idx, size) == 0 || |data| != PieceLen(unit, idx, size) { return false; }
      if bits.Some? && idx in bits.value { return true; }
      var ok := EnsurePart(sure, sure);
      if !ok { return false; }
      ok := WriteBlock(idx, data, junk, sure);
      if !ok { return false; }
      bits := Some(bits.value + {idx});
      if |bits.value| == PieceCount(unit, size) {
        Finish(sure);
      } else if due {
        Persist(sure);
      }
      stored := true;
    }

    /** forgetPartLocked with remove: eviction of the half-written file. */
    method Evict(sure: bool)
      requires Valid()
      modifies this
      ensures Valid() && old(trace) <= trace && bits.None? && disk.published == old(disk).published
      ensures disk.part == None || disk.part == old(disk).part
      ensures sure ==> disk.part.None? && disk.claim.None?
    {
      bits := None;
      RemovePart(sure);
      RemoveClaim(sure);
    }

    /** forgetFile: the published file, then the sparse one, then its claim; the first
        failure stops it. */
    method Forget(sure: bool) returns (ok: bool)
      requires Valid()
      modifies this
      ensures Valid() && old(trace) <= trace
      ensures (ok ==> bits.None? && disk.published.None?) && (sure ==> ok && disk == Disk(None, None, None))
      ensures ok ==> old(disk).(published := None) in trace
    {
      ok := *;
      ok := ok || sure;
      if !ok { return; }
      disk := disk.(published := None);
      ghost var n := |trace|;
      trace := trace + [disk];
      Evict(sure);
      assert trace[n] == old(disk).(published := None);
    }

    /** closeParts: the claim catches up. The code does not look at the result of the
        sync, so the claim is in order exactly when what it names is settled. */
    method Close(sure: bool) returns (synced: bool)
      requires Valid() && bits.Some?
      modifies this
      ensures bits == old(bits) && disk.part.Some? && disk.claim.Some? && old(trace) <= trace
      ensures Valid() <==> forall i :: i in disk.claim.value.bits ==> i in disk.part.value.settled
      ensures synced ==> Valid()
      ensures sure ==> synced && disk.claim.value.bits == bits.value
    {
      synced := Sync(sure);
      var current := disk.claim.value.bits == bits.value;
      var written: bool := *;
      ghost var before := disk;
      assert forall i :: i in before.claim.value.bits ==> ClaimOk(unit, truth, before.part.value, i);
      if !current && (written || sure) {
        disk := disk.(claim := Some(Claim(size, bits.value)));
        trace := trace + [disk];
        assert disk in trace;
        assert forall i :: i in bits.value && i in disk.part.value.settled ==> ClaimOk(unit, truth, disk.part.value, i);
      }
    }

    /** A crash, and the reload that follows it. */
    method Restart(w: Wreck)
      requires Valid() && Crashed(unit, disk, w)
      modifies this
      ensures Valid() && trace == old(trace) + [disk] && disk == Reloaded(unit, w)
      ensures bits == if disk.part.Some? then Some(disk.claim.value.bits) else None
    {
      ReloadTellsTheTruth(unit, truth, disk, w);
      disk := Reloaded(unit, w);
      trace := trace + [disk];
      bits := if disk.part.Some? then Some(disk.claim.value.bits) else None;
    }
  }

  /** After any operations, a crash at any moment of their run reloads only the truth. */
  lemma AnyMomentIsSafe(f: SparseFile, d: Disk, w: Wreck)
    requires f.Valid() && d in f.trace && Crashed(f.unit, d, w)
    ensures Ordered(f.unit, f.truth, Reloaded(f.unit, w))
  {
    ReloadTellsTheTruth(f.unit, f.truth, d, w);
  }

  /** A claim written after a sync that failed names blocks that are not settled, and
      some crash then reloads a wrong block. */
  lemma UnsyncedCloseInvents(unit: nat, T: Bytes, d: Disk, bits: set<nat>, i: nat) returns (w: Wreck)
    requires unit > 0 && d.part.Some? && d.published.None? && |d.part.value.content| == |T|
    requires i in bits && i < PieceCount(unit, |T|) && i !in d.part.value.settled
    ensures Crashed(unit, d.(claim := Some(Claim(|T|, bits))), w) && !Ordered(unit, T, Reloaded(unit, w))
  {
    w := UnsettledClaimInvents(unit, T, d.(claim := Some(Claim(|T|, bits))), i);
  }
}
