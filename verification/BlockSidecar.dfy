/** The operations on one block's file and sidecar, disk step by disk step. Whatever state
    the disk passes through is kept in a trace, so that a crash can be put anywhere. */
module BlockSidecar {

  import opened Common
  import opened Bitmap
  import opened Geometry
  import opened SidecarCrash

  /** The file with sub-block i written. */
  function Patched(sub: nat, T: Bytes, file: Bytes, i: nat): Bytes {
    var p := Piece(T, sub, i);
    if i * sub + |p| <= |file| then Overwrite(file, i * sub, p) else file
  }

  lemma PatchedAt(sub: nat, T: Bytes, file: Bytes, i: nat, j: nat)
    requires sub > 0 && |file| == |T| && i < PieceCount(sub, |T|)
    ensures var r := Patched(sub, T, file, i);
      |r| == |T| && Piece(r, sub, j) == if j == i then Piece(T, sub, i) else Piece(file, sub, j)
  {
    PieceInRange(sub, i, |T|);
    WritePiece(file, sub, i, Piece(T, sub, i), j);
  }

  lemma PatchedReal(sub: nat, T: Bytes, file: Bytes, i: nat)
    requires sub > 0 && |file| == |T| && i < PieceCount(sub, |T|)
    ensures var r := Patched(sub, T, file, i);
      |r| == |T| && RealSub(sub, T, r, i) && forall j :: j != i ==> Piece(r, sub, j) == Piece(file, sub, j)
    ensures file == T ==> Patched(sub, T, file, i) == T
  {
    hide Patched, PieceCount;
    var r := Patched(sub, T, file, i);
    PatchedAt(sub, T, file, i, i);
    forall j: nat | j != i ensures Piece(r, sub, j) == Piece(file, sub, j) { PatchedAt(sub, T, file, i, j); }
    if file == T { SamePiecesSameFile(r, T, sub); }
  }

  /** A file whose sub-blocks are all real is the block. */
  lemma AllReal(sub: nat, T: Bytes, file: Bytes)
    requires sub > 0 && |file| == |T|
    ensures file == T <==> forall i :: i in Range(PieceCount(sub, |T|)) ==> RealSub(sub, T, file, i)
  {
    hide Piece, PieceCount;
    if forall i :: i in Range(PieceCount(sub, |T|)) ==> RealSub(sub, T, file, i) {
      forall i | 0 <= i < PieceCount(sub, |T|) ensures Piece(file, sub, i) == Piece(T, sub, i) {
        assert i in Range(PieceCount(sub, |T|)) && RealSub(sub, T, file, i);
      }
      SamePiecesSameFile(file, T, sub);
    }
  }

  /** Sizing a short file keeps the sub-blocks that are real in it. */
  lemma SizedReal(sub: nat, T: Bytes, file: Bytes, i: nat)
    requires sub > 0 && |file| <= |T| && RealSub(sub, T, file, i)
    ensures RealSub(sub, T, Sized(file, |T|), i)
  {
    PieceInRange(sub, i, |T|);
    PieceInRange(sub, i, |file|);
  }

  lemma SizedSafe(sub: nat, T: Bytes, d: Disk)
    requires Shaped(sub, T, d) && d.file.Some? && |d.file.value| != |T|
    ensures var d' := d.(file := Some(Sized(d.file.value, |T|)));
      && Shaped(sub, T, d') && (Safe(sub, T, d) ==> Safe(sub, T, d'))
      && forall i :: RealSub(sub, T, d.file.value, i) ==> RealSub(sub, T, d'.file.value, i)
  {
    hide RealSub;
    forall i: nat | RealSub(sub, T, d.file.value, i) ensures RealSub(sub, T, Sized(d.file.value, |T|), i) {
      SizedReal(sub, T, d.file.value, i);
    }
  }

  /** An empty file next to a claim is safe only when the claim is empty. */
  lemma EmptyFileSafe(sub: nat, T: Bytes, sidecar: Option<set<nat>>)
    requires sub > 0 && |T| > 0 && (sidecar.Some? ==> sidecar.value <= Range(PieceCount(sub, |T|)))
    ensures Safe(sub, T, Disk(Some([]), sidecar)) <==> sidecar == Some({})
  {
    if sidecar.Some? && sidecar.value != {} {
      var i :| i in sidecar.value;
      PieceInRange(sub, i, |T|);
      assert !RealSub(sub, T, [], i);
    }
  }

  class BlockOnDisk {
    const sub: nat
    /** The block's real bytes; every put carries a part of them. */
    const content: Bytes
    var disk: Disk
    ghost var trace: seq<Disk>
    var entry: Option<Entry>

    /** What holds whether or not anything went wrong. */
    ghost predicate Alive()
      reads this
    {
      && sub > 0 && |content| > 0 && trace != [] && trace[|trace| - 1] == disk
      && (forall d :: d in trace ==> Shaped(sub, content, d))
      && (entry.Some? && entry.value.Partial? ==>
          entry.value.subs <= entry.value.bits <= Range(PieceCount(sub, |content|)))
    }

    /** A crash now, or at any moment so far, would have been harmless. */
    ghost predicate Calm()
      reads this
    {
      forall d :: d in trace ==> Safe(sub, content, d)
    }

    /** What the index knows is in memory or on disk. */
    ghost predicate Consistent()
      reads this
    {
      && (entry == Some(Whole(false)) ==> disk.file == Some(content))
      && (entry.Some? && entry.value.Partial? ==>
            && (entry.value.sidecarOn ==> disk.sidecar.Some?)
            && forall i :: i in entry.value.bits && i !in entry.value.subs ==>
                 disk.file.Some? && RealSub(sub, content, disk.file.value, i))
    }

    ghost predicate Valid()
      reads this
    {
      Alive() && Calm() && Consistent()
    }

    constructor (sub: nat, content: Bytes)
      requires sub > 0 && |content| > 0
      ensures Valid() && this.sub == sub && this.content == content && entry == None && disk == Disk(None, None)
    {
      this.sub, this.content := sub, content;
      disk, trace, entry := Disk(None, None), [Disk(None, None)], None;
    }

    // Disk steps. `sure`: none of them fails.

    method Write(d: Disk)
      requires Alive() && Shaped(sub, content, d)
      modifies this`disk, this`trace
      ensures Alive() && disk == d && trace == old(trace) + [d]
      ensures Calm() <==> old(Calm()) && Safe(sub, content, d)
    {
      disk := d;
      trace := trace + [d];
      assert d in trace;
      assert forall e :: e in trace <==> e in old(trace) || e == d;
    }

    /** removePartialBlock: data before claim. */
    method RemoveBoth()
      requires Alive()
      modifies this`disk, this`trace
      ensures Alive() && disk == Disk(None, None) && old(trace) <= trace && (Calm() <==> old(Calm()))
    {
      assert disk in trace;
      Write(disk.(file := None));
      Write(disk.(sidecar := None));
    }

    /** A finished temporary file is renamed into place, then the sidecar goes. */
    method PublishWhole()
      requires Alive()
      modifies this`disk, this`trace
      ensures Alive() && disk == Disk(Some(content), None) && old(trace) <= trace && (Calm() <==> old(Calm()))
    {
      assert disk in trace;
      Write(disk.(file := Some(content)));
      Write(disk.(sidecar := None));
    }

    /** The claim that is next to the block's file once it is open: a whole block makes
        none, and one that is found is kept, whoever left it. */
    function ClaimOnOpen(): Option<set<nat>>
      reads this
    {
      if (entry.Some? && entry.value.Whole?) || disk.sidecar.Some? then disk.sidecar else Some({})
    }

    /** Opening makes a file for which the claim beside it was not written. */
    predicate OpensUnclaimed()
      reads this
    {
      disk.file.None? && ClaimOnOpen() != Some({})
    }

    /** The block's file as opening leaves it. */
    function Base(): Bytes
      reads this
    {
      Sized(if disk.file.Some? then disk.file.value else [], |content|)
    }

    /** claimBlock: an empty claim, unless the block is whole, known to have a claim, or
        found to have one. */
    method Claim(sure: bool) returns (ok: bool)
      requires Alive() && Consistent()
      modifies this
      ensures Alive() && Consistent() && old(trace) <= trace && (Calm() <==> old(Calm()))
      ensures disk.file == old(disk).file && (ok ==> disk.sidecar == old(ClaimOnOpen())) && (sure ==> ok)
      ensures if old(disk).sidecar.Some? || (old(entry).Some? && old(entry).value.Whole?) then disk == old(disk)
        else ok ==> disk.sidecar == Some({})
      ensures SameEntry(old(entry))
    {
      hide RealSub;
      assert disk in trace;
      ok := true;
      if !(entry.Some? && (entry.value.Whole? || entry.value.sidecarOn)) {
        if disk.sidecar.None? {
          ok := *;
          if !ok && !sure { return; }
          ok := true;
          Write(disk.(sidecar := Some({})));
        }
        if entry.Some? { entry := Some(entry.value.(sidecarOn := true)); }
      }
    }

    /** The entry is as it was, but may be known to have a sidecar. */
    predicate SameEntry(was: Option<Entry>)
      reads this
    {
      match (entry, was)
      case (Some(Partial(bits, subs, _)), Some(Partial(bits', subs', _))) => bits == bits' && subs == subs'
      case (a, b) => a == b
    }

    /** The file is opened, made if need be, and brought to its length. */
    method OpenFile(sure: bool) returns (fileOpen: bool, ok: bool)
      requires Alive() && Consistent()
      modifies this`disk, this`trace
      ensures Alive() && Consistent() && old(trace) <= trace && disk.sidecar == old(disk).sidecar
      ensures Calm() <==> old(Calm()) && !(fileOpen && old(disk).file.None? && old(disk).sidecar != Some({}))
      ensures (ok ==> fileOpen && disk.file == Some(old(Base()))) && (sure ==> ok)
      ensures !fileOpen ==> disk == old(disk)
    {
      hide RealSub, Safe;
      assert disk in trace;
      ok := false;
      fileOpen := *;
      fileOpen := fileOpen || sure;
      if !fileOpen { return; }
      if disk.file.None? {
        EmptyFileSafe(sub, content, disk.sidecar);
        Write(disk.(file := Some([])));
      }
      if |disk.file.value| == |content| {
        assert Sized(disk.file.value, |content|) == disk.file.value;
        ok := true;
        return;
      }
      ok := *;
      ok := ok || sure;
      if ok {
        SizedSafe(sub, content, disk);
        Write(disk.(file := Some(Sized(disk.file.value, |content|))));
      }
    }

    /** openPartialBlock: the claim first, then the file, then its length. A crash stays
        harmless exactly when no file is made beside a claim that is not about it. */
    method OpenPartial(sure: bool) returns (fileOpen: bool, ok: bool)
      requires Alive() && Consistent()
      modifies this
      ensures Alive() && Consistent() && old(trace) <= trace
      ensures Calm() <==> old(Calm()) && !(fileOpen && old(OpensUnclaimed()))
      ensures (ok ==> fileOpen && disk == Disk(Some(old(Base())), old(ClaimOnOpen()))) && (sure ==> ok)
      ensures SameEntry(old(entry))
    {
      hide RealSub, Safe, Sized;
      fileOpen := false;
      ok := Claim(sure);
      if ok { fileOpen, ok := OpenFile(sure); }
    }

    /** One sub-block written into the open file. */
    method WriteSub(i: nat)
      requires Alive() && Consistent() && disk.file.Some? && |disk.file.value| == |content| &&
        i < PieceCount(sub, |content|)
      modifies this`disk, this`trace
      ensures Alive() && Consistent() && old(trace) <= trace && (Calm() <==> old(Calm()))
      ensures disk.sidecar == old(disk).sidecar && disk.file.Some? && |disk.file.value| == |content|
      ensures RealSub(sub, content, disk.file.value, i)
      ensures forall j :: j != i ==> Piece(disk.file.value, sub, j) == Piece(old(disk).file.value, sub, j)
    {
      hide Patched, Piece, PieceCount;
      assert disk in trace;
      PatchedReal(sub, content, disk.file.value, i);
      Write(disk.(file := Some(Patched(sub, content, disk.file.value, i))));
    }

    // The operations.

    /** put: a whole block, on disk before it is known. */
    method Put()
      requires Alive() && Consistent()
      modifies this
      ensures Alive() && Consistent() && old(trace) <= trace && (Calm() <==> old(Calm()))
      ensures entry == Some(Whole(false)) && disk == Disk(Some(content), None)
    {
      PublishWhole();
      entry := Some(Whole(false));
    }

    /** PutAsync: known at once, on disk later. */
    method PutAsync()
      requires Alive() && Consistent()
      modifies this`entry
      ensures Alive() && Consistent() && (Calm() <==> old(Calm())) && entry == Some(Whole(true))
    {
      entry := Some(Whole(true));
    }

    /** flushBlock: the block reaches its file, or is forgotten when the write fails. */
    method FlushWhole(sure: bool) returns (ok: bool)
      requires Alive() && Consistent() && entry == Some(Whole(true))
      modifies this
      ensures Alive() && Consistent() && old(trace) <= trace && (Calm() <==> old(Calm()))
      ensures if ok then entry == Some(Whole(false)) && disk == Disk(Some(content), None)
              else entry == None && disk == old(disk)
      ensures sure ==> ok
    {
      ok := *;
      ok := ok || sure;
      if ok {
        PublishWhole();
        entry := Some(Whole(false));
      } else {
        entry := None;
      }
    }

    /** PutRange: the sub-blocks that are missing are kept in memory. */
    method PutRange(named: set<nat>)
      requires Alive() && Consistent() && named <= Range(PieceCount(sub, |content|))
      modifies this`entry
      ensures Alive() && Consistent() && (Calm() <==> old(Calm()))
      ensures entry.Some? && (entry.value.Partial? ==> named <= entry.value.bits)
      ensures old(entry).Some? && old(entry).value.Partial? ==>
        && entry.value.Partial? && entry.value.bits == old(entry).value.bits + named
        && old(entry).value.subs <= entry.value.subs
      ensures old(entry).Some? && old(entry).value.Whole? ==> entry == old(entry)
    {
      match entry {
        case Some(Whole(_)) =>
        case Some(Partial(bits, subs, on)) => entry := Some(Partial(bits + named, subs + (named - bits), on));
        case None => entry := Some(Partial(named, named, false));
      }
    }

    /** dropPartial, eviction and Forget: the entry, its file, then the sidecar. */
    method Drop()
      requires Alive()
      modifies this
      ensures Alive() && Consistent() && old(trace) <= trace && (Calm() <==> old(Calm()))
      ensures entry == None && disk == Disk(None, None)
    {
      entry := None;
      RemoveBoth();
    }

    /** A full block loses its sidecar; otherwise the claim catches up when due. */
    method Settle(due: bool)
      requires Alive() && Consistent() && entry.Some? && entry.value.Partial? && entry.value.subs == {}
      requires disk.file.Some? && |disk.file.value| == |content| && disk.sidecar.Some?
      modifies this
      ensures Alive() && Consistent() && old(trace) <= trace && (Calm() <==> old(Calm()))
      ensures entry == if |old(entry).value.bits| == PieceCount(sub, |content|) then Some(Whole(false)) else old(entry)
      ensures disk.file == old(disk).file
      ensures disk.sidecar ==
        if entry.value.Whole? then None else if due then Some(entry.value.bits) else old(disk).sidecar
    {
      hide RealSub, PieceCount;
      assert disk in trace;
      var bits := entry.value.bits;
      FullMeansAll(bits, PieceCount(sub, |content|));
      AllReal(sub, content, disk.file.value);
      if |bits| == PieceCount(sub, |content|) {
        entry := Some(Whole(false));
        Write(disk.(sidecar := None));
      } else if due {
        Write(disk.(sidecar := Some(bits)));
      }
    }

    /** flushSubs: the sub-blocks in memory go to the file, in any order. */
    method FlushSubs(due: bool, sure: bool) returns (fileOpen: bool)
      requires Alive() && Consistent() && entry.Some? && entry.value.Partial?
      modifies this
      ensures Alive() && Consistent() && old(trace) <= trace
      ensures Calm() <==> old(Calm()) && !(fileOpen && old(OpensUnclaimed()))
      ensures entry.Some? ==>
        entry == Some(Whole(false)) || (entry.value.Partial? && entry.value.bits == old(entry).value.bits)
      ensures sure ==> entry.Some? && (entry.value.Partial? ==> entry.value.subs == {})
      ensures entry.Some? && old(entry).value.subs != {} ==>
        (entry.value.Whole? <==> |old(entry).value.bits| == PieceCount(sub, |content|))
    {
      hide RealSub, Safe, PieceCount, Sized;
      var pending := entry.value.subs;
      if pending == {} { return false; }
      var ok;
      fileOpen, ok := OpenPartial(sure);
      if !ok {
        Drop();
        return;
      }
      ghost var calm := Calm();
      while pending != {}
        invariant Alive() && Consistent() && old(trace) <= trace && (Calm() <==> calm)
        invariant disk.file.Some? && |disk.file.value| == |content| && disk.sidecar.Some?
        invariant entry.Some? && entry.value.Partial? && entry.value.bits == old(entry).value.bits &&
          pending == entry.value.subs
        decreases |pending|
      {
        var i :| i in pending;
        ok := *;
        if !ok && !sure {
          Drop();
          return;
        }
        WriteSub(i);
        pending := pending - {i};
        entry := Some(entry.value.(subs := pending));
      }
      Settle(due);
    }

    /** sweepClaims: the claim of a quiet block names what its file holds. */
    method Sweep()
      requires Alive() && Consistent() && entry.Some? && entry.value.Partial?
      modifies this
      ensures Alive() && Consistent() && old(trace) <= trace && (Calm() <==> old(Calm())) && entry == old(entry)
      ensures disk == old(disk).(sidecar := Some(entry.value.bits - entry.value.subs)) && !OpensUnclaimed()
    {
      hide RealSub, PieceCount;
      assert disk in trace;
      var onDisk := entry.value.bits - entry.value.subs;
      assert disk.file.None? ==> onDisk == {};
      Write(disk.(sidecar := Some(onDisk)));
    }

    /** The put counts a sub-block that is only in memory, with something else in its
        place in the file, into a promotion or a claim. */
    ghost predicate Inflates(named: set<nat>, due: bool)
      requires sub > 0
      reads this
    {
      CountsMemory(sub, content, entry, named, due, Base())
    }

    /** putRangeSync: the range goes to the file, then the claim. Over every entry, a crash
        stays harmless exactly when the file is not made beside a claim that is not about
        it and no sub-block that is only in memory is counted as on disk. */
    method PutRangeSync(named: set<nat>, due: bool, sure: bool) returns (fileOpen: bool, ok: bool)
      requires Alive() && Consistent() && named <= Range(PieceCount(sub, |content|))
      modifies this
      ensures Alive() && old(trace) <= trace && (Calm() || !ok ==> Consistent())
      ensures Calm() <==> old(Calm()) && !(fileOpen && old(OpensUnclaimed())) && !(ok && old(Inflates(named, due)))
      ensures ok ==> entry.Some? && (entry.value.Partial? ==> named <= entry.value.bits)
      ensures ok ==> disk.file.Some? && forall i :: i in named ==> RealSub(sub, content, disk.file.value, i)
      ensures sure ==> ok
    {
      hide RealSub, Safe, PieceCount, Sized;
      ghost var base := Base();
      fileOpen, ok := OpenPartial(sure);
      if !ok { return; }
      ghost var calm := Calm();
      var left := named;
      while left != {}
        invariant Alive() && Consistent() && old(trace) <= trace && (Calm() <==> calm) && left <= named &&
          SameEntry(old(entry))
        invariant disk.file.Some? && |disk.file.value| == |content| && disk.sidecar == old(ClaimOnOpen())
        invariant forall i :: i in named && i !in left ==> RealSub(sub, content, disk.file.value, i)
        invariant forall i :: i !in named ==> Piece(disk.file.value, sub, i) == Piece(base, sub, i)
        decreases |left|
      {
        var i :| i in left;
        ok := *;
        if !ok && !sure { return; }
        ghost var before := disk.file.value;
        WriteSub(i);
        StillReal(sub, content, before, disk.file.value, i);
        left := left - {i};
      }
      ok := true;
      if entry.Some? && entry.value.Whole? { return; }
      CountRange(named, due, base);
    }

    /** The end of a synchronous range put, with the range in the file. */
    method CountRange(named: set<nat>, due: bool, ghost base: Bytes)
      requires Alive() && Consistent() && named <= Range(PieceCount(sub, |content|)) &&
        !(entry.Some? && entry.value.Whole?)
      requires disk.file.Some? && |disk.file.value| == |content| && disk.sidecar.Some?
      requires forall i :: i in named ==> RealSub(sub, content, disk.file.value, i)
      requires forall i :: i !in named ==> Piece(disk.file.value, sub, i) == Piece(base, sub, i)
      modifies this
      ensures Alive() && old(trace) <= trace && (Calm() ==> Consistent())
      ensures Calm() <==> old(Calm()) && !CountsMemory(sub, content, old(entry), named, due, base)
      ensures entry.Some? && (entry.value.Partial? ==> named <= entry.value.bits) && disk.file == old(disk).file
    {
      hide RealSub, PieceCount, Stray, Safe;
      assert disk in trace;
      var bits, subs := {}, {};
      if entry.Some? { bits, subs := entry.value.bits, entry.value.subs; }
      RealUnlessStray(sub, content, disk.file.value, base, bits, subs, named);
      NoneIsStray(sub, content, named, base);
      CountedSafe(sub, content, disk.file.value, bits + named);
      entry := Some(Partial(bits + named, subs, true));
      if |bits + named| == PieceCount(sub, |content|) {
        entry := Some(Whole(false));
        Write(disk.(sidecar := None));
      } else if due {
        Write(disk.(sidecar := Some(bits + named)));
      }
    }

    /** A crash at any moment so far, and the reload that follows it. */
    method Restart(d: Disk)
      requires Valid() && d in trace
      modifies this
      ensures Valid() && disk == d && entry == Reloaded(d) && old(trace) <= trace
    {
      hide RealSub;
      Write(d);
      entry := Reloaded(d);
    }
  }

  lemma StillReal(sub: nat, T: Bytes, before: Bytes, after: Bytes, i: nat)
    requires forall j :: j != i ==> Piece(after, sub, j) == Piece(before, sub, j)
    ensures forall j :: j != i ==> (RealSub(sub, T, after, j) <==> RealSub(sub, T, before, j))
  {
  }

  /** A sub-block in memory and not in the range is not real in the file. */
  ghost predicate Stray(sub: nat, T: Bytes, subs: set<nat>, named: set<nat>, base: Bytes) {
    exists i :: i in subs && i !in named && !RealSub(sub, T, base, i)
  }

  /** Such a sub-block is counted by a promotion or a claim. */
  ghost predicate CountsMemory(sub: nat, T: Bytes, e: Option<Entry>, named: set<nat>, due: bool, base: Bytes)
    requires sub > 0
  {
    && e.Some? && e.value.Partial? && (due || |e.value.bits + named| == PieceCount(sub, |T|))
    && Stray(sub, T, e.value.subs, named, base)
  }

  lemma NoneIsStray(sub: nat, T: Bytes, named: set<nat>, base: Bytes)
    ensures !Stray(sub, T, {}, named, base)
  {
  }

  /** A claim, or the promotion of a full one, is safe when all it counts is real. */
  lemma CountedSafe(sub: nat, T: Bytes, file: Bytes, bits: set<nat>)
    requires sub > 0 && |file| == |T| && bits <= Range(PieceCount(sub, |T|))
    ensures Safe(sub, T, Disk(Some(file), Some(bits))) <==> forall i :: i in bits ==> RealSub(sub, T, file, i)
    ensures |bits| == PieceCount(sub, |T|) ==>
      (Safe(sub, T, Disk(Some(file), None)) <==> forall i :: i in bits ==> RealSub(sub, T, file, i))
    ensures |bits| == PieceCount(sub, |T|) && (forall i :: i in bits ==> RealSub(sub, T, file, i)) ==> file == T
  {
    hide RealSub, PieceCount;
    FullMeansAll(bits, PieceCount(sub, |T|));
    AllReal(sub, T, file);
  }

  lemma RealUnlessStray(sub: nat, T: Bytes, file: Bytes, base: Bytes, bits: set<nat>, subs: set<nat>, named: set<nat>)
    requires subs <= bits && (forall i :: i !in named ==> Piece(file, sub, i) == Piece(base, sub, i))
    requires forall i :: i in named || (i in bits && i !in subs) ==> RealSub(sub, T, file, i)
    ensures (forall i :: i in bits + named ==> RealSub(sub, T, file, i)) <==> !Stray(sub, T, subs, named, base)
  {
    if i :| i in subs && i !in named && !RealSub(sub, T, base, i) {
      assert i in bits + named && !RealSub(sub, T, file, i);
    } else {
      forall i | i in bits + named ensures RealSub(sub, T, file, i) {
        if i !in named && i in subs { assert RealSub(sub, T, base, i); }
      }
    }
  }

  /** After any operations, crashes and restarts among them: reload serves only the truth
      at every moment of the run exactly as long as the block stayed calm. */
  lemma AnyMomentIsSafe(b: BlockOnDisk)
    requires b.Alive()
    ensures b.Calm() <==> forall d :: d in b.trace ==> ServesTheTruth(b.sub, b.content, d)
  {
    hide Safe, ServesTheTruth, Shaped;
    forall d | d in b.trace ensures Safe(b.sub, b.content, d) <==> ServesTheTruth(b.sub, b.content, d) {
      assert Shaped(b.sub, b.content, d);
      ReloadServesTheTruth(b.sub, b.content, d);
    }
  }
}
