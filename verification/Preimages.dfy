/** The preimage store: content kept before a write, named by its hash, against
    the rows that name it, the captures still in flight, and the sweep that
    removes what nobody names. */
module Preimages {

  import opened Common

  /** SHA-256 is taken as injective: a blob's name stands for its content. */
  type Hash = Bytes

  datatype Row = Row(session: nat, blob: Option<Hash>)

  /** A call between Capture and the release of its hold: copying the content to
      a temporary file, holding a blob that is in place, or about to let go. */
  datatype Phase = Copying | Holding | Releasing

  datatype Call = Call(hash: Hash, phase: Phase)

  /** A sweep between its directory listing and query and its removals. `since`
      collects the rows recorded in between. */
  datatype Sweep = Sweep(entries: set<Hash>, referenced: set<Hash>, since: set<nat>)

  datatype State = State(disk: set<Hash>, rows: map<nat, Row>, inflight: map<Hash, nat>,
                         calls: map<nat, Call>, sweep: Option<Sweep>)

  datatype Act =
    | KeepInPlace(t: nat, h: Hash)       // the blob is there, or the cache's file was linked
    | KeepByCopy(t: nat, h: Hash)
    | CopyDone(t: nat)
    | CopyFailed(t: nat)
    | RecordRow(t: nat, seqNo: nat, session: nat)
    | RecordPlain(seqNo: nat, session: nat)   // a row without a preimage
    | RecordFailed(t: nat)
    | Release(t: nat)
    | Discard(t: nat)
    | DropSession(session: nat)
    | SweepQuery
    | SweepRemove
    | Crash

  const Empty := State({}, map[], map[], map[], None)

  function Held(inflight: map<Hash, nat>, h: Hash): nat {
    if h in inflight then inflight[h] else 0
  }

  function Raised(inflight: map<Hash, nat>, h: Hash): map<Hash, nat> {
    inflight[h := Held(inflight, h) + 1]
  }

  function Lowered(inflight: map<Hash, nat>, h: Hash): map<Hash, nat> {
    if Held(inflight, h) <= 1 then inflight - {h} else inflight[h := inflight[h] - 1]
  }

  function Named(rows: map<nat, Row>): set<Hash> {
    set r | r in rows && rows[r].blob.Some? :: rows[r].blob.value
  }

  predicate Enabled(s: State, a: Act) {
    match a
    case KeepInPlace(t, h) => t !in s.calls
    case KeepByCopy(t, h) => t !in s.calls
    case CopyDone(t) => t in s.calls && s.calls[t].phase == Copying
    case CopyFailed(t) => t in s.calls && s.calls[t].phase == Copying
    case RecordRow(t, seqNo, _) => t in s.calls && s.calls[t].phase == Holding && seqNo !in s.rows
    case RecordPlain(seqNo, _) => seqNo !in s.rows
    case RecordFailed(t) => t in s.calls && s.calls[t].phase == Holding
    case Release(t) => t in s.calls && s.calls[t].phase == Releasing
    case Discard(t) => t in s.calls && s.calls[t].phase == Holding
    case DropSession(_) => true
    case SweepQuery => s.sweep.None?
    case SweepRemove => s.sweep.Some?
    case Crash => true
  }

  function LetGo(s: State, t: nat): State
    requires t in s.calls
  {
    s.(inflight := Lowered(s.inflight, s.calls[t].hash), calls := s.calls - {t})
  }

  function Inserted(s: State, seqNo: nat, row: Row): State {
    s.(rows := s.rows[seqNo := row],
       sweep := if s.sweep.Some? then Some(s.sweep.value.(since := s.sweep.value.since + {seqNo})) else None)
  }

  /** What a sweep unlinks: listed, unnamed at its query, not in flight now. */
  function Victims(s: State): set<Hash>
    requires s.sweep.Some?
  {
    set h | h in s.sweep.value.entries && h !in s.sweep.value.referenced && Held(s.inflight, h) == 0
  }

  function Next(s: State, a: Act): State
    requires Enabled(s, a)
  {
    match a
    case KeepInPlace(t, h) =>
      s.(disk := s.disk + {h}, inflight := Raised(s.inflight, h), calls := s.calls[t := Call(h, Holding)])
    case KeepByCopy(t, h) =>
      s.(inflight := Raised(s.inflight, h), calls := s.calls[t := Call(h, Copying)])
    case CopyDone(t) =>
      s.(disk := s.disk + {s.calls[t].hash}, calls := s.calls[t := s.calls[t].(phase := Holding)])
    case CopyFailed(t) => LetGo(s, t)
    case RecordRow(t, seqNo, session) =>
      Inserted(s, seqNo, Row(session, Some(s.calls[t].hash))).(calls := s.calls[t := s.calls[t].(phase := Releasing)])
    case RecordPlain(seqNo, session) => Inserted(s, seqNo, Row(session, None))
    case RecordFailed(t) => s.(calls := s.calls[t := s.calls[t].(phase := Releasing)])
    case Release(t) => LetGo(s, t)
    case Discard(t) => LetGo(s, t)
    case DropSession(session) => s.(rows := map r | r in s.rows && s.rows[r].session != session :: s.rows[r])
    case SweepQuery => s.(sweep := Some(Sweep(s.disk, Named(s.rows), {})))
    case SweepRemove => s.(disk := s.disk - Victims(s), sweep := None)
    case Crash => State(s.disk, s.rows, map[], map[], None)
  }

  /** The calls holding h. */
  function Holders(s: State, h: Hash): set<nat> {
    set t | t in s.calls && s.calls[t].hash == h
  }

  ghost predicate RowSafe(s: State, r: nat)
    requires r in s.rows
  {
    s.rows[r].blob.Some? ==> s.rows[r].blob.value in s.disk
  }

  /** In-flight counts are exactly the calls holding the blob, a held blob is in
      place, and a sweep knows every row it did not see being recorded. */
  ghost predicate Exact(s: State) {
    && (forall h :: Held(s.inflight, h) == |Holders(s, h)|)
    && (forall h :: h in s.inflight ==> s.inflight[h] > 0)
    && (forall t :: t in s.calls && s.calls[t].phase != Copying ==> s.calls[t].hash in s.disk)
    && (s.sweep.Some? ==> forall r :: r in s.rows && s.rows[r].blob.Some? && r !in s.sweep.value.since ==>
                            s.rows[r].blob.value in s.sweep.value.referenced)
  }

  ghost predicate Safe(s: State) {
    Exact(s) && forall r :: r in s.rows ==> RowSafe(s, r)
  }

  lemma HoldersRaised(s: State, t: nat, h: Hash, phase: Phase, g: Hash)
    requires t !in s.calls && Exact(s)
    ensures var s' := s.(inflight := Raised(s.inflight, h), calls := s.calls[t := Call(h, phase)]);
            Held(s'.inflight, g) == |Holders(s', g)|
  {
    var s' := s.(inflight := Raised(s.inflight, h), calls := s.calls[t := Call(h, phase)]);
    if g == h {
      assert Holders(s', g) == Holders(s, g) + {t};
    } else {
      assert Holders(s', g) == Holders(s, g);
    }
  }

  lemma HoldersLowered(s: State, t: nat, g: Hash)
    requires t in s.calls && Exact(s)
    ensures Held(LetGo(s, t).inflight, g) == |Holders(LetGo(s, t), g)|
  {
    var s' := LetGo(s, t);
    assert t in Holders(s, s.calls[t].hash);
    if g == s.calls[t].hash {
      assert Holders(s', g) == Holders(s, g) - {t};
    } else {
      assert Holders(s', g) == Holders(s, g);
    }
  }

  lemma HoldersSame(s: State, s': State, g: Hash)
    requires s.calls.Keys == s'.calls.Keys && forall t :: t in s.calls ==> s.calls[t].hash == s'.calls[t].hash
    ensures Holders(s, g) == Holders(s', g)
  {
  }

  /** A step keeps the in-flight counts exact. */
  lemma ExactNext(s: State, a: Act)
    requires Exact(s) && Enabled(s, a)
    ensures Exact(Next(s, a))
  {
    var s' := Next(s, a);
    forall g ensures Held(s'.inflight, g) == |Holders(s', g)| {
      match a
      case KeepInPlace(t, h) => HoldersRaised(s, t, h, Holding, g);
        assert Holders(s', g) ==
          Holders(s.(inflight := Raised(s.inflight, h), calls := s.calls[t := Call(h, Holding)]), g);
      case KeepByCopy(t, h) => HoldersRaised(s, t, h, Copying, g);
      case CopyFailed(t) => HoldersLowered(s, t, g);
      case Release(t) => HoldersLowered(s, t, g);
      case Discard(t) => HoldersLowered(s, t, g);
      case Crash => assert Holders(s', g) == {};
      case _ => HoldersSame(s, s', g);
    }
    if a == SweepRemove {
      forall t | t in s.calls && s.calls[t].phase != Copying ensures s.calls[t].hash in s'.disk {
        assert t in Holders(s, s.calls[t].hash);
        assert Held(s.inflight, s.calls[t].hash) > 0;
      }
    }
  }

  /** The one step that can lose a row's preimage, and exactly whose it loses: a
      row recorded after the sweep's query, for a blob the sweep had listed, that
      no row named then and no call holds now. */
  lemma SweepLosesExactly(s: State, r: nat)
    requires Safe(s) && s.sweep.Some? && r in s.rows && s.rows[r].blob.Some?
    ensures var h := s.rows[r].blob.value;
            var sw := s.sweep.value;
            !RowSafe(Next(s, SweepRemove), r) <==>
              r in sw.since && h in sw.entries && h !in sw.referenced && Holders(s, h) == {}
  {
  }

  /** No row recorded since the sweep's query has a blob that the sweep is about to
      remove: one it listed, that no row named then and no call holds now. */
  ghost predicate Harmless(s: State, a: Act) {
    a == SweepRemove && s.sweep.Some? ==>
      forall r :: r in s.rows && r in s.sweep.value.since ==> Spared(s, r)
  }

  ghost predicate Spared(s: State, r: nat)
    requires s.sweep.Some? && r in s.rows
  {
    s.rows[r].blob.Some? ==>
      var h := s.rows[r].blob.value;
      h !in s.sweep.value.entries || h in s.sweep.value.referenced || Holders(s, h) != {}
  }

  /** A step keeps every row's preimage exactly when it is harmless. */
  lemma SafeNext(s: State, a: Act)
    requires Safe(s) && Enabled(s, a)
    ensures Safe(Next(s, a)) <==> Harmless(s, a)
  {
    ExactNext(s, a);
    var s' := Next(s, a);
    forall r | r in s.rows && r in s'.rows
      ensures RowSafe(s', r) <==> (a == SweepRemove && r in s.sweep.value.since ==> Spared(s, r))
    {
      assert RowSafe(s, r);
      if a == SweepRemove && s.rows[r].blob.Some? { SweepLosesExactly(s, r); }
    }
    if a == SweepRemove {
      assert s'.rows == s.rows;
    } else {
      forall r | r in s'.rows ensures RowSafe(s', r) {
        if r in s.rows { assert RowSafe(s, r); }
      }
    }
  }

  ghost predicate Legal(s: State, acts: seq<Act>)
    decreases |acts|
  {
    acts == [] || (Enabled(s, acts[0]) && Legal(Next(s, acts[0]), acts[1..]))
  }

  ghost predicate AllHarmless(s: State, acts: seq<Act>)
    requires Legal(s, acts)
    decreases |acts|
  {
    acts == [] || (Harmless(s, acts[0]) && AllHarmless(Next(s, acts[0]), acts[1..]))
  }

  /** Every row has its preimage on disk after every step. */
  ghost predicate AlwaysSafe(s: State, acts: seq<Act>)
    requires Legal(s, acts)
    decreases |acts|
  {
    Safe(s) && (acts == [] || AlwaysSafe(Next(s, acts[0]), acts[1..]))
  }

  ghost function Exec(s: State, acts: seq<Act>): State
    requires Legal(s, acts)
    decreases |acts|
  {
    if acts == [] then s else Exec(Next(s, acts[0]), acts[1..])
  }

  /** Any interleaving of captures, records, discards, session drops, sweeps and
      crashes: after every step every row still there has its preimage on disk, exactly
      when every sweep is harmless. */
  lemma {:induction false} PreimagesSurvive(s: State, acts: seq<Act>)
    requires Safe(s) && Legal(s, acts)
    ensures AlwaysSafe(s, acts) <==> AllHarmless(s, acts)
    decreases |acts|
  {
    hide Safe, Next, Enabled, Harmless;
    if acts != [] {
      SafeNext(s, acts[0]);
      if Harmless(s, acts[0]) { PreimagesSurvive(Next(s, acts[0]), acts[1..]); }
    }
  }

  /** So it is from an empty store. */
  lemma PreimagesSurviveFromEmpty(acts: seq<Act>)
    requires Legal(Empty, acts)
    ensures AlwaysSafe(Empty, acts) <==> AllHarmless(Empty, acts)
  {
    EmptyIsSafe();
    PreimagesSurvive(Empty, acts);
  }

  lemma EmptyIsSafe()
    ensures Safe(Empty)
  {
    forall h ensures Held(Empty.inflight, h) == |Holders(Empty, h)| {
      assert Holders(Empty, h) == {};
    }
  }

  // What a sweep leaves.

  /** Neither a sweep nor a crash. */
  predicate Ordinary(a: Act) {
    a !in {SweepQuery, SweepRemove, Crash}
  }

  lemma {:induction false} SweepIsKept(s: State, acts: seq<Act>)
    requires Exact(s) && s.sweep.Some? && Legal(s, acts) && forall i :: 0 <= i < |acts| ==> Ordinary(acts[i])
    ensures var s' := Exec(s, acts);
      && Exact(s') && s.disk <= s'.disk && s'.sweep.Some?
      && s'.sweep.value.entries == s.sweep.value.entries && s'.sweep.value.referenced == s.sweep.value.referenced
    decreases |acts|
  {
    hide Exact;
    if acts != [] {
      assert Ordinary(acts[0]);
      ExactNext(s, acts[0]);
      assert forall i :: 0 <= i < |acts[1..]| ==> acts[1..][i] == acts[i + 1];
      SweepIsKept(Next(s, acts[0]), acts[1..]);
    }
  }

  /** Whatever is captured, recorded, released or dropped between the query of a sweep and
      its removals: of the blobs that were there at the query, exactly those stay that some
      row named then or some call holds now. Blobs that came since all stay. */
  lemma SweepLeavesExactly(s: State, acts: seq<Act>, h: Hash)
    requires Exact(s) && s.sweep.None? && Legal(Next(s, SweepQuery), acts)
    requires forall i :: 0 <= i < |acts| ==> Ordinary(acts[i])
    ensures var s' := Exec(Next(s, SweepQuery), acts);
      && Enabled(s', SweepRemove)
      && (h in Next(s', SweepRemove).disk <==>
            h in s'.disk && (h in s.disk ==> Holders(s', h) != {} ||
                                             exists r :: r in s.rows && s.rows[r].blob == Some(h)))
  {
    hide Exact, Legal, Exec, Holders;
    ExactNext(s, SweepQuery);
    SweepIsKept(Next(s, SweepQuery), acts);
    NamedBy(s.rows, h);
    UnheldIsFree(Exec(Next(s, SweepQuery), acts), h);
  }

  lemma NamedBy(rows: map<nat, Row>, h: Hash)
    ensures h in Named(rows) <==> exists r :: r in rows && rows[r].blob == Some(h)
  {
  }

  lemma UnheldIsFree(s: State, h: Hash)
    requires Exact(s)
    ensures Held(s.inflight, h) == 0 <==> Holders(s, h) == {}
  {
    assert Held(s.inflight, h) == |Holders(s, h)|;
  }

  /** With no call at work, a sweep leaves exactly the blobs that rows name. */
  lemma QuietSweepLeavesNamed(s: State)
    requires Exact(s) && s.sweep.None? && s.calls == map[]
    ensures Next(Next(s, SweepQuery), SweepRemove).disk ==
      set r | r in s.rows && s.rows[r].blob.Some? && s.rows[r].blob.value in s.disk :: s.rows[r].blob.value
  {
    var s1 := Next(s, SweepQuery);
    ExactNext(s, SweepQuery);
    forall h ensures Held(s1.inflight, h) == 0 { assert Holders(s1, h) == {}; }
  }

  /** For every content: a capture finds a blob nobody names, a sweep lists it,
      the row is recorded and the hold released, and the sweep removes it. */
  lemma RecordDuringSweepLosesPreimage(h: Hash)
    ensures var acts := [KeepInPlace(0, h), SweepQuery, RecordRow(0, 1, 7), Release(0), SweepRemove];
            Legal(Empty, acts) && 1 in Exec(Empty, acts).rows && !RowSafe(Exec(Empty, acts), 1)
  {
    var s1 := Next(Empty, KeepInPlace(0, h));
    var s2 := Next(s1, SweepQuery);
    var s3 := Next(s2, RecordRow(0, 1, 7));
    var s4 := Next(s3, Release(0));
    var s5 := Next(s4, SweepRemove);
    var a := [KeepInPlace(0, h), SweepQuery, RecordRow(0, 1, 7), Release(0), SweepRemove];
    assert a[1..] == [SweepQuery, RecordRow(0, 1, 7), Release(0), SweepRemove];
    assert a[1..][1..] == [RecordRow(0, 1, 7), Release(0), SweepRemove];
    assert a[1..][1..][1..] == [Release(0), SweepRemove];
    assert a[1..][1..][1..][1..] == [SweepRemove];
    assert Legal(s5, []) && Exec(s5, []) == s5;
    assert a[1..][1..][1..][1..][1..] == [];
    assert Exec(s4, [SweepRemove]) == s5;
    assert Exec(s3, [Release(0), SweepRemove]) == s5;
    assert Exec(s2, [RecordRow(0, 1, 7), Release(0), SweepRemove]) == s5;
  }
}
