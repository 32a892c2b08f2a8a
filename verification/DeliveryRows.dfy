/** What becomes of one row of the delivery queue over any sequence of calls: its status,
    the number of its attempts and the time from which it may be claimed, told from the
    calls that named it. */
module DeliveryRows {

  import opened Deliveries

  /** The call names the row. */
  predicate Names(a: Act, id: nat) {
    match a
    case Enqueue(_, _, _, _, _) => false
    case Claim(_, _, i) => i == id
    case Complete(i, _, _) => i == id
    case Fail(i, _, _, _) => i == id
    case Park(i, _, _, _) => i == id
    case Retry(i, _) => i == id
    case ResetRunning(ids, _) => id in ids
  }

  /** The call puts the row back, to be claimed from `Due` on. */
  predicate PutsBack(a: Act, id: nat) {
    Names(a, id) && (a.Fail? || a.Retry? || a.ResetRunning?)
  }

  function Due(a: Act): int
    requires a.Fail? || a.Retry? || a.ResetRunning?
  {
    if a.Fail? then a.due else a.now
  }

  /** The record of the row that no call but its own changes. */
  predicate SameEvent(r: Row, r': Row) {
    r'.rule == r.rule && r'.path == r.path && r'.kind == r.kind && r'.origin == r.origin && r'.firstSeen == r.firstSeen
  }

  /** What a call that names the row does to it. */
  predicate Told(a: Act, r: Row, r': Row) {
    && SameEvent(r, r')
    && r'.attempts == r.attempts + (if a.Claim? then 1 else 0)
    && match a
       case Enqueue(_, _, _, _, _) => false
       case Claim(rule, now, _) =>
         && r.rule == rule && r.status == Pending && r.due <= now && r'.status == Running && r'.due == r.due
         && r'.lastError == r.lastError && r'.output == r.output && r'.doneAt == r.doneAt
       case Complete(_, output, now) =>
         r'.status == Done && r'.due == r.due && r'.lastError == "" && r'.output == output && r'.doneAt == now
       case Park(_, err, output, now) =>
         r'.status == Dead && r'.due == r.due && r'.lastError == err && r'.output == output && r'.doneAt == now
       case Fail(_, err, output, due) =>
         && r.status == Running && r'.status == Pending && r'.due == due && r'.lastError == err && r'.output == output
         && r'.doneAt == 0
       case Retry(_, now) =>
         && r.status == Dead && r'.status == Pending && r'.due == now && r'.lastError == r.lastError
         && r'.output == r.output && r'.doneAt == 0
       case ResetRunning(_, now) =>
         && r.status == Running && r'.status == Pending && r'.due == now && r'.lastError == r.lastError
         && r'.output == r.output && r'.doneAt == 0
  }

  /** The row goes: it waits, or was reset, and another one of its rule and path is put back
      over it. Of several running rows of a key that are reset, the youngest stays. */
  ghost predicate FoldedAway(q: Queue, a: Act, id: nat) {
    id in q.rows && exists i :: PutBackOver(q, a, i, id)
  }

  ghost predicate PutBackOver(q: Queue, a: Act, i: nat, id: nat)
    requires id in q.rows
  {
    && i in q.rows && i != id && PutsBack(a, i) && KeyOf(q.rows[i]) == KeyOf(q.rows[id])
    && (q.rows[id].status == Pending || (a.ResetRunning? && q.rows[id].status == Running && id < i))
  }

  /** Row x of the list has the key of row id and is put back after it. */
  predicate Over(t: Table, ids: seq<nat>, id: nat, x: nat)
    requires id in t
  {
    x in ids && x in t && x != id && KeyOf(t[x]) == KeyOf(t[id]) && (id in ids ==> id < x)
  }

  ghost predicate Later(t: Table, ids: seq<nat>, id: nat)
    requires id in t
  {
    exists x :: Over(t, ids, id, x)
  }

  ghost predicate Ascending(t: Table, ids: seq<nat>) {
    && (forall i, j :: 0 <= i < j < |ids| ==> ids[i] < ids[j])
    && (forall x :: x in ids ==> x in t && t[x].status == Running)
  }

  lemma AscendingTail(t: Table, ids: seq<nat>, due: int)
    requires Ascending(t, ids) && ids != []
    ensures Ascending(Reopened(t, ids[0], due), ids[1..])
    ensures forall x :: x in ids[1..] ==> ids[0] < x && Reopened(t, ids[0], due)[x] == t[x]
    ensures forall x :: x in ids <==> x == ids[0] || x in ids[1..]
  {
    forall x | x in ids[1..] ensures x in ids && ids[0] < x {
      var i :| 0 <= i < |ids[1..]| && ids[1..][i] == x;
      assert ids[i + 1] == x;
    }
  }

  lemma {:induction false} ResetStays(t: Table, ids: seq<nat>, due: int, id: nat)
    requires Ascending(t, ids) && id !in t
    ensures id !in AllReopened(t, ids, due)
    decreases |ids|
  {
    if ids != [] {
      AscendingTail(t, ids, due);
      ResetStays(Reopened(t, ids[0], due), ids[1..], due, id);
    }
  }

  /** Putting one row back, seen from another one. */
  lemma ReopenedRow(t: Table, i: nat, due: int, id: nat)
    requires i in t && id in t && id != i
    ensures var u := Reopened(t, i, due);
      && (id in u <==> !(t[id].status == Pending && KeyOf(t[id]) == KeyOf(t[i])))
      && (id in u ==> u[id] == t[id])
  {
  }

  /** The first row put back changes nothing about the others' order. */
  lemma OverTail(t: Table, ids: seq<nat>, due: int, id: nat, x: nat)
    requires Ascending(t, ids) && ids != [] && id in t && id in Reopened(t, ids[0], due)
    ensures Over(Reopened(t, ids[0], due), ids[1..], id, x) <==> Over(t, ids, id, x) && x != ids[0]
  {
    hide Reopened;
    AscendingTail(t, ids, due);
    FirstRow(t, ids, due, id);
  }

  lemma LaterTail(t: Table, ids: seq<nat>, due: int, id: nat)
    requires Ascending(t, ids) && ids != [] && id in t && id in Reopened(t, ids[0], due)
    ensures Later(Reopened(t, ids[0], due), ids[1..], id) <==> exists x :: Over(t, ids, id, x) && x != ids[0]
  {
    hide Reopened, Over;
    forall x ensures Over(Reopened(t, ids[0], due), ids[1..], id, x) <==> Over(t, ids, id, x) && x != ids[0] {
      OverTail(t, ids, due, id, x);
    }
  }

  lemma FirstRow(t: Table, ids: seq<nat>, due: int, id: nat)
    requires Ascending(t, ids) && ids != []
    ensures ids[0] in t && ids[0] in Reopened(t, ids[0], due)
    ensures Reopened(t, ids[0], due)[ids[0]] == t[ids[0]].(status := Pending, due := due, doneAt := 0)
    ensures forall x :: x in ids[1..] ==> x in Reopened(t, ids[0], due)
    ensures id in t && id in Reopened(t, ids[0], due) ==> KeyOf(Reopened(t, ids[0], due)[id]) == KeyOf(t[id])
  {
    AscendingTail(t, ids, due);
  }

  /** Resetting: a listed row is put back unless a later one has its key, a pending row with
      the key of a listed one goes, and every other row stays as it is. */
  lemma {:induction false} ResetRow(t: Table, ids: seq<nat>, due: int, id: nat)
    requires Ascending(t, ids) && id in t
    ensures var u := AllReopened(t, ids, due);
      && (id in u <==> !(Later(t, ids, id) && (id in ids || t[id].status == Pending)))
      && (id in u && id in ids ==> u[id] == t[id].(status := Pending, due := due, doneAt := 0))
      && (id in u && id !in ids ==> u[id] == t[id])
    decreases |ids|
  {
    if ids != [] {
      hide Reopened;
      var t1, rest := Reopened(t, ids[0], due), ids[1..];
      AscendingTail(t, ids, due);
      FirstRow(t, ids, due, id);
      if id == ids[0] {
        ResetRow(t1, rest, due, id);
        LaterTail(t, ids, due, id);
      } else {
        ReopenedRow(t, ids[0], due, id);
        if id in t1 {
          ResetRow(t1, rest, due, id);
          LaterTail(t, ids, due, id);
        } else {
          ResetStays(t1, rest, due, id);
          assert Over(t, ids, id, ids[0]);
        }
      }
    }
  }

  lemma ResetFolds(q: Queue, ids: seq<nat>, now: int, id: nat)
    requires ListsRunning(q.rows, ids) && id in q.rows
    ensures FoldedAway(q, ResetRunning(ids, now), id) <==>
      Later(q.rows, ids, id) && (id in ids || q.rows[id].status == Pending)
  {
    var a := ResetRunning(ids, now);
    forall x: nat
      ensures PutBackOver(q, a, x, id) <==> Over(q.rows, ids, id, x) && (id in ids || q.rows[id].status == Pending)
    {
    }
  }

  /** One call, one row: the row stays unless it is folded away, and a row that stays is
      changed by the calls that name it alone, as they say. */
  lemma RowNext(q: Queue, a: Act, id: nat)
    requires Valid(q) && Enabled(q, a) && id in q.rows
    ensures var q' := Next(q, a);
      && (id in q'.rows <==> !FoldedAway(q, a, id))
      && (id in q'.rows ==> if Names(a, id) then Told(a, q.rows[id], q'.rows[id]) else q'.rows[id] == q.rows[id])
  {
    match a
    case ResetRunning(ids, now) =>
      ResetRow(q.rows, ids, now, id);
      ResetFolds(q, ids, now, id);
    case Retry(i, _) => if PutBackOver(q, a, i, id) { assert FoldedAway(q, a, id); }
    case Fail(i, _, _, _) => if PutBackOver(q, a, i, id) { assert FoldedAway(q, a, id); }
    case _ =>
  }

  /** The only new rows are those of events that were not waiting yet. */
  lemma NewRow(q: Queue, a: Act, id: nat)
    requires Valid(q) && Enabled(q, a) && id !in q.rows
    ensures var q' := Next(q, a);
      && (id in q'.rows <==> a.Enqueue? && id == q.next && !HasPending(q.rows, a.k))
      && (id in q'.rows ==>
            q'.rows[id] == Row(a.k.rule, a.k.path, a.kind, a.origin, a.now, a.due, 0, Pending, "", "", 0))
      && q.next <= q'.next
  {
    match a
    case ResetRunning(ids, now) => ResetStays(q.rows, ids, now, id);
    case _ =>
  }

  // Runs.

  ghost function Final(q: Queue, acts: seq<Act>): Queue
    requires Legal(q, acts)
    decreases |acts|
  {
    if acts == [] then q else Final(Next(q, acts[0]), acts[1..])
  }

  /** An id that was used and is free again stays free. */
  lemma {:induction false} NeverBack(q: Queue, acts: seq<Act>, id: nat)
    requires Legal(q, acts) && id < q.next && id !in q.rows
    ensures id !in Final(q, acts).rows && forall k :: 0 <= k < |acts| && acts[k].Claim? ==> acts[k].id != id
    decreases |acts|
  {
    hide Next;
    if acts != [] {
      NewRow(q, acts[0], id);
      NeverBack(Next(q, acts[0]), acts[1..], id);
      assert forall k :: 1 <= k < |acts| ==> acts[k] == acts[1..][k - 1];
    }
  }

  lemma UsedId(q: Queue, id: nat)
    requires Valid(q) && id in q.rows
    ensures id < q.next
  {
  }

  function Claims(acts: seq<Act>, id: nat): nat {
    if acts == [] then 0 else (if acts[0].Claim? && acts[0].id == id then 1 else 0) + Claims(acts[1..], id)
  }

  lemma {:induction false} NoClaims(acts: seq<Act>, id: nat)
    requires forall k :: 0 <= k < |acts| && acts[k].Claim? ==> acts[k].id != id
    ensures Claims(acts, id) == 0
  {
    if acts != [] {
      assert forall k :: 0 <= k < |acts[1..]| ==> acts[1..][k] == acts[k + 1];
      NoClaims(acts[1..], id);
    }
  }

  /** The attempts of a row are the claims of it, whatever else happened to it. */
  lemma {:induction false} AttemptsAreClaims(q: Queue, acts: seq<Act>, id: nat)
    requires Legal(q, acts) && id in Final(q, acts).rows
    ensures Final(q, acts).rows[id].attempts == (if id in q.rows then q.rows[id].attempts else 0) + Claims(acts, id)
    decreases |acts|
  {
    hide Next, Enabled;
    if acts != [] {
      var a, q' := acts[0], Next(q, acts[0]);
      if id in q.rows {
        RowNext(q, a, id);
        if id !in q'.rows {
          UsedId(q, id);
          Grows(q, a);
          NeverBack(q', acts[1..], id);
        }
      } else {
        NewRow(q, a, id);
        ClaimFindsRow(q, a);
      }
      AttemptsAreClaims(q', acts[1..], id);
    }
  }

  lemma Grows(q: Queue, a: Act)
    requires Valid(q) && Enabled(q, a)
    ensures q.next <= Next(q, a).next
  {
  }

  lemma ClaimFindsRow(q: Queue, a: Act)
    requires Enabled(q, a)
    ensures a.Claim? ==> a.id in q.rows
  {
  }

  /** A settled row: nothing but its own kind of call touches it. */
  lemma {:induction false} SettledStays(q: Queue, acts: seq<Act>, id: nat)
    requires Legal(q, acts) && id in q.rows && q.rows[id].status in {Done, Dead}
    requires forall k :: 0 <= k < |acts| ==> !(Names(acts[k], id) && CanMove(q.rows[id].status, acts[k]))
    ensures id in Final(q, acts).rows && Final(q, acts).rows[id].status == q.rows[id].status
    ensures Final(q, acts).rows[id].attempts == q.rows[id].attempts
    ensures forall k :: 0 <= k < |acts| && Names(acts[k], id) ==>
      if q.rows[id].status == Done then acts[k].Complete? else acts[k].Park?
    decreases |acts|
  {
    hide Next, Enabled;
    if acts != [] {
      var a, q' := acts[0], Next(q, acts[0]);
      assert Names(acts[0], id) ==> !CanMove(q.rows[id].status, acts[0]);
      RowNext(q, a, id);
      assert forall k :: 0 <= k < |acts[1..]| ==> acts[1..][k] == acts[k + 1];
      SettledStays(q', acts[1..], id);
      assert forall k :: 1 <= k < |acts| ==> acts[k] == acts[1..][k - 1];
    }
  }

  /** What takes a row out of a settled status: Dead a finished one, Retry or Done a dead
      one. */
  predicate CanMove(s: Status, a: Act) {
    match s
    case Done => a.Park?
    case Dead => a.Retry? || a.Complete?
    case _ => true
  }

  lemma {:induction false} Apart(q: Queue, acts: seq<Act>, j: nat)
    requires Legal(q, acts) && j <= |acts|
    ensures Legal(q, acts[..j]) && Legal(Final(q, acts[..j]), acts[j..])
    ensures Final(q, acts) == Final(Final(q, acts[..j]), acts[j..])
    decreases j
  {
    hide Next, Enabled;
    if j == 0 {
      assert acts[..0] == [] && acts[0..] == acts;
    } else {
      Apart(Next(q, acts[0]), acts[1..], j - 1);
      assert acts[..j][0] == acts[0] && acts[..j][1..] == acts[1..][..j - 1] && acts[j..] == acts[1..][j - 1..];
    }
  }

  /** The queue after call j. */
  lemma After(q: Queue, acts: seq<Act>, j: nat)
    requires Legal(q, acts) && j < |acts|
    ensures Legal(q, acts[..j]) && Valid(Final(q, acts[..j])) && Enabled(Final(q, acts[..j]), acts[j])
    ensures var q' := Next(Final(q, acts[..j]), acts[j]);
      Legal(q', acts[j + 1..]) && Final(q, acts) == Final(q', acts[j + 1..])
  {
    hide Next, Enabled;
    Apart(q, acts, j);
    assert acts[j..][0] == acts[j] && acts[j..][1..] == acts[j + 1..];
  }

  /** A completed delivery is done for good: unless Dead is called for it later, it ends
      done, and in between it is neither claimed, failed, retried nor reset. */
  lemma CompletedIsDone(q: Queue, acts: seq<Act>, j: nat, id: nat)
    requires Legal(q, acts) && j < |acts| && acts[j].Complete? && acts[j].id == id
    requires forall k :: j < k < |acts| ==> !(acts[k].Park? && acts[k].id == id)
    ensures id in Final(q, acts).rows && Final(q, acts).rows[id].status == Done
    ensures forall k :: j < k < |acts| && Names(acts[k], id) ==> acts[k].Complete?
  {
    hide Next, Legal, Final;
    After(q, acts, j);
    var q1 := Final(q, acts[..j]);
    RowNext(q1, acts[j], id);
    NotFolded(q1, acts[j], id);
    var rest := acts[j + 1..];
    assert forall k :: 0 <= k < |rest| ==> rest[k] == acts[j + 1 + k];
    SettledStays(Next(q1, acts[j]), rest, id);
    assert forall k :: j < k < |acts| ==> acts[k] == rest[k - j - 1];
  }

  lemma NotFolded(q: Queue, a: Act, id: nat)
    requires a.Complete? || a.Park?
    ensures !FoldedAway(q, a, id)
  {
  }

  /** A parked delivery stays dead until it is retried, or completed after all. */
  lemma ParkedIsDead(q: Queue, acts: seq<Act>, j: nat, id: nat)
    requires Legal(q, acts) && j < |acts| && acts[j].Park? && acts[j].id == id
    requires forall k :: j < k < |acts| ==> !((acts[k].Retry? || acts[k].Complete?) && acts[k].id == id)
    ensures id in Final(q, acts).rows && Final(q, acts).rows[id].status == Dead
    ensures forall k :: j < k < |acts| && Names(acts[k], id) ==> acts[k].Park?
  {
    hide Next, Legal, Final;
    After(q, acts, j);
    var q1 := Final(q, acts[..j]);
    RowNext(q1, acts[j], id);
    NotFolded(q1, acts[j], id);
    var rest := acts[j + 1..];
    assert forall k :: 0 <= k < |rest| ==> rest[k] == acts[j + 1 + k];
    SettledStays(Next(q1, acts[j]), rest, id);
    assert forall k :: j < k < |acts| ==> acts[k] == rest[k - j - 1];
  }

  /** A row is not claimed before it is due. */
  lemma {:induction false} DueHolds(q: Queue, acts: seq<Act>, k: nat, id: nat)
    requires Legal(q, acts) && id in q.rows && k < |acts| && acts[k].Claim? && acts[k].id == id
    requires forall m :: 0 <= m < k ==> !PutsBack(acts[m], id)
    ensures q.rows[id].due <= acts[k].now
    decreases |acts|
  {
    hide Next;
    RowNext(q, acts[0], id);
    if k > 0 {
      hide Enabled;
      var q' := Next(q, acts[0]);
      assert !PutsBack(acts[0], id);
      assert acts[1..][k - 1] == acts[k];
      if id in q'.rows {
        assert forall m :: 0 <= m < k - 1 ==> acts[1..][m] == acts[m + 1];
        DueHolds(q', acts[1..], k - 1, id);
      } else {
        UsedId(q, id);
        Grows(q, acts[0]);
        NeverBack(q', acts[1..], id);
      }
    }
  }

  /** A failed, retried or reset delivery is next claimed no sooner than it was put back
      for, and it keeps its attempts. */
  lemma NotBeforeDue(q: Queue, acts: seq<Act>, j: nat, k: nat, id: nat)
    requires Legal(q, acts) && j < k < |acts| && PutsBack(acts[j], id) && acts[k].Claim? && acts[k].id == id
    requires forall m :: j < m < k ==> !PutsBack(acts[m], id)
    ensures Due(acts[j]) <= acts[k].now
  {
    hide Next, Legal, Final;
    After(q, acts, j);
    var q1 := Final(q, acts[..j]);
    var q2, rest := Next(q1, acts[j]), acts[j + 1..];
    BackHasRow(q1, acts[j], id);
    RowNext(q1, acts[j], id);
    assert rest[k - j - 1] == acts[k];
    if id in q2.rows {
      assert forall m :: 0 <= m < k - j - 1 ==> rest[m] == acts[j + 1 + m];
      DueHolds(q2, rest, k - j - 1, id);
    } else {
      UsedId(q1, id);
      Grows(q1, acts[j]);
      NeverBack(q2, rest, id);
    }
  }

  lemma BackHasRow(q: Queue, a: Act, id: nat)
    requires Enabled(q, a) && PutsBack(a, id)
    ensures id in q.rows
  {
  }

  /** Nor is a new event claimed before its debounce window is over. */
  lemma NotBeforeWindow(q: Queue, acts: seq<Act>, j: nat, k: nat, id: nat)
    requires Legal(q, acts) && j < k < |acts| && acts[k].Claim? && acts[k].id == id
    requires acts[j].Enqueue? && Legal(q, acts[..j]) && id == Final(q, acts[..j]).next
    requires forall m :: j < m < k ==> !PutsBack(acts[m], id)
    ensures HasPending(Final(q, acts[..j]).rows, acts[j].k) || acts[j].due <= acts[k].now
  {
    hide Next, Legal, Final;
    After(q, acts, j);
    var q1 := Final(q, acts[..j]);
    var q2, rest := Next(q1, acts[j]), acts[j + 1..];
    FreeId(q1);
    NewRow(q1, acts[j], id);
    if !HasPending(q1.rows, acts[j].k) {
      assert rest[k - j - 1] == acts[k];
      assert forall m :: 0 <= m < k - j - 1 ==> rest[m] == acts[j + 1 + m];
      DueHolds(q2, rest, k - j - 1, id);
    }
  }

  lemma FreeId(q: Queue)
    requires Valid(q)
    ensures q.next !in q.rows
  {
  }

  /** A row that no call names stays as it is, as long as it stays. */
  lemma {:induction false} Untouched(q: Queue, acts: seq<Act>, id: nat)
    requires Legal(q, acts) && id in q.rows && id in Final(q, acts).rows
    requires forall m :: 0 <= m < |acts| ==> !Names(acts[m], id)
    ensures Final(q, acts).rows[id] == q.rows[id]
    decreases |acts|
  {
    hide Next, Enabled;
    if acts != [] {
      var q' := Next(q, acts[0]);
      RowNext(q, acts[0], id);
      if id in q'.rows {
        assert forall m :: 0 <= m < |acts[1..]| ==> acts[1..][m] == acts[m + 1];
        Untouched(q', acts[1..], id);
      } else {
        UsedId(q, id);
        Grows(q, acts[0]);
        NeverBack(q', acts[1..], id);
      }
    }
  }

  /** Claims are in order: while a row waits and is due, whatever is claimed for its rule
      was due no later, and at the same time has no greater id. */
  lemma NotOvertaken(q: Queue, acts: seq<Act>, k: nat, id: nat)
    requires Legal(q, acts) && k < |acts| && id in q.rows && q.rows[id].status == Pending
    requires acts[k].Claim? && acts[k].rule == q.rows[id].rule && acts[k].now >= q.rows[id].due
    requires forall m :: 0 <= m < k ==> !Names(acts[m], id)
    requires Legal(q, acts[..k]) && id in Final(q, acts[..k]).rows
    ensures var t, i := Final(q, acts[..k]).rows, acts[k].id;
      i in t && (t[i].due < q.rows[id].due || (t[i].due == q.rows[id].due && i <= id))
  {
    After(q, acts, k);
    var early := acts[..k];
    assert forall m :: 0 <= m < k ==> early[m] == acts[m];
    Untouched(q, early, id);
  }

  // Two running rows of one key.

  function FirstRun(k: Key): Row { Row(k.rule, k.path, "", "", 0, 0, 1, Running, "", "", 0) }

  /** Reset is said to fold into the older row. For every rule and path, an event that comes
      while its row runs and is claimed as well leaves two running rows, and of these a
      reset keeps the younger one: the older goes with its attempts. */
  lemma ResetDropsOlder(k: Key) returns (acts: seq<Act>)
    ensures Legal(Queue(map[], 0), acts) && |acts| == 5 && acts[4].ResetRunning?
    ensures var q := Final(Queue(map[], 0), acts); 0 !in q.rows && 1 in q.rows && q.rows[1].attempts == 1
  {
    hide Next, Enabled;
    var a1, a2 := Enqueue(k, "", "", 0, 0), Claim(k.rule, 0, 0);
    var a4, a5 := Claim(k.rule, 0, 1), ResetRunning([0, 1], 0);
    var q0 := Queue(map[], 0);
    acts := [a1, a2, a1, a4, a5];
    var q2 := TakenUp(q0, k);
    var q4 := TakenUp(q2, k);
    assert q4.rows == map[0 := FirstRun(k), 1 := FirstRun(k)];
    ResetBoth(q4, k);
    ValidNext(q4, a5);
    Unfold(q4, [a5]);
    Unfold(Next(q2, a1), [a4, a5]);
    Unfold(q2, [a1, a4, a5]);
    Unfold(Next(q0, a1), [a2, a1, a4, a5]);
    Unfold(q0, acts);
  }

  lemma Unfold(q: Queue, acts: seq<Act>)
    requires Valid(q) && acts != [] && Enabled(q, acts[0]) && Legal(Next(q, acts[0]), acts[1..])
    ensures Legal(q, acts) && Final(q, acts) == Final(Next(q, acts[0]), acts[1..])
  {
  }

  /** An event queued and claimed at once. */
  lemma TakenUp(q: Queue, k: Key) returns (q': Queue)
    requires Valid(q) && forall i :: i in q.rows ==> q.rows[i].status != Pending
    ensures var a1, a2 := Enqueue(k, "", "", 0, 0), Claim(k.rule, 0, q.next);
      && Enabled(q, a1) && Valid(Next(q, a1)) && Enabled(Next(q, a1), a2) && q' == Next(Next(q, a1), a2) && Valid(q')
    ensures q' == Queue(q.rows[q.next := FirstRun(k)], q.next + 1)
  {
    var a1, a2 := Enqueue(k, "", "", 0, 0), Claim(k.rule, 0, q.next);
    ValidNext(q, a1);
    q' := Next(Next(q, a1), a2);
    ValidNext(Next(q, a1), a2);
    assert q'.rows == q.rows[q.next := FirstRun(k)];
  }

  lemma ResetBoth(q: Queue, k: Key)
    requires Valid(q) && q.rows == map[0 := FirstRun(k), 1 := FirstRun(k)]
    ensures var a := ResetRunning([0, 1], 0);
      Enabled(q, a) && 0 !in Next(q, a).rows && 1 in Next(q, a).rows && Next(q, a).rows[1].attempts == 1
  {
    var a := ResetRunning([0, 1], 0);
    RowNext(q, a, 0);
    RowNext(q, a, 1);
    assert PutBackOver(q, a, 1, 0);
  }
}
