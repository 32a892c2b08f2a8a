/** The durable queue of trigger deliveries as a table of rows. */
module Deliveries {

  datatype Status = Pending | Running | Done | Dead

  datatype Row = Row(rule: string, path: string, kind: string, origin: string, firstSeen: int,
                     due: int, attempts: nat, status: Status, lastError: string, output: string, doneAt: int)

  type Table = map<nat, Row>

  /** A rule matched a path. */
  datatype Key = Key(rule: string, path: string)

  function KeyOf(r: Row): Key {
    Key(r.rule, r.path)
  }

  /** The partial unique index: one pending row per (rule, path). */
  ghost predicate Unique(t: Table) {
    forall i, j ::
      i in t && j in t && t[i].status == Pending && t[j].status == Pending && KeyOf(t[i]) == KeyOf(t[j]) ==> i == j
  }

  ghost predicate HasPending(t: Table, k: Key) {
    exists i :: i in t && t[i].status == Pending && KeyOf(t[i]) == k
  }

  /** The oldest due pending row of a rule, ties broken by id. */
  ghost predicate Oldest(t: Table, rule: string, now: int, i: nat) {
    && i in t && t[i].rule == rule && t[i].status == Pending && t[i].due <= now
    && forall j :: j in t && t[j].rule == rule && t[j].status == Pending && t[j].due <= now ==>
         t[i].due < t[j].due || (t[i].due == t[j].due && i <= j)
  }

  function Claimed(t: Table, i: nat): Table
    requires i in t
  {
    t[i := t[i].(status := Running, attempts := t[i].attempts + 1)]
  }

  /** Every other pending row of i's rule and path folds into row i. */
  function Folded(t: Table, i: nat): Table
    requires i in t
  {
    map j | j in t && (j == i || t[j].status != Pending || KeyOf(t[j]) != KeyOf(t[i])) :: t[j]
  }

  function Reopened(t: Table, i: nat, due: int): Table
    requires i in t
  {
    Folded(t, i)[i := t[i].(status := Pending, due := due, doneAt := 0)]
  }

  /** Rows ids[0], ids[1], ... reopened in turn. */
  function AllReopened(t: Table, ids: seq<nat>, due: int): Table
    requires forall x :: x in ids ==> x in t && t[x].status == Running
    requires forall i, j :: 0 <= i < j < |ids| ==> ids[i] != ids[j]
    decreases |ids|
  {
    if ids == [] then t
    else
      assert forall x :: x in ids[1..] ==> exists i :: 1 <= i < |ids| && ids[i] == x;
      AllReopened(Reopened(t, ids[0], due), ids[1..], due)
  }

  datatype Queue = Queue(rows: Table, next: nat)

  datatype Act =
    | Enqueue(k: Key, kind: string, origin: string, now: int, due: int)
    | Claim(rule: string, now: int, id: nat)
    | Complete(id: nat, output: string, now: int)
    | Fail(id: nat, err: string, output: string, due: int)
    | Park(id: nat, err: string, output: string, now: int)
    | Retry(id: nat, now: int)
    | ResetRunning(ids: seq<nat>, now: int)

  /** ids lists the running rows in id order. */
  ghost predicate ListsRunning(t: Table, ids: seq<nat>) {
    && (forall i, j :: 0 <= i < j < |ids| ==> ids[i] < ids[j])
    && (forall x :: x in ids <==> x in t && t[x].status == Running)
  }

  /** The calls that find the row they are about; the others change nothing. Nobody
      keeps a caller from completing or parking a row in any state. */
  ghost predicate Enabled(q: Queue, a: Act) {
    match a
    case Enqueue(_, _, _, _, _) => true
    case Claim(rule, now, id) => Oldest(q.rows, rule, now, id)
    case Complete(id, _, _) => id in q.rows
    case Fail(id, _, _, _) => id in q.rows && q.rows[id].status == Running
    case Park(id, _, _, _) => id in q.rows
    case Retry(id, _) => id in q.rows && q.rows[id].status == Dead
    case ResetRunning(ids, _) => ListsRunning(q.rows, ids)
  }

  ghost predicate Valid(q: Queue) {
    Unique(q.rows) && forall i :: i in q.rows ==> i < q.next
  }

  function Completed(r: Row, output: string, now: int): Row {
    r.(status := Done, output := output, lastError := "", doneAt := now)
  }

  function Parked(r: Row, err: string, output: string, now: int): Row {
    r.(status := Dead, lastError := err, output := output, doneAt := now)
  }

  ghost function Next(q: Queue, a: Act): Queue
    requires Valid(q) && Enabled(q, a)
  {
    match a
    case Enqueue(k, kind, origin, now, due) =>
      if HasPending(q.rows, k) then q
      else Queue(q.rows[q.next := Row(k.rule, k.path, kind, origin, now, due, 0, Pending, "", "", 0)], q.next + 1)
    case Claim(_, _, id) => q.(rows := Claimed(q.rows, id))
    case Complete(id, output, now) => q.(rows := q.rows[id := Completed(q.rows[id], output, now)])
    case Fail(id, err, output, due) =>
      var t := Reopened(q.rows, id, due);
      q.(rows := t[id := t[id].(lastError := err, output := output)])
    case Park(id, err, output, now) => q.(rows := q.rows[id := Parked(q.rows[id], err, output, now)])
    case Retry(id, now) => q.(rows := Reopened(q.rows, id, now))
    case ResetRunning(ids, now) => q.(rows := AllReopened(q.rows, ids, now))
  }

  lemma ReopenedUnique(t: Table, i: nat, due: int)
    requires Unique(t) && i in t
    ensures Unique(Reopened(t, i, due))
  {
  }

  lemma ReopenedPending(t: Table, i: nat, due: int, k: Key)
    requires i in t && (HasPending(t, k) || KeyOf(t[i]) == k)
    ensures HasPending(Reopened(t, i, due), k)
  {
    var u := Reopened(t, i, due);
    if KeyOf(t[i]) == k {
      assert u[i].status == Pending && KeyOf(u[i]) == k;
    } else {
      var j :| j in t && t[j].status == Pending && KeyOf(t[j]) == k;
      assert j in u && u[j] == t[j];
    }
  }

  /** What resetting every running row leaves behind. */
  lemma {:induction false} AllReopenedKeeps(t: Table, ids: seq<nat>, due: int, k: Key)
    requires Unique(t)
    requires forall x :: x in ids ==> x in t && t[x].status == Running
    requires forall i, j :: 0 <= i < j < |ids| ==> ids[i] != ids[j]
    ensures Unique(AllReopened(t, ids, due))
    ensures AllReopened(t, ids, due).Keys <= t.Keys
    ensures (HasPending(t, k) || exists i :: 0 <= i < |ids| && KeyOf(t[ids[i]]) == k) ==>
      HasPending(AllReopened(t, ids, due), k)
    decreases |ids|
  {
    if ids != [] {
      assert forall x :: x in ids[1..] ==> exists i :: 1 <= i < |ids| && ids[i] == x;
      var u := Reopened(t, ids[0], due);
      ReopenedUnique(t, ids[0], due);
      if HasPending(t, k) || KeyOf(t[ids[0]]) == k {
        ReopenedPending(t, ids[0], due, k);
      } else if i :| 0 <= i < |ids| && KeyOf(t[ids[i]]) == k {
        assert ids[1..][i - 1] == ids[i] && u[ids[i]] == t[ids[i]];
      }
      AllReopenedKeeps(u, ids[1..], due, k);
    }
  }

  lemma ValidNext(q: Queue, a: Act)
    requires Valid(q) && Enabled(q, a)
    ensures Valid(Next(q, a))
  {
    match a
    case ResetRunning(ids, now) => AllReopenedKeeps(q.rows, ids, now, Key("", ""));
    case Retry(id, now) => ReopenedUnique(q.rows, id, now);
    case Fail(id, err, output, due) => ReopenedUnique(q.rows, id, due);
    case _ =>
  }

  /** Settling a row takes the pending row of a key away exactly when it was that row. */
  lemma SettledExactly(t: Table, id: nat, row: Row, k: Key)
    requires Unique(t) && HasPending(t, k) && id in t && row.status != Pending
    ensures HasPending(t[id := row], k) <==> !(t[id].status == Pending && KeyOf(t[id]) == k)
  {
    var i :| i in t && t[i].status == Pending && KeyOf(t[i]) == k;
    if i != id { assert t[id := row][i] == t[i]; }
  }

  /** Where one enqueued event is: waiting in a pending row, carried by a claimed
      row, or settled because the row that carried it ended. */
  datatype Stage = Waiting | Taken(id: nat) | Settled

  ghost function Advance(q: Queue, a: Act, k: Key, s: Stage): Stage
    requires Valid(q) && Enabled(q, a)
  {
    match s
    case Waiting => if a.Claim? && KeyOf(q.rows[a.id]) == k then Taken(a.id) else Waiting
    case Taken(id) =>
      if (a.Complete? || a.Park?) && a.id == id then Settled
      else if a.Fail? && a.id == id then Waiting
      else if a.ResetRunning? then Waiting
      else s
    case Settled => Settled
  }

  ghost predicate Carried(q: Queue, k: Key, s: Stage) {
    match s
    case Waiting => HasPending(q.rows, k)
    case Taken(id) => id in q.rows && q.rows[id].status == Running && KeyOf(q.rows[id]) == k
    case Settled => true
  }

  /** The call ends the pending row in which the event still waits. */
  ghost predicate Loses(q: Queue, a: Act, k: Key, s: Stage)
    requires Enabled(q, a)
  {
    s.Waiting? && (a.Complete? || a.Park?) && q.rows[a.id].status == Pending && KeyOf(q.rows[a.id]) == k
  }

  lemma WaitingNext(q: Queue, a: Act, k: Key)
    requires Valid(q) && Enabled(q, a) && HasPending(q.rows, k)
    ensures Carried(Next(q, a), k, Advance(q, a, k, Waiting)) <==> !Loses(q, a, k, Waiting)
  {
    var i :| i in q.rows && q.rows[i].status == Pending && KeyOf(q.rows[i]) == k;
    var q' := Next(q, a);
    match a
    case ResetRunning(ids, now) => AllReopenedKeeps(q.rows, ids, now, k);
    case Retry(id, now) => ReopenedPending(q.rows, id, now, k);
    case Fail(id, err, output, due) =>
      ReopenedPending(q.rows, id, due, k);
      var t := Reopened(q.rows, id, due);
      var j :| j in t && t[j].status == Pending && KeyOf(t[j]) == k;
      assert j in q'.rows && q'.rows[j].status == Pending && KeyOf(q'.rows[j]) == k;
    case Claim(_, _, id) =>
      if KeyOf(q.rows[id]) != k { assert i in q'.rows && q'.rows[i] == q.rows[i]; }
    case Complete(id, output, now) => SettledExactly(q.rows, id, Completed(q.rows[id], output, now), k);
    case Park(id, err, output, now) => SettledExactly(q.rows, id, Parked(q.rows[id], err, output, now), k);
    case Enqueue(_, _, _, _, _) => assert i in q'.rows && q'.rows[i] == q.rows[i];
  }

  lemma TakenNext(q: Queue, a: Act, k: Key, id: nat)
    requires Valid(q) && Enabled(q, a) && Carried(q, k, Taken(id))
    ensures Carried(Next(q, a), k, Advance(q, a, k, Taken(id)))
  {
    match a
    case ResetRunning(ids, now) =>
      assert id in ids;
      var i :| 0 <= i < |ids| && ids[i] == id;
      assert KeyOf(q.rows[ids[i]]) == k;
      AllReopenedKeeps(q.rows, ids, now, k);
    case Fail(j, err, output, due) =>
      if j == id {
        assert id in Next(q, a).rows && Next(q, a).rows[id].status == Pending;
      }
    case _ =>
  }

  /** One call: the event stays where it should be exactly when the call does not end
      the pending row it waits in. */
  lemma CarriedNext(q: Queue, a: Act, k: Key, s: Stage)
    requires Valid(q) && Enabled(q, a) && Carried(q, k, s)
    ensures Carried(Next(q, a), k, Advance(q, a, k, s)) <==> !Loses(q, a, k, s)
  {
    match s
    case Waiting => WaitingNext(q, a, k);
    case Taken(id) => TakenNext(q, a, k, id);
    case Settled =>
  }

  ghost predicate Legal(q: Queue, acts: seq<Act>)
    decreases |acts|
  {
    Valid(q) && (acts == [] || (Enabled(q, acts[0]) && Legal(Next(q, acts[0]), acts[1..])))
  }

  /** The event is where it should be after every call. */
  ghost predicate AlwaysCarried(q: Queue, acts: seq<Act>, k: Key, s: Stage)
    requires Legal(q, acts)
    decreases |acts|
  {
    Carried(q, k, s) && (acts == [] || AlwaysCarried(Next(q, acts[0]), acts[1..], k, Advance(q, acts[0], k, s)))
  }

  ghost predicate SomeCallLoses(q: Queue, acts: seq<Act>, k: Key, s: Stage)
    requires Legal(q, acts)
    decreases |acts|
  {
    acts != [] && (Loses(q, acts[0], k, s) || SomeCallLoses(Next(q, acts[0]), acts[1..], k, Advance(q, acts[0], k, s)))
  }

  /** Over every sequence of calls, by whoever and in whatever state: an event has its
      pending row until it is claimed, and a running row from then until that row is
      done or dead or waits again, exactly when no call ended the row it waited in. */
  lemma {:induction false} NothingIsLost(q: Queue, acts: seq<Act>, k: Key, s: Stage)
    requires Legal(q, acts) && Carried(q, k, s)
    ensures AlwaysCarried(q, acts, k, s) <==> !SomeCallLoses(q, acts, k, s)
    decreases |acts|
  {
    hide Carried, Advance, Next, Enabled, Loses;
    if acts != [] {
      CarriedNext(q, acts[0], k, s);
      if !Loses(q, acts[0], k, s) {
        NothingIsLost(Next(q, acts[0]), acts[1..], k, Advance(q, acts[0], k, s));
      }
    }
  }

  /** Enqueue puts the event in a pending row, new or already waiting. */
  lemma EnqueueWaits(q: Queue, k: Key, kind: string, origin: string, now: int, due: int)
    requires Valid(q)
    ensures Carried(Next(q, Enqueue(k, kind, origin, now, due)), k, Waiting)
    ensures Valid(Next(q, Enqueue(k, kind, origin, now, due)))
  {
    var q' := Next(q, Enqueue(k, kind, origin, now, due));
    ValidNext(q, Enqueue(k, kind, origin, now, due));
    if !HasPending(q.rows, k) {
      assert q.next in q'.rows && KeyOf(q'.rows[q.next]) == k;
    }
  }
}
