/** The table behind the delivery queue as an object, statement by statement. */
module DeliveryTable {

  import opened Common
  import opened Deliveries

  datatype RetryResult = Reopen | NotFound | NotDead

  /** Row id is the pending row of k. */
  ghost predicate Ends(t: Table, id: nat, k: Key) {
    id in t && t[id].status == Pending && KeyOf(t[id]) == k
  }

  lemma EndedExactly(t: Table, id: nat, row: Row)
    requires Unique(t) && id in t && row.status != Pending
    ensures forall k :: HasPending(t, k) && !HasPending(t[id := row], k) <==> Ends(t, id, k)
  {
    forall k ensures HasPending(t, k) && !HasPending(t[id := row], k) <==> Ends(t, id, k) {
      if HasPending(t, k) { SettledExactly(t, id, row, k); }
    }
  }

  class DeliveryLog {
    var rows: Table
    var next: nat

    constructor ()
      ensures rows == map[] && next == 0
    {
      rows, next := map[], 0;
    }

    ghost function View(): Queue
      reads this
    {
      Queue(rows, next)
    }

    ghost predicate Valid()
      reads this
    {
      Deliveries.Valid(View())
    }

    /** The pending row of a key, if any. */
    method FindPending(k: Key) returns (found: Option<nat>)
      ensures found.None? ==> !HasPending(rows, k)
      ensures found.Some? ==>
        found.value in rows && rows[found.value].status == Pending && KeyOf(rows[found.value]) == k
    {
      var todo := rows.Keys;
      while todo != {}
        invariant todo <= rows.Keys
        invariant forall i :: i in rows && i !in todo ==> !(rows[i].status == Pending && KeyOf(rows[i]) == k)
        decreases todo
      {
        var i :| i in todo;
        if rows[i].status == Pending && KeyOf(rows[i]) == k {
          return Some(i);
        }
        todo := todo - {i};
      }
      return None;
    }

    /** Insert a pending row unless the unique index ignores it. */
    method Insert(k: Key, kind: string, origin: string, now: int, due: int) returns (id: nat, merged: bool)
      requires Valid()
      modifies this
      ensures Valid() && merged == HasPending(old(rows), k)
      ensures id in rows && rows[id].status == Pending && KeyOf(rows[id]) == k
      ensures View() == Next(old(View()), Enqueue(k, kind, origin, now, due))
    {
      var found := FindPending(k);
      if found.Some? {
        return found.value, true;
      }
      id, merged := next, false;
      rows := rows[next := Row(k.rule, k.path, kind, origin, now, due, 0, Pending, "", "", 0)];
      next := next + 1;
    }

    /** The oldest due row of a rule; none means none is due. */
    method FindOldest(rule: string, now: int) returns (best: Option<nat>)
      ensures best.None? ==>
        forall i :: i in rows && rows[i].rule == rule && rows[i].status == Pending ==> rows[i].due > now
      ensures best.Some? ==> Oldest(rows, rule, now, best.value)
    {
      best := None;
      var todo := rows.Keys;
      while todo != {}
        invariant todo <= rows.Keys
        invariant best.None? ==>
          forall i :: i in rows && i !in todo && rows[i].rule == rule && rows[i].status == Pending ==> rows[i].due > now
        invariant best.Some? ==> Oldest(map i | i in rows && i !in todo :: rows[i], rule, now, best.value)
        decreases todo
      {
        var i :| i in todo;
        var r := rows[i];
        if r.rule == rule && r.status == Pending && r.due <= now {
          if best.None? || r.due < rows[best.value].due || (r.due == rows[best.value].due && i < best.value) {
            best := Some(i);
          }
        }
        todo := todo - {i};
      }
      assert (map i | i in rows && i !in todo :: rows[i]) == rows;
    }

    /** Claim: the oldest due row of the rule becomes running. */
    method ClaimOldest(rule: string, now: int) returns (best: Option<nat>)
      requires Valid()
      modifies this`rows
      ensures Valid()
      ensures best.None? ==> rows == old(rows)
      ensures best.None? ==>
        forall i :: i in rows && rows[i].rule == rule && rows[i].status == Pending ==> rows[i].due > now
      ensures best.Some? ==> Oldest(old(rows), rule, now, best.value)
      ensures best.Some? ==> View() == Next(old(View()), Claim(rule, now, best.value))
    {
      best := FindOldest(rule, now);
      if best.Some? {
        var i := best.value;
        ValidNext(View(), Claim(rule, now, i));
        rows := rows[i := rows[i].(status := Running, attempts := rows[i].attempts + 1)];
      }
    }

    /** Done updates by id alone: the row it finds ends, and an event that was still
        waiting in it is lost. */
    method MarkDone(id: nat, output: string, now: int) returns (found: bool)
      requires Valid()
      modifies this`rows
      ensures Valid() && found == Enabled(old(View()), Complete(id, output, now))
      ensures View() == if found then Next(old(View()), Complete(id, output, now)) else old(View())
      ensures forall k :: HasPending(old(rows), k) && !HasPending(rows, k) <==> Ends(old(rows), id, k)
    {
      found := id in rows;
      ghost var before := rows;
      if found {
        rows := rows[id := rows[id].(status := Done, output := output, lastError := "", doneAt := now)];
        ValidNext(Queue(before, next), Complete(id, output, now));
        EndedExactly(before, id, rows[id]);
      }
    }

    /** Dead parks a row in the same way. */
    method MarkDead(id: nat, err: string, output: string, now: int) returns (found: bool)
      requires Valid()
      modifies this`rows
      ensures Valid() && found == Enabled(old(View()), Park(id, err, output, now))
      ensures View() == if found then Next(old(View()), Park(id, err, output, now)) else old(View())
      ensures forall k :: HasPending(old(rows), k) && !HasPending(rows, k) <==> Ends(old(rows), id, k)
    {
      found := id in rows;
      ghost var before := rows;
      if found {
        rows := rows[id := rows[id].(status := Dead, lastError := err, output := output, doneAt := now)];
        ValidNext(Queue(before, next), Park(id, err, output, now));
        EndedExactly(before, id, rows[id]);
      }
    }

    /** Fold the other pending rows of the key away, then put row i back to pending. */
    method Reopening(i: nat, due: int)
      requires i in rows
      modifies this`rows
      ensures rows == Reopened(old(rows), i, due)
    {
      var k := KeyOf(rows[i]);
      var todo := rows.Keys;
      while todo != {}
        invariant todo <= old(rows).Keys
        invariant rows == map j | j in old(rows) &&
          (j in todo || j == i || old(rows)[j].status != Pending || KeyOf(old(rows)[j]) != k) :: old(rows)[j]
        decreases todo
      {
        var j :| j in todo;
        if rows[j].status == Pending && KeyOf(rows[j]) == k && j != i {
          rows := rows - {j};
        }
        todo := todo - {j};
      }
      rows := rows[i := rows[i].(status := Pending, due := due, doneAt := 0)];
    }

    /** Only a running row goes back; otherwise the transaction is undone. */
    method FailRow(id: nat, err: string, output: string, due: int) returns (found: bool)
      requires Valid()
      modifies this`rows
      ensures Valid() && found == Enabled(old(View()), Fail(id, err, output, due))
      ensures View() == if found then Next(old(View()), Fail(id, err, output, due)) else old(View())
    {
      found := id in rows && rows[id].status == Running;
      if found {
        ValidNext(View(), Fail(id, err, output, due));
        Reopening(id, due);
        rows := rows[id := rows[id].(lastError := err, output := output)];
      }
    }

    method RetryRow(id: nat, now: int) returns (r: RetryResult)
      requires Valid()
      modifies this`rows
      ensures Valid() && (r.NotFound? <==> id !in old(rows)) && r.Reopen? == Enabled(old(View()), Retry(id, now))
      ensures View() == if r.Reopen? then Next(old(View()), Retry(id, now)) else old(View())
    {
      if id !in rows {
        return NotFound;
      }
      if rows[id].status != Dead {
        return NotDead;
      }
      ValidNext(View(), Retry(id, now));
      Reopening(id, now);
      return Reopen;
    }

    /** The running rows in id order. */
    method SelectRunning() returns (ids: seq<nat>)
      ensures ListsRunning(rows, ids)
    {
      ids := [];
      var todo := rows.Keys;
      while todo != {}
        invariant todo <= rows.Keys
        invariant forall x :: x in rows && x in todo ==> forall y :: y in rows && y !in todo ==> y < x
        invariant forall a, b :: 0 <= a < b < |ids| ==> ids[a] < ids[b]
        invariant forall x :: x in ids <==> x in rows && x !in todo && rows[x].status == Running
        decreases todo
      {
        var m := Least(todo);
        if rows[m].status == Running {
          forall a | 0 <= a < |ids| ensures ids[a] < m {
            assert ids[a] in ids;
          }
          ids := ids + [m];
        }
        todo := todo - {m};
      }
    }

    static method Least(s: set<nat>) returns (m: nat)
      requires s != {}
      ensures m in s && forall x :: x in s ==> m <= x
    {
      var todo := s;
      m :| m in s;
      while todo != {}
        invariant m in s && todo <= s && forall x :: x in s && x !in todo ==> m <= x
        decreases todo
      {
        var x :| x in todo;
        if x < m {
          m := x;
        }
        todo := todo - {x};
      }
    }

    /** Every running row back to pending, oldest first, duplicates folded. */
    method ResetAll(now: int) returns (ids: seq<nat>)
      requires Valid()
      modifies this`rows
      ensures Valid() && ListsRunning(old(rows), ids)
      ensures View() == Next(old(View()), ResetRunning(ids, now))
    {
      ids := SelectRunning();
      ValidNext(View(), ResetRunning(ids, now));
      var i := 0;
      while i < |ids|
        invariant 0 <= i <= |ids|
        invariant forall x :: x in ids[i..] ==> x in rows && rows[x].status == Running
        invariant AllReopened(rows, ids[i..], now) == AllReopened(old(rows), ids, now)
      {
        ghost var rest := ids[i..];
        assert rest[0] == ids[i] && rest[1..] == ids[i + 1..];
        Reopening(ids[i], now);
        i := i + 1;
      }
    }
  }
}
