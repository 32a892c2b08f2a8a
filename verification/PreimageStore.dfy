/** The preimage store as an object: each method is one critical section of the
    code and is proved to make exactly the step the Preimages module names. */
module PreimageStore {

  import opened Common
  import opened Preimages

  class Store {
    var disk: set<Hash>
    var rows: map<nat, Row>
    var inflight: map<Hash, nat>
    var calls: map<nat, Call>
    var sweep: Option<Sweep>

    constructor ()
      ensures View() == Empty
    {
      disk, rows, inflight, calls, sweep := {}, map[], map[], map[], None;
    }

    function View(): State
      reads this
    {
      State(disk, rows, inflight, calls, sweep)
    }

    /** The locked part of keep: reuse the blob, link the cache's file, or leave
        the copy for after the lock; the in-flight mark is taken either way. */
    method Keep(t: nat, h: Hash, hydrated: bool) returns (copy: bool)
      requires t !in calls
      modifies this
      ensures copy <==> h !in old(disk) && !hydrated
      ensures View() == Next(old(View()), if copy then KeepByCopy(t, h) else KeepInPlace(t, h))
    {
      copy := false;
      if h !in disk {
        if hydrated {
          disk := disk + {h};
        } else {
          copy := true;
        }
      }
      assert !copy ==> disk == old(disk) + {h};
      inflight := inflight[h := (if h in inflight then inflight[h] else 0) + 1];
      calls := calls[t := Call(h, if copy then Copying else Holding)];
    }

    method LetGoOf(t: nat)
      requires t in calls
      modifies this
      ensures View() == LetGo(old(View()), t)
    {
      var h := calls[t].hash;
      if Held(inflight, h) <= 1 {
        inflight := inflight - {h};
      } else {
        inflight := inflight[h := inflight[h] - 1];
      }
      calls := calls - {t};
    }

    /** The end of the copy: renamed into place, or given up and released. */
    method FinishCopy(t: nat, ok: bool)
      requires t in calls && calls[t].phase == Copying
      modifies this
      ensures View() == Next(old(View()), if ok then CopyDone(t) else CopyFailed(t))
    {
      if ok {
        disk := disk + {calls[t].hash};
        calls := calls[t := calls[t].(phase := Holding)];
      } else {
        LetGoOf(t);
      }
    }

    /** Insert the row that names the blob; the hold outlives the insert. */
    method Record(t: nat, seqNo: nat, session: nat, ok: bool)
      requires t in calls && calls[t].phase == Holding && seqNo !in rows
      modifies this
      ensures View() == Next(old(View()), if ok then RecordRow(t, seqNo, session) else RecordFailed(t))
    {
      if ok {
        rows := rows[seqNo := Row(session, Some(calls[t].hash))];
        if sweep.Some? {
          sweep := Some(sweep.value.(since := sweep.value.since + {seqNo}));
        }
      }
      calls := calls[t := calls[t].(phase := Releasing)];
    }

    /** Rows of the sessions past retention go, one session at a time. */
    method DropSessions(ids: seq<nat>)
      modifies this
      ensures View() == old(View()).(rows := map r | r in old(rows) && old(rows)[r].session !in ids :: old(rows)[r])
    {
      var i := 0;
      while i < |ids|
        invariant 0 <= i <= |ids|
        invariant View() == old(View()).(rows := rows)
        invariant rows == map r | r in old(rows) && old(rows)[r].session !in ids[..i] :: old(rows)[r]
      {
        var id := ids[i];
        rows := map r | r in rows && rows[r].session != id :: rows[r];
        assert forall x :: x in ids[..i + 1] <==> x in ids[..i] || x == id;
        i := i + 1;
      }
      assert ids[..i] == ids;
    }

    /** List the directory and read the blobs the rows name. */
    method Query()
      requires sweep.None?
      modifies this
      ensures View() == Next(old(View()), SweepQuery)
    {
      var referenced: set<Hash> := {};
      var todo := rows.Keys;
      while todo != {}
        invariant View() == old(View())
        invariant todo <= rows.Keys
        invariant referenced == set r | r in rows && r !in todo && rows[r].blob.Some? :: rows[r].blob.value
        decreases todo
      {
        var r :| r in todo;
        if rows[r].blob.Some? {
          referenced := referenced + {rows[r].blob.value};
        }
        todo := todo - {r};
      }
      assert referenced == Named(rows);
      sweep := Some(Sweep(disk, referenced, {}));
    }

    /** Unlink every listed blob that was unnamed and is not in flight. */
    method Unlink()
      requires sweep.Some?
      modifies this`disk, this`sweep
      ensures View() == Next(old(View()), SweepRemove)
    {
      var sw := sweep.value;
      ghost var victims := Victims(View());
      var todo := sw.entries;
      while todo != {}
        modifies this`disk
        invariant todo <= sw.entries
        invariant disk == old(disk) - (victims - todo)
        decreases todo
      {
        var h :| h in todo;
        if h !in sw.referenced && Held(inflight, h) == 0 {
          disk := disk - {h};
        }
        todo := todo - {h};
      }
      assert victims - todo == victims;
      sweep := None;
    }
  }
}
