/**
 * Sequences of tasks as both clients hold them, and the id filter
 * `tasks.filter((task) => task._id !== id)` that both reconcilers use
 * (TaskContext.js on `taskDelete`, Dashboard.js on `taskUpdate`).
 */
module TaskSeqs {
  import opened TaskSchema

  predicate HasId(ts: seq<Task>, id: TaskId)
  {
    exists i :: 0 <= i < |ts| && ts[i].id == id
  }

  /** How many entries carry the given id. */
  function CountId(ts: seq<Task>, id: TaskId): nat
  {
    if ts == [] then 0 else (if ts[0].id == id then 1 else 0) + CountId(ts[1..], id)
  }

  /** No id occurs twice. */
  ghost predicate UniqueIds(ts: seq<Task>)
  {
    forall id :: CountId(ts, id) <= 1
  }

  lemma {:induction false} CountIdPositive(ts: seq<Task>, id: TaskId)
    ensures CountId(ts, id) > 0 <==> HasId(ts, id)
  {
    if ts != [] {
      CountIdPositive(ts[1..], id);
      if HasId(ts[1..], id) {
        var i :| 0 <= i < |ts[1..]| && ts[1..][i].id == id;
        assert ts[i + 1].id == id;
      }
      if HasId(ts, id) && ts[0].id != id {
        var i :| 0 <= i < |ts| && ts[i].id == id;
        assert ts[1..][i - 1].id == id;
      }
    }
  }

  lemma {:induction false} CountIdConcat(a: seq<Task>, b: seq<Task>, id: TaskId)
    ensures CountId(a + b, id) == CountId(a, id) + CountId(b, id)
  {
    if a == [] {
      assert a + b == b;
    } else {
      assert (a + b)[1..] == a[1..] + b;
      CountIdConcat(a[1..], b, id);
    }
  }

  /** Overwriting one entry moves one unit of count from the old id to the new one. */
  lemma {:induction false} CountIdUpdate(ts: seq<Task>, i: nat, t: Task, id: TaskId)
    requires i < |ts|
    ensures CountId(ts[i := t], id) + (if ts[i].id == id then 1 else 0)
         == CountId(ts, id) + (if t.id == id then 1 else 0)
  {
    if i > 0 {
      assert ts[i := t][1..] == ts[1..][i - 1 := t];
      CountIdUpdate(ts[1..], i - 1, t, id);
    } else {
      assert ts[i := t][1..] == ts[1..];
    }
  }

  /** The filter of the `taskDelete` listener and of each partition on `taskUpdate`. */
  function RemoveId(ts: seq<Task>, id: TaskId): (r: seq<Task>)
    ensures |r| <= |ts|
  {
    if ts == [] then []
    else if ts[0].id == id then RemoveId(ts[1..], id)
    else [ts[0]] + RemoveId(ts[1..], id)
  }

  /**
   * The filter removes every entry with the id and keeps the count of every
   * other id: exactly the entries with that id are gone.
   */
  lemma {:induction false} RemoveIdCounts(ts: seq<Task>, id: TaskId, other: TaskId)
    ensures CountId(RemoveId(ts, id), id) == 0
    ensures other != id ==> CountId(RemoveId(ts, id), other) == CountId(ts, other)
  {
    if ts != [] {
      RemoveIdCounts(ts[1..], id, other);
      if ts[0].id != id {
        CountIdConcat([ts[0]], RemoveId(ts[1..], id), id);
        CountIdConcat([ts[0]], RemoveId(ts[1..], id), other);
      }
    }
  }

  /** An entry survives the filter exactly when it was there and has another id. */
  lemma {:induction false} RemoveIdMembers(ts: seq<Task>, id: TaskId, x: Task)
    ensures x in RemoveId(ts, id) <==> x in ts && x.id != id
  {
    if ts != [] {
      RemoveIdMembers(ts[1..], id, x);
      assert ts == [ts[0]] + ts[1..];
    }
  }

  /** The filter works piecewise, so the surviving entries keep their relative order. */
  lemma {:induction false} RemoveIdConcat(a: seq<Task>, b: seq<Task>, id: TaskId)
    ensures RemoveId(a + b, id) == RemoveId(a, id) + RemoveId(b, id)
  {
    if a == [] {
      assert a + b == b;
    } else {
      assert (a + b)[0] == a[0];
      assert (a + b)[1..] == a[1..] + b;
      RemoveIdConcat(a[1..], b, id);
    }
  }

  /** Filtering out an id nobody has leaves the sequence as it was. */
  lemma {:induction false} RemoveAbsentId(ts: seq<Task>, id: TaskId)
    requires !HasId(ts, id)
    ensures RemoveId(ts, id) == ts
  {
    if ts != [] {
      assert ts[0].id != id;
      assert !HasId(ts[1..], id) by {
        forall i | 0 <= i < |ts[1..]| ensures ts[1..][i].id != id {
          assert ts[1..][i] == ts[i + 1];
        }
      }
      RemoveAbsentId(ts[1..], id);
      assert ts == [ts[0]] + ts[1..];
    }
  }

  /** Filtering twice is filtering once. */
  lemma RemoveIdIdempotent(ts: seq<Task>, id: TaskId)
    ensures RemoveId(RemoveId(ts, id), id) == RemoveId(ts, id)
  {
    RemoveIdCounts(ts, id, id);
    CountIdPositive(RemoveId(ts, id), id);
    RemoveAbsentId(RemoveId(ts, id), id);
  }
}
