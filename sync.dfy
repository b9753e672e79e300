/**
 * The server and the flat-list client together: a list that mirrors the
 * store keeps mirroring it as the events the routes emit are applied by the
 * provider's listeners, in order. A list fetched from the store at some
 * point of the log catches up with the store by applying the rest of the log.
 */
module Sync {
  import opened TaskSchema
  import opened TaskSeqs
  import opened TaskContext
  import opened TaskRoutes

  /** The client's list holds each stored document once, and nothing else. */
  ghost predicate Mirrors(ts: seq<Task>, st: map<TaskId, Task>)
  {
    && UniqueIds(ts)
    && (forall x :: x in ts ==> x.id in st && st[x.id] == x)
    && (forall id :: id in st ==> st[id] in ts)
  }

  /** The provider's listeners applied to the events in the order they were emitted. */
  function Deliver(ts: seq<Task>, es: seq<Event>): seq<Task>
  {
    if es == [] then ts else ApplyEvent(Deliver(ts, es[..|es| - 1]), es[|es| - 1])
  }

  /** Two entries of a list without repeated ids have different ids. */
  lemma UniqueDistinct(ts: seq<Task>, i: nat, j: nat)
    requires UniqueIds(ts) && i < j < |ts|
    ensures ts[i].id != ts[j].id
  {
    if ts[i].id == ts[j].id {
      var id := ts[i].id;
      assert ts == ts[..j] + ts[j..];
      CountIdConcat(ts[..j], ts[j..], id);
      assert ts[..j][i].id == id;
      CountIdPositive(ts[..j], id);
    }
  }

  /** One `taskUpdate` applied to a mirroring list keeps it mirroring the updated store. */
  lemma UpsertMirrors(ts: seq<Task>, st: map<TaskId, Task>, t: Task)
    requires KeyedById(st) && Mirrors(ts, st)
    ensures Mirrors(Upsert(ts, t), st[t.id := t])
  {
    var r := Upsert(ts, t);
    var st' := st[t.id := t];
    var i := FindIndex(ts, t.id);
    UpsertKeepsUnique(ts, t);
    forall x | x in r ensures x.id in st' && st'[x.id] == x {
      var j :| 0 <= j < |r| && r[j] == x;
      if i == -1 {
        if j > 0 {
          assert x == ts[j - 1];
        }
      } else if j != i {
        assert x == ts[j];
        if j < i { UniqueDistinct(ts, j, i); } else { UniqueDistinct(ts, i, j); }
      }
    }
    forall id | id in st' ensures st'[id] in r {
      if id == t.id {
        assert r[if i == -1 then 0 else i] == t;
      } else {
        var x := st[id];
        var j :| 0 <= j < |ts| && ts[j] == x;
        if i == -1 {
          assert r[j + 1] == x;
        } else {
          assert j != i;
          assert r[j] == x;
        }
      }
    }
  }

  /** One `taskDelete` applied to a mirroring list keeps it mirroring the reduced store. */
  lemma RemoveMirrors(ts: seq<Task>, st: map<TaskId, Task>, id: TaskId)
    requires KeyedById(st) && Mirrors(ts, st)
    ensures Mirrors(RemoveId(ts, id), st - {id})
  {
    var r := RemoveId(ts, id);
    forall k ensures CountId(r, k) <= 1 {
      RemoveIdCounts(ts, id, k);
    }
    forall x | x in r ensures x.id in st - {id} && (st - {id})[x.id] == x {
      RemoveIdMembers(ts, id, x);
    }
    forall k | k in st - {id} ensures (st - {id})[k] in r {
      RemoveIdMembers(ts, id, st[k]);
    }
  }

  /** Any emitted event keeps a mirroring list mirroring the store the event describes. */
  lemma ApplyEventMirrors(ts: seq<Task>, st: map<TaskId, Task>, e: Event)
    requires KeyedById(st) && Mirrors(ts, st)
    ensures Mirrors(ApplyEvent(ts, e), EventEffect(st, e))
  {
    match e
    case TaskUpdate(t) => UpsertMirrors(ts, st, t);
    case TaskDelete(id) => RemoveMirrors(ts, st, id);
  }

  /** Applying a whole log in order keeps a mirroring list mirroring the store the log leads to. */
  lemma {:induction false} DeliverMirrors(ts: seq<Task>, st: map<TaskId, Task>, es: seq<Event>)
    requires KeyedById(st) && Mirrors(ts, st)
    ensures Mirrors(Deliver(ts, es), Replay(st, es))
  {
    if es != [] {
      var n := |es| - 1;
      DeliverMirrors(ts, st, es[..n]);
      ReplayKeyedById(st, es[..n]);
      ApplyEventMirrors(Deliver(ts, es[..n]), Replay(st, es[..n]), es[n]);
    }
  }

  /**
   * A client that fetched the list while the log stood at `k` events and
   * then receives the events emitted after that ends up mirroring the store.
   */
  lemma CatchUpAfterFetch(api: TaskApi, k: nat, fetched: seq<Task>)
    requires api.Valid() && k <= |api.events|
    requires Mirrors(fetched, Replay(map[], api.events[..k]))
    ensures Mirrors(Deliver(fetched, api.events[k..]), api.store)
  {
    var es := api.events;
    assert es == es[..k] + es[k..];
    ReplayConcat(map[], es[..k], es[k..]);
    ReplayKeyedById(map[], es[..k]);
    DeliverMirrors(fetched, Replay(map[], es[..k]), es[k..]);
  }

  /** A client connected since the collection was empty, starting from an empty list, mirrors the store. */
  lemma ConnectedFromStart(api: TaskApi)
    requires api.Valid()
    ensures Mirrors(Deliver([], api.events), api.store)
  {
    assert api.events[0..] == api.events;
    CatchUpAfterFetch(api, 0, []);
  }
}
