/**
 * The flat task list of the React task provider (frontend/src/context/TaskContext.js):
 * the `taskUpdate` upsert, the `taskDelete` filter and the wholesale
 * replacement by a fetch. The updaters are pure functions of the previous
 * list; the provider's state cell is the `tasks` field of `TaskProvider`.
 */
module TaskContext {
  import opened TaskSchema
  import opened TaskSeqs

  /** `Array.prototype.findIndex` on the id: the first position with that id, or -1. */
  function FindIndex(ts: seq<Task>, id: TaskId): (r: int)
    ensures -1 <= r < |ts|
    ensures r == -1 <==> !HasId(ts, id)
    ensures r != -1 ==> ts[r].id == id && forall j :: 0 <= j < r ==> ts[j].id != id
  {
    if ts == [] then -1
    else if ts[0].id == id then 0
    else
      var k := FindIndex(ts[1..], id);
      if k == -1 then
        assert forall j :: 1 <= j < |ts| ==> ts[j] == ts[1..][j - 1];
        -1
      else
        k + 1
  }

  /**
   * The `taskUpdate` updater: a known id has its first entry replaced in a
   * copy of the list, an unknown id is put in front.
   */
  function Upsert(ts: seq<Task>, t: Task): (r: seq<Task>)
    ensures HasId(r, t.id)
    ensures |r| == if HasId(ts, t.id) then |ts| else |ts| + 1
  {
    var index := FindIndex(ts, t.id);
    if index != -1 then
      assert ts[index := t][index] == t;
      ts[index := t]
    else
      assert ([t] + ts)[0] == t;
      [t] + ts
  }

  /** A snapshot with a new id is prepended to the old list. */
  lemma UpsertAbsent(ts: seq<Task>, t: Task)
    requires !HasId(ts, t.id)
    ensures Upsert(ts, t) == [t] + ts
  {
  }

  /**
   * A snapshot with a known id replaces the first entry with that id; the
   * length and every other entry stay as they were.
   */
  lemma UpsertPresent(ts: seq<Task>, t: Task)
    requires HasId(ts, t.id)
    ensures var i := FindIndex(ts, t.id);
            && 0 <= i < |ts| && ts[i].id == t.id
            && (forall j :: 0 <= j < i ==> ts[j].id != t.id)
            && |Upsert(ts, t)| == |ts|
            && Upsert(ts, t)[i] == t
            && forall j :: 0 <= j < |ts| && j != i ==> Upsert(ts, t)[j] == ts[j]
  {
  }

  /**
   * Afterwards the first entry with the id is the snapshot itself, not a
   * merge of old and new fields.
   */
  lemma UpsertFindsSnapshot(ts: seq<Task>, t: Task)
    ensures HasId(Upsert(ts, t), t.id)
    ensures FindIndex(Upsert(ts, t), t.id) == if HasId(ts, t.id) then FindIndex(ts, t.id) else 0
    ensures Upsert(ts, t)[FindIndex(Upsert(ts, t), t.id)] == t
  {
    var r := Upsert(ts, t);
    var i := FindIndex(ts, t.id);
    if i == -1 {
      assert r[0] == t;
    } else {
      assert r[i] == t;
    }
  }

  /** Delivering the same `taskUpdate` twice leaves the list as one delivery does. */
  lemma UpsertIdempotent(ts: seq<Task>, t: Task)
    ensures Upsert(Upsert(ts, t), t) == Upsert(ts, t)
  {
    var r := Upsert(ts, t);
    UpsertFindsSnapshot(ts, t);
    assert r[FindIndex(r, t.id) := t] == r;
  }

  /** If no id occurs twice before a `taskUpdate`, none does after it. */
  lemma UpsertKeepsUnique(ts: seq<Task>, t: Task)
    requires UniqueIds(ts)
    ensures UniqueIds(Upsert(ts, t))
  {
    var i := FindIndex(ts, t.id);
    forall id ensures CountId(Upsert(ts, t), id) <= 1 {
      if i == -1 {
        CountIdConcat([t], ts, id);
        if id == t.id {
          CountIdPositive(ts, id);
        }
      } else {
        CountIdUpdate(ts, i, t, id);
      }
    }
  }

  /** The two socket listeners, by event kind. */
  function ApplyEvent(ts: seq<Task>, e: Event): (r: seq<Task>)
    ensures e.TaskUpdate? ==> HasId(r, e.task.id)
    ensures e.TaskDelete? ==> !HasId(r, e.id)
  {
    match e
    case TaskUpdate(t) => Upsert(ts, t)
    case TaskDelete(id) =>
      RemoveIdCounts(ts, id, id);
      CountIdPositive(RemoveId(ts, id), id);
      RemoveId(ts, id)
  }

  /** The provider's `tasks` state cell and the handlers that replace it. */
  class TaskProvider {
    var tasks: seq<Task>

    /** `useState([])`. */
    constructor ()
      ensures tasks == []
    {
      tasks := [];
    }

    /** The `taskUpdate` listener. */
    method OnTaskUpdate(updated: Task)
      modifies this
      ensures tasks == Upsert(old(tasks), updated)
    {
      tasks := Upsert(tasks, updated);
    }

    /** The `taskDelete` listener. */
    method OnTaskDelete(id: TaskId)
      modifies this
      ensures tasks == RemoveId(old(tasks), id)
      ensures !HasId(tasks, id)
      ensures !HasId(old(tasks), id) ==> tasks == old(tasks)
    {
      tasks := RemoveId(tasks, id);
      RemoveIdCounts(old(tasks), id, id);
      CountIdPositive(tasks, id);
      if !HasId(old(tasks), id) {
        RemoveAbsentId(old(tasks), id);
      }
    }

    /** A successful `fetchTasks`: the response replaces whatever was there. */
    method OnFetch(data: seq<Task>)
      modifies this
      ensures tasks == data
    {
      tasks := data;
    }
  }
}
