/**
 * The POST, PUT and DELETE handlers of backend/routes/tasks.js over an
 * abstract document store (a map from id to Task) and an append-only log
 * of the events handed to `io.emit`.
 *
 * Each handler's `storeThrows` parameter says whether the store call it
 * makes throws; the handler's `catch` then answers 500. The store's id
 * generator is the counter `nextId`, the clock is the parameter `now`, and
 * the authenticated user (`req.user.id`) is the parameter `user`.
 */
module TaskRoutes {
  import opened TaskSchema

  /** The keys `taskFields` may receive. */
  datatype Field = Title | Description | StatusField | AssignedTo

  const AllFields: set<Field> := {Title, Description, StatusField, AssignedTo}

  /** The body field the update handler reads for each key. */
  function BodyValue(body: Body, f: Field): Option<string>
  {
    match f
    case Title => body.title
    case Description => body.description
    case StatusField => body.status
    case AssignedTo => body.assignedTo
  }

  /** JavaScript truthiness of a string-valued field: present and not empty. */
  predicate Truthy(v: Option<string>)
  {
    v.Some? && v.value != []
  }

  /** The `taskFields` object: exactly the truthy body fields, with their values. */
  function PatchOf(body: Body): (p: map<Field, string>)
    ensures forall f :: f in p <==> Truthy(BodyValue(body, f))
    ensures forall f :: f in p ==> BodyValue(body, f) == Some(p[f])
  {
    map f | f in AllFields && Truthy(BodyValue(body, f)) :: BodyValue(body, f).value
  }

  /** The four conditional assignments that build `taskFields`. */
  method BuildPatch(body: Body) returns (fields: map<Field, string>)
    ensures fields == PatchOf(body)
  {
    fields := map[];
    if Truthy(body.title) {
      fields := fields[Title := body.title.value];
    }
    if Truthy(body.description) {
      fields := fields[Description := body.description.value];
    }
    if Truthy(body.status) {
      fields := fields[StatusField := body.status.value];
    }
    if Truthy(body.assignedTo) {
      fields := fields[AssignedTo := body.assignedTo.value];
    }
  }

  /** A stored document's value for a patchable key. */
  function FieldValue(t: Task, f: Field): Option<string>
  {
    match f
    case Title => Some(t.title)
    case Description => t.description
    case StatusField => Some(t.status)
    case AssignedTo => t.assignedTo
  }

  /** What the schema stores for a value written to a key: titles and descriptions are trimmed. */
  function Stored(f: Field, v: string): (r: string)
    ensures f == Title || f == Description ==> Trim(r) == r
    ensures f == StatusField || f == AssignedTo ==> r == v
  {
    if f == Title || f == Description then
      TrimIdempotent(v);
      Trim(v)
    else v
  }

  /**
   * `findByIdAndUpdate(id, { $set: taskFields }, { new: true })`: the keys of
   * the patch are written through the schema's setters, every other field
   * keeps its value, and the `timestamps` option refreshes `updatedAt`. No
   * validator runs, so neither the status enum nor the required title is checked.
   */
  function ApplyPatch(t: Task, fields: map<Field, string>, now: nat): (r: Task)
    ensures r.id == t.id && r.createdBy == t.createdBy && r.createdAt == t.createdAt
    ensures r.updatedAt == now
  {
    Task(t.id,
         if Title in fields then Trim(fields[Title]) else t.title,
         if Description in fields then Some(Trim(fields[Description])) else t.description,
         if StatusField in fields then fields[StatusField] else t.status,
         if AssignedTo in fields then Some(fields[AssignedTo]) else t.assignedTo,
         t.createdBy, t.createdAt, now)
  }

  /** A key of the patch is written (through the setters); any other key keeps its value. */
  lemma ApplyPatchField(t: Task, fields: map<Field, string>, now: nat, f: Field)
    ensures FieldValue(ApplyPatch(t, fields, now), f)
            == if f in fields then Some(Stored(f, fields[f])) else FieldValue(t, f)
  {
    match f
    case Title =>
      if Title in fields { assert Stored(Title, fields[Title]) == Trim(fields[Title]); }
    case Description =>
      if Description in fields { assert Stored(Description, fields[Description]) == Trim(fields[Description]); }
    case StatusField =>
    case AssignedTo =>
  }

  /**
   * An update writes only the truthy fields of the body; a falsy or absent
   * field, an empty string included, never changes or clears the stored value.
   */
  lemma UpdateWritesOnlyTruthy(t: Task, body: Body, now: nat, f: Field)
    ensures !Truthy(BodyValue(body, f)) ==> FieldValue(ApplyPatch(t, PatchOf(body), now), f) == FieldValue(t, f)
    ensures Truthy(BodyValue(body, f)) ==>
              FieldValue(ApplyPatch(t, PatchOf(body), now), f) == Some(Stored(f, BodyValue(body, f).value))
    ensures FieldValue(t, f).Some? ==> FieldValue(ApplyPatch(t, PatchOf(body), now), f).Some?
  {
    ApplyPatchField(t, PatchOf(body), now, f);
  }

  /**
   * An update keeps a document valid when the body's status, if truthy, is
   * one of the three names and its title, if truthy, is not all white space.
   */
  lemma ApplyPatchKeepsValid(t: Task, body: Body, now: nat)
    requires ValidTask(t)
    requires Truthy(body.status) ==> ValidStatus(body.status.value)
    requires Truthy(body.title) ==> !Blank(body.title.value)
    ensures ValidTask(ApplyPatch(t, PatchOf(body), now))
  {
    var p := PatchOf(body);
    var r := ApplyPatch(t, p, now);
    ApplyPatchField(t, p, now, Title);
    ApplyPatchField(t, p, now, Description);
    if Title in p {
      TrimEmptyIffBlank(p[Title]);
      TrimIdempotent(p[Title]);
    }
    if Description in p {
      TrimIdempotent(p[Description]);
    }
  }

  /** With no validator on update, a status outside the enum is stored as sent. */
  lemma UpdateStoresUnknownStatus(t: Task, now: nat)
    ensures var r := ApplyPatch(t, PatchOf(Body(None, None, Some("archived"), None)), now);
            r.status == "archived" && !ValidTask(r)
  {
    ApplyPatchField(t, PatchOf(Body(None, None, Some("archived"), None)), now, StatusField);
  }

  /** A title of blanks is truthy, so it is written, and trimming then stores an empty title. */
  lemma UpdateStoresEmptyTitle(t: Task, now: nat)
    ensures var r := ApplyPatch(t, PatchOf(Body(Some("  "), None, None, None)), now);
            r.title == [] && !ValidTask(r)
  {
    ApplyPatchField(t, PatchOf(Body(Some("  "), None, None, None)), now, Title);
    TrimEmptyIffBlank("  ");
  }

  /** The store after an emitted event: the snapshot is written under its id, or the id is removed. */
  function EventEffect(st: map<TaskId, Task>, e: Event): map<TaskId, Task>
  {
    match e
    case TaskUpdate(t) => st[t.id := t]
    case TaskDelete(id) => st - {id}
  }

  /** The store that a sequence of emitted events describes, starting from `st`. */
  function Replay(st: map<TaskId, Task>, es: seq<Event>): map<TaskId, Task>
  {
    if es == [] then st else EventEffect(Replay(st, es[..|es| - 1]), es[|es| - 1])
  }

  lemma ReplaySnoc(st: map<TaskId, Task>, es: seq<Event>, e: Event)
    ensures Replay(st, es + [e]) == EventEffect(Replay(st, es), e)
  {
    assert (es + [e])[..|es|] == es;
  }

  /** Replaying a log in two pieces is replaying it at once. */
  lemma {:induction false} ReplayConcat(st: map<TaskId, Task>, a: seq<Event>, b: seq<Event>)
    ensures Replay(st, a + b) == Replay(Replay(st, a), b)
  {
    if b == [] {
      assert a + b == a;
    } else {
      var n := |b| - 1;
      ReplayConcat(st, a, b[..n]);
      assert a + b == (a + b[..n]) + [b[n]];
      assert b == b[..n] + [b[n]];
      ReplaySnoc(st, a + b[..n], b[n]);
      ReplaySnoc(Replay(st, a), b[..n], b[n]);
    }
  }

  /** Every document is stored under its own id. */
  ghost predicate KeyedById(st: map<TaskId, Task>)
  {
    forall id :: id in st ==> st[id].id == id
  }

  /** Events keep a store keyed by id. */
  lemma {:induction false} ReplayKeyedById(st: map<TaskId, Task>, es: seq<Event>)
    requires KeyedById(st)
    ensures KeyedById(Replay(st, es))
  {
    if es != [] {
      ReplayKeyedById(st, es[..|es| - 1]);
    }
  }

  /** What a handler answers. */
  datatype Response =
    | Saved(task: Task)     // res.json(task)
    | Removed               // res.json({ msg: 'Task deleted' })
    | NotFound              // 404 { msg: 'Task not found' }
    | ServerError           // 500 'Server error'

  /** The HTTP status code each answer is sent with. */
  function HttpStatus(r: Response): nat
  {
    match r
    case NotFound => 404
    case ServerError => 500
    case _ => 200
  }

  /** The router over the store, with the log of emitted events. */
  class TaskApi {
    var store: map<TaskId, Task>
    var events: seq<Event>
    var nextId: nat

    /**
     * Documents sit under their own ids, below the next id to hand out, and
     * the log explains the store exactly: no event without a committed
     * change, no committed change without its event.
     */
    ghost predicate Valid()
      reads this
    {
      && KeyedById(store)
      && (forall id :: id in store ==> id < nextId)
      && store == Replay(map[], events)
    }

    constructor ()
      ensures Valid() && store == map[] && events == []
    {
      store := map[];
      events := [];
      nextId := 0;
    }

    /**
     * POST /api/tasks: build the document from the body and the
     * authenticated user, save it, then emit `taskUpdate` with it. A
     * validation failure or a throwing save answers 500 and emits nothing.
     */
    method Create(user: UserId, body: Body, now: nat, storeThrows: bool) returns (r: Response)
      requires Valid()
      modifies this
      ensures Valid()
      ensures HttpStatus(r) == if NewTask(old(nextId), body, user, now).Ok? && !storeThrows then 200 else 500
      ensures var made := NewTask(old(nextId), body, user, now);
              if made.Ok? && !storeThrows then
                && old(nextId) !in old(store)
                && r == Saved(made.value)
                && store == old(store)[old(nextId) := made.value]
                && events == old(events) + [TaskUpdate(made.value)]
              else
                r == ServerError && store == old(store) && events == old(events)
    {
      var made := NewTask(nextId, body, user, now);
      if made.Err? || storeThrows {
        return ServerError;
      }
      var task := made.value;
      store := store[task.id := task];
      nextId := nextId + 1;
      events := events + [TaskUpdate(task)];
      ReplaySnoc(map[], old(events), TaskUpdate(task));
      r := Saved(task);
    }

    /**
     * PUT /api/tasks/:id: build `taskFields`, look the document up (404 if
     * it is missing), write the patch, then emit `taskUpdate` with the
     * updated document.
     */
    method Update(id: TaskId, body: Body, now: nat, storeThrows: bool) returns (r: Response)
      requires Valid()
      modifies this
      ensures Valid() && nextId == old(nextId)
      ensures HttpStatus(r) == if storeThrows then 500 else if id !in old(store) then 404 else 200
      ensures storeThrows ==> r == ServerError && store == old(store) && events == old(events)
      ensures !storeThrows && id !in old(store) ==>
                r == NotFound && store == old(store) && events == old(events)
      ensures !storeThrows && id in old(store) ==>
                var updated := ApplyPatch(old(store)[id], PatchOf(body), now);
                && r == Saved(updated)
                && store == old(store)[id := updated]
                && events == old(events) + [TaskUpdate(updated)]
    {
      var fields := BuildPatch(body);
      if storeThrows {
        return ServerError;
      }
      if id !in store {
        return NotFound;
      }
      var updated := ApplyPatch(store[id], fields, now);
      store := store[id := updated];
      events := events + [TaskUpdate(updated)];
      ReplaySnoc(map[], old(events), TaskUpdate(updated));
      r := Saved(updated);
    }

    /**
     * DELETE /api/tasks/:id: look the document up (404 if it is missing),
     * remove it, then emit `taskDelete` with the id.
     */
    method Delete(id: TaskId, storeThrows: bool) returns (r: Response)
      requires Valid()
      modifies this
      ensures Valid() && nextId == old(nextId)
      ensures HttpStatus(r) == if storeThrows then 500 else if id !in old(store) then 404 else 200
      ensures storeThrows ==> r == ServerError && store == old(store) && events == old(events)
      ensures !storeThrows && id !in old(store) ==>
                r == NotFound && store == old(store) && events == old(events)
      ensures !storeThrows && id in old(store) ==>
                && r == Removed
                && store == old(store) - {id} && id !in store
                && events == old(events) + [TaskDelete(id)]
    {
      if storeThrows {
        return ServerError;
      }
      if id !in store {
        return NotFound;
      }
      store := store - {id};
      events := events + [TaskDelete(id)];
      ReplaySnoc(map[], old(events), TaskDelete(id));
      r := Removed;
    }
  }
}
