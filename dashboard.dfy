/**
 * The status-partitioned view of the dashboard (frontend/src/components/Dashboard.js):
 * the bootstrap that groups fetched tasks by status, the `taskUpdate`
 * updater that removes the id from every partition and pushes the task onto
 * the partition of its status, and `handleTaskCreated`, which only appends.
 *
 * A task whose status is not one of the three names makes the source throw
 * (`groupedTasks[task.status]` is undefined); that is modelled as `None`,
 * and the view then keeps its previous state.
 */
module DashboardView {
  import opened TaskSchema
  import opened TaskSeqs

  /** The `{ todo, 'in-progress', done }` state object. */
  datatype Board = Board(todo: seq<Task>, inProgress: seq<Task>, done: seq<Task>)
  {
    function Col(s: Status): seq<Task>
    {
      match s
      case Todo => todo
      case InProgress => inProgress
      case Done => done
    }

    /** The same board with the partition of `s` replaced. */
    function With(s: Status, col: seq<Task>): (b: Board)
      ensures b.Col(s) == col
      ensures forall s' :: s' != s ==> b.Col(s') == Col(s')
    {
      match s
      case Todo => this.(todo := col)
      case InProgress => this.(inProgress := col)
      case Done => this.(done := col)
    }

    /** All partitions one after the other. */
    function All(): seq<Task>
    {
      todo + inProgress + done
    }
  }

  const EmptyBoard := Board([], [], [])

  /** `Object.keys` of the state object, in declaration order. */
  const Keys: seq<Status> := [Todo, InProgress, Done]

  lemma BoardByCols(a: Board, b: Board)
    requires forall s :: a.Col(s) == b.Col(s)
    ensures a == b
  {
    assert a.Col(Todo) == b.Col(Todo);
    assert a.Col(InProgress) == b.Col(InProgress);
    assert a.Col(Done) == b.Col(Done);
  }

  predicate HasStatus(t: Task, s: Status)
  {
    ParseStatus(t.status) == Some(s)
  }

  /** Every task carries one of the three status names. */
  predicate AllKnown(ts: seq<Task>)
  {
    forall i :: 0 <= i < |ts| ==> ParseStatus(ts[i].status).Some?
  }

  /** The tasks of status `s`, in their order in `ts`. */
  function OfStatus(ts: seq<Task>, s: Status): seq<Task>
  {
    if ts == [] then []
    else OfStatus(ts[..|ts| - 1], s) + (if HasStatus(ts[|ts| - 1], s) then [ts[|ts| - 1]] else [])
  }

  /**
   * The bootstrap's `forEach` over the fetched tasks: each one is pushed onto
   * the partition named by its status. An unknown status throws, and the
   * source's `catch` then leaves the view as it was.
   */
  method GroupTasks(data: seq<Task>) returns (r: Option<Board>)
    ensures r.Some? <==> AllKnown(data)
    ensures r.Some? ==> forall s :: r.value.Col(s) == OfStatus(data, s)
  {
    var grouped := EmptyBoard;
    var i := 0;
    while i < |data|
      invariant 0 <= i <= |data|
      invariant AllKnown(data[..i])
      invariant forall s :: grouped.Col(s) == OfStatus(data[..i], s)
    {
      var t := data[i];
      var status := ParseStatus(t.status);
      if status.None? {
        assert !AllKnown(data) by { assert !ParseStatus(data[i].status).Some?; }
        return None;
      }
      ghost var seen := data[..i + 1];
      assert AllKnown(seen) by {
        forall j | 0 <= j < i + 1 ensures ParseStatus(seen[j].status).Some? {
          if j < i {
            assert seen[j] == data[..i][j];
          }
        }
      }
      OfStatusPrefix(data, i);
      grouped := grouped.With(status.value, grouped.Col(status.value) + [t]);
      i := i + 1;
    }
    assert data[..i] == data;
    return Some(grouped);
  }

  /** One more fetched task extends exactly the partition of its status. */
  lemma OfStatusPrefix(ts: seq<Task>, i: nat)
    requires i < |ts|
    ensures forall s :: OfStatus(ts[..i + 1], s)
                        == OfStatus(ts[..i], s) + (if HasStatus(ts[i], s) then [ts[i]] else [])
  {
    assert ts[..i + 1][..i] == ts[..i];
  }

  /** A task lands in the partition of status `s` exactly when it was fetched and has that status. */
  lemma {:induction false} OfStatusMembers(ts: seq<Task>, s: Status, x: Task)
    ensures x in OfStatus(ts, s) <==> x in ts && HasStatus(x, s)
  {
    if ts != [] {
      var n := |ts| - 1;
      OfStatusMembers(ts[..n], s, x);
      assert ts == ts[..n] + [ts[n]];
    }
  }

  /** The bootstrap partitions together hold each id as often as the fetched list does. */
  lemma {:induction false} GroupedCountId(ts: seq<Task>, id: TaskId)
    requires AllKnown(ts)
    ensures CountId(OfStatus(ts, Todo), id) + CountId(OfStatus(ts, InProgress), id)
            + CountId(OfStatus(ts, Done), id) == CountId(ts, id)
  {
    if ts != [] {
      var n := |ts| - 1;
      var last := ts[n];
      assert AllKnown(ts[..n]);
      GroupedCountId(ts[..n], id);
      assert ts == ts[..n] + [last];
      CountIdConcat(ts[..n], [last], id);
      CountIdConcat(OfStatus(ts[..n], Todo), if HasStatus(last, Todo) then [last] else [], id);
      CountIdConcat(OfStatus(ts[..n], InProgress), if HasStatus(last, InProgress) then [last] else [], id);
      CountIdConcat(OfStatus(ts[..n], Done), if HasStatus(last, Done) then [last] else [], id);
    }
  }

  /** The three partitions together hold exactly as many tasks as were fetched. */
  lemma {:induction false} GroupedTotal(ts: seq<Task>)
    requires AllKnown(ts)
    ensures |OfStatus(ts, Todo)| + |OfStatus(ts, InProgress)| + |OfStatus(ts, Done)| == |ts|
  {
    if ts != [] {
      var n := |ts| - 1;
      assert AllKnown(ts[..n]);
      GroupedTotal(ts[..n]);
    }
  }

  /** The view has no id in two places, across all partitions. */
  ghost predicate NoDuplicates(b: Board)
  {
    UniqueIds(b.All())
  }

  lemma CountIdAll(b: Board, id: TaskId)
    ensures CountId(b.All(), id) == CountId(b.todo, id) + CountId(b.inProgress, id) + CountId(b.done, id)
  {
    CountIdConcat(b.todo + b.inProgress, b.done, id);
    CountIdConcat(b.todo, b.inProgress, id);
  }

  /** A fetched list without repeated ids bootstraps a view without repeated ids. */
  lemma GroupedNoDuplicates(ts: seq<Task>)
    requires AllKnown(ts) && UniqueIds(ts)
    ensures NoDuplicates(Board(OfStatus(ts, Todo), OfStatus(ts, InProgress), OfStatus(ts, Done)))
  {
    var b := Board(OfStatus(ts, Todo), OfStatus(ts, InProgress), OfStatus(ts, Done));
    forall id ensures CountId(b.All(), id) <= 1 {
      CountIdAll(b, id);
      GroupedCountId(ts, id);
    }
  }

  /** Every partition with the id filtered out. */
  function Purge(b: Board, id: TaskId): (r: Board)
    ensures forall s :: r.Col(s) == RemoveId(b.Col(s), id)
  {
    Board(RemoveId(b.todo, id), RemoveId(b.inProgress, id), RemoveId(b.done, id))
  }

  /**
   * What the `taskUpdate` updater computes: remove the id everywhere, then
   * push the snapshot onto the end of its status partition.
   */
  function Reconcile(b: Board, t: Task): (r: Option<Board>)
    ensures r.Some? <==> ValidStatus(t.status)
    ensures r.Some? ==> var c := r.value.Col(ParseStatus(t.status).value); c != [] && c[|c| - 1] == t
  {
    match ParseStatus(t.status)
    case None => None
    case Some(s) =>
      var p := Purge(b, t.id);
      Some(p.With(s, p.Col(s) + [t]))
  }

  /**
   * The updater as written: a copy of the state, a `forEach` over its keys
   * filtering each partition, then a `push` onto the partition of the status.
   */
  method ApplyTaskUpdate(prev: Board, t: Task) returns (r: Option<Board>)
    ensures r == Reconcile(prev, t)
  {
    var next := prev;
    for k := 0 to |Keys|
      invariant forall s :: next.Col(s) == if s in Keys[..k] then RemoveId(prev.Col(s), t.id) else prev.Col(s)
    {
      next := next.With(Keys[k], RemoveId(next.Col(Keys[k]), t.id));
    }
    assert Keys[..|Keys|] == Keys;
    assert forall s :: s in Keys;
    BoardByCols(next, Purge(prev, t.id));
    match ParseStatus(t.status)
    case None =>
      r := None;
    case Some(s) =>
      r := Some(next.With(s, next.Col(s) + [t]));
  }

  /**
   * After a `taskUpdate` the id occurs exactly once in the whole view: as the
   * last entry of the partition of the task's status and nowhere else.
   */
  lemma ReconcilePlacesOnce(b: Board, t: Task, s: Status)
    requires HasStatus(t, s)
    ensures Reconcile(b, t).Some?
    ensures var c := Reconcile(b, t).value.Col(s);
            c != [] && c[|c| - 1] == t && CountId(c, t.id) == 1
    ensures forall s' :: s' != s ==> CountId(Reconcile(b, t).value.Col(s'), t.id) == 0
  {
    var p := Purge(b, t.id);
    forall s': Status ensures CountId(p.Col(s'), t.id) == 0 {
      RemoveIdCounts(b.Col(s'), t.id, t.id);
    }
    CountIdConcat(p.Col(s), [t], t.id);
  }

  /** A snapshot with a status outside the enum changes nothing (the source throws). */
  lemma ReconcileUnknownStatus(b: Board, t: Task)
    ensures Reconcile(b, t).None? <==> !ValidStatus(t.status)
  {
  }

  /**
   * Tasks with other ids are all still there, in the same partitions and in
   * the same relative order.
   */
  lemma ReconcileKeepsOthers(b: Board, t: Task, s': Status)
    requires ValidStatus(t.status)
    ensures RemoveId(Reconcile(b, t).value.Col(s'), t.id) == RemoveId(b.Col(s'), t.id)
  {
    var s := ParseStatus(t.status).value;
    var col := b.Col(s');
    RemoveIdIdempotent(col, t.id);
    if s' == s {
      RemoveIdConcat(RemoveId(col, t.id), [t], t.id);
      assert RemoveId([t], t.id) == [];
      assert RemoveId(col, t.id) + [] == RemoveId(col, t.id);
    }
  }

  /** Applying the same `taskUpdate` twice gives the view one application gives. */
  lemma ReconcileIdempotent(b: Board, t: Task)
    requires ValidStatus(t.status)
    ensures Reconcile(Reconcile(b, t).value, t) == Reconcile(b, t)
  {
    var s := ParseStatus(t.status).value;
    var once := Reconcile(b, t).value;
    var p := Purge(once, t.id);
    forall s' ensures p.Col(s') == Purge(b, t.id).Col(s') {
      ReconcileKeepsOthers(b, t, s');
    }
    BoardByCols(p, Purge(b, t.id));
  }

  /** A view without repeated ids keeps that property across a `taskUpdate`. */
  lemma ReconcileKeepsNoDuplicates(b: Board, t: Task)
    requires ValidStatus(t.status) && NoDuplicates(b)
    ensures NoDuplicates(Reconcile(b, t).value)
  {
    var s := ParseStatus(t.status).value;
    var after := Reconcile(b, t).value;
    ReconcilePlacesOnce(b, t, s);
    forall id ensures CountId(after.All(), id) <= 1 {
      CountIdAll(after, id);
      CountIdAll(b, id);
      assert after.todo == after.Col(Todo) && after.inProgress == after.Col(InProgress)
        && after.done == after.Col(Done);
      if id != t.id {
        forall s' ensures CountId(after.Col(s'), id) == CountId(b.Col(s'), id) {
          RemoveIdCounts(b.Col(s'), t.id, id);
          if s' == s {
            CountIdConcat(RemoveId(b.Col(s), t.id), [t], id);
          }
        }
      }
    }
  }

  /**
   * `handleTaskCreated`: append to the partition of the task's status
   * without removing anything first. An unknown status throws.
   */
  function AppendCreated(b: Board, t: Task): (r: Option<Board>)
    ensures r.Some? <==> ValidStatus(t.status)
    ensures r.Some? ==> var s := ParseStatus(t.status).value;
                        && r.value.Col(s) == b.Col(s) + [t]
                        && forall s' :: s' != s ==> r.value.Col(s') == b.Col(s')
  {
    match ParseStatus(t.status)
    case None => None
    case Some(s) => Some(b.With(s, b.Col(s) + [t]))
  }

  /**
   * `handleTaskCreated` does not deduplicate: a task already shown, under any
   * status, appears at least twice afterwards.
   */
  lemma AppendCreatedDuplicates(b: Board, t: Task)
    requires ValidStatus(t.status) && HasId(b.All(), t.id)
    ensures CountId(AppendCreated(b, t).value.All(), t.id) >= 2
  {
    var s := ParseStatus(t.status).value;
    var after := AppendCreated(b, t).value;
    CountIdPositive(b.All(), t.id);
    CountIdAll(b, t.id);
    CountIdAll(after, t.id);
    CountIdConcat(b.Col(s), [t], t.id);
    assert b.todo == b.Col(Todo) && b.inProgress == b.Col(InProgress) && b.done == b.Col(Done);
    assert after.todo == after.Col(Todo) && after.inProgress == after.Col(InProgress)
      && after.done == after.Col(Done);
  }

  /** The dashboard component's `tasks` state. */
  class Dashboard {
    var board: Board

    /** The initial `useState` with three empty partitions. */
    constructor ()
      ensures board == EmptyBoard
    {
      board := EmptyBoard;
    }

    /** The fetch on mount: regroups the response, or keeps the view when grouping throws. */
    method Bootstrap(data: seq<Task>)
      modifies this
      ensures AllKnown(data) ==> forall s :: board.Col(s) == OfStatus(data, s)
      ensures !AllKnown(data) ==> board == old(board)
    {
      var grouped := GroupTasks(data);
      if grouped.Some? {
        board := grouped.value;
      }
    }

    /** The `taskUpdate` listener; the view is kept when the updater throws. */
    method OnTaskUpdate(updated: Task)
      modifies this
      ensures board == match Reconcile(old(board), updated)
                       case Some(b) => b
                       case None => old(board)
    {
      var next := ApplyTaskUpdate(board, updated);
      if next.Some? {
        board := next.value;
      }
    }

    /** `handleTaskCreated`; the view is kept when the spread throws. */
    method OnTaskCreated(created: Task)
      modifies this
      ensures board == match AppendCreated(old(board), created)
                       case Some(b) => b
                       case None => old(board)
    {
      var next := AppendCreated(board, created);
      if next.Some? {
        board := next.value;
      }
    }
  }
}
