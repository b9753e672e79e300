/**
 * The Task record of the task board (backend/models/Task.js): its fields,
 * the three status names, the `trim` setter and the checks a document must
 * pass when it is first saved. Also the two push events the server emits,
 * which carry Task snapshots to every client.
 */
module TaskSchema {

  datatype Option<+T> = None | Some(value: T)

  datatype Result<+T, +E> = Ok(value: T) | Err(error: E)

  /** Document identifiers are opaque; a natural number stands for an ObjectId. */
  type TaskId = nat

  /** A user reference (the `ref: 'User'` ObjectId fields). */
  type UserId = string

  /** The three values of the `status` enum. */
  datatype Status = Todo | InProgress | Done

  /** The name each status is stored under. */
  function StatusName(s: Status): string
  {
    match s
    case Todo => "todo"
    case InProgress => "in-progress"
    case Done => "done"
  }

  /** Reads a stored status string back as one of the enum values, if it is one. */
  function ParseStatus(name: string): (r: Option<Status>)
    ensures r.Some? ==> StatusName(r.value) == name
    ensures r.None? ==> forall s: Status :: StatusName(s) != name
  {
    if name == "todo" then Some(Todo)
    else if name == "in-progress" then Some(InProgress)
    else if name == "done" then Some(Done)
    else None
  }

  /** The status names are distinct, so parsing a name gives back its status. */
  lemma ParseStatusName(s: Status)
    ensures ParseStatus(StatusName(s)) == Some(s)
  {
  }

  predicate ValidStatus(name: string)
  {
    ParseStatus(name).Some?
  }

  /** The characters JavaScript's String.prototype.trim removes: WhiteSpace and LineTerminator. */
  predicate IsSpace(c: char)
  {
    var n := c as int;
    (9 <= n <= 13) || n == 0x20 || n == 0xA0 || n == 0x1680 || (0x2000 <= n <= 0x200A)
    || n == 0x2028 || n == 0x2029 || n == 0x202F || n == 0x205F || n == 0x3000 || n == 0xFEFF
  }

  predicate Blank(s: string)
  {
    forall i :: 0 <= i < |s| ==> IsSpace(s[i])
  }

  /** Drops the leading white space: the result is the suffix of `s` that starts at its first non-space. */
  function TrimStart(s: string): (r: string)
    ensures |r| <= |s| && r == s[|s| - |r|..]
    ensures forall i :: 0 <= i < |s| - |r| ==> IsSpace(s[i])
    ensures r != [] ==> !IsSpace(r[0])
  {
    if s != [] && IsSpace(s[0]) then TrimStart(s[1..]) else s
  }

  /** Drops the trailing white space: the result is the prefix of `s` that ends at its last non-space. */
  function TrimEnd(s: string): (r: string)
    ensures |r| <= |s| && r == s[..|r|]
    ensures forall i :: |r| <= i < |s| ==> IsSpace(s[i])
    ensures r != [] ==> !IsSpace(r[|r| - 1])
  {
    if s != [] && IsSpace(s[|s| - 1]) then TrimEnd(s[..|s| - 1]) else s
  }

  /** The schema's `trim: true` setter (Task.js, title and description). */
  function Trim(s: string): (r: string)
    ensures |r| <= |s|
    ensures r != [] ==> !IsSpace(r[0]) && !IsSpace(r[|r| - 1])
  {
    TrimEnd(TrimStart(s))
  }

  /** Trimming leaves an empty string exactly when the input is all white space. */
  lemma TrimEmptyIffBlank(s: string)
    ensures Trim(s) == [] <==> Blank(s)
  {
    var a := TrimStart(s);
    if Trim(s) == [] {
      forall i | 0 <= i < |s| ensures IsSpace(s[i]) {
        if i >= |s| - |a| {
          assert s[i] == a[i - (|s| - |a|)];
        }
      }
    } else {
      var r := Trim(s);
      assert r[0] == a[0];
      assert a[0] == s[|s| - |a|];
    }
  }

  /** Trimming an already trimmed string changes nothing. */
  lemma TrimIdempotent(s: string)
    ensures Trim(Trim(s)) == Trim(s)
  {
    var r := Trim(s);
    if r != [] {
      assert TrimStart(r) == r;
      assert TrimEnd(r) == r;
    }
  }

  /** A stored Task document, as the schema shapes it and as events carry it. */
  datatype Task = Task(
    id: TaskId,
    title: string,
    description: Option<string>,
    status: string,                 // a string: updates may store a value outside the enum
    assignedTo: Option<UserId>,
    createdBy: UserId,
    createdAt: nat,                 // `timestamps: true`
    updatedAt: nat
  )

  /**
   * What the schema demands of a document: a known status, a non-empty
   * trimmed title, a trimmed description when there is one. `createdBy`,
   * `createdAt` and `updatedAt` are always present by construction.
   */
  predicate ValidTask(t: Task): (r: bool)
    ensures r ==> !Blank(t.title)
  {
    TrimEmptyIffBlank(t.title);
    && ValidStatus(t.status)
    && t.title != []
    && Trim(t.title) == t.title
    && (t.description.Some? ==> Trim(t.description.value) == t.description.value)
  }

  /**
   * The fields of a request body that the handlers read. `None` stands for
   * an absent (undefined) field; JSON values that are not strings are not modelled.
   */
  datatype Body = Body(
    title: Option<string>,
    description: Option<string>,
    status: Option<string>,
    assignedTo: Option<UserId>
  )

  datatype SchemaError = TitleRequired

  /**
   * `new Task({title, description, assignedTo, createdBy})` followed by the
   * validation `save()` runs: setters trim the strings, `status` takes its
   * default, `createdBy` is the authenticated user, and a title that is
   * missing or empty after trimming fails the `required` check. The body's
   * status is never read.
   */
  function NewTask(id: TaskId, body: Body, user: UserId, now: nat): (r: Result<Task, SchemaError>)
    ensures r.Ok? <==> body.title.Some? && !Blank(body.title.value)
    ensures r.Ok? ==> && r.value.id == id
                      && r.value.title == Trim(body.title.value)
                      && r.value.status == StatusName(Todo)
                      && r.value.createdBy == user
                      && r.value.description == (if body.description.Some? then Some(Trim(body.description.value)) else None)
                      && r.value.assignedTo == body.assignedTo
                      && r.value.createdAt == now && r.value.updatedAt == now
  {
    match body.title
    case None => Err(TitleRequired)
    case Some(title) =>
      TrimEmptyIffBlank(title);
      if Trim(title) == [] then Err(TitleRequired)
      else
        var description := match body.description
          case None => None
          case Some(d) => Some(Trim(d));
        Ok(Task(id, Trim(title), description, StatusName(Todo), body.assignedTo, user, now, now))
  }

  /** Every document that passes the save-time checks satisfies the schema. */
  lemma NewTaskValid(id: TaskId, body: Body, user: UserId, now: nat)
    requires NewTask(id, body, user, now).Ok?
    ensures ValidTask(NewTask(id, body, user, now).value)
  {
  }

  /** A status sent with a create request has no effect on the saved document. */
  lemma NewTaskIgnoresStatus(id: TaskId, body: Body, status: Option<string>, user: UserId, now: nat)
    ensures NewTask(id, body.(status := status), user, now) == NewTask(id, body, user, now)
  {
  }

  /** The push events the routes emit with `io.emit`. */
  datatype Event =
    | TaskUpdate(task: Task)    // 'taskUpdate', for both create and update
    | TaskDelete(id: TaskId)    // 'taskDelete'
}
