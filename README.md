# Task board: real-time task synchronization, modelled in Dafny

The task board lets users create, update and delete tasks and see every
change live. The server's route handlers commit each mutation to a MongoDB
collection and then broadcast it with `io.emit`: `taskUpdate` carries the
full post-mutation Task and is sent after both create and update;
`taskDelete` carries the id. Two client views apply these push events:

- the React task provider keeps a flat list. `taskUpdate` replaces the first
  entry with the same id, or prepends the task when the id is new.
  `taskDelete` filters the id out. A fetch replaces the whole list.
- the dashboard keeps three partitions, `todo`, `in-progress` and `done`.
  Its bootstrap groups the fetched list by status. `taskUpdate` removes the
  id from every partition and then pushes the task onto its status's
  partition. `handleTaskCreated` only appends.

The project models these pieces:

| file | module | source |
|---|---|---|
| `task_schema.dfy` | `TaskSchema` | `backend/models/Task.js`: the Task record, the status enum, the `trim` setter, the checks run when a document is saved, and the two push events |
| `task_seqs.dfy` | `TaskSeqs` | the id filter used by both client views, plus id counting |
| `task_context.dfy` | `TaskContext` | `frontend/src/context/TaskContext.js`: the upsert and delete updaters, and the `TaskProvider` class that holds the `tasks` state cell |
| `dashboard.dfy` | `DashboardView` | `frontend/src/components/Dashboard.js`: the partitioned `Board`, the bootstrap loop, the `taskUpdate` loop, `handleTaskCreated`, and the `Dashboard` class |
| `task_routes.dfy` | `TaskRoutes` | `backend/routes/tasks.js`: the `taskFields` patch, the `TaskApi` class (a store map plus an append-only event log), and the POST, PUT and DELETE handlers |
| `sync.dfy` | `Sync` | server and flat-list client together: applying the emitted log keeps a client's list equal to the store |

Modelling choices:

- A Task's `status` is a string, not the enum. The update handler runs no
  validators (no `runValidators` option at `backend/routes/tasks.js:76-80`),
  so any truthy status string reaches the store. `ParseStatus` reads a
  stored string back as one of the three values.
- The dashboard's `groupedTasks[task.status].push(...)` and
  `newTasks[updatedTask.status].push(...)` throw when the status is unknown.
  `handleTaskCreated` throws too, when it spreads `prevTasks[newTask.status]`.
  Each such case is modelled as `None`, and the view keeps its previous
  value. For the bootstrap this is what the `catch` at
  `Dashboard.js:43-45` does.
- The update assumes that Mongoose applies schema setters to `$set` updates
  (the default since Mongoose 5). So a truthy title or description is
  trimmed on update, as it is on create.
- Every handler has a `storeThrows` parameter that stands for a throwing
  store call. The `catch` then answers 500, and the model assumes nothing
  was committed. The store's id generator is the counter `nextId`. The clock
  is the parameter `now`. `req.user.id` is the parameter `user`.
- `io.emit` appends to the `events` log. `TaskApi.Valid()` requires that the
  store equals the log replayed from an empty store. So every emitted event
  describes a committed change, and every committed change has its event.

Behaviour of the code that a reader might not expect, modelled as written:

- There is no separate "created" event: create and update both emit `taskUpdate`.
- A missing or blank title on create is not answered with a validation
  error. The save throws and the handler answers 500.
- The dashboard has no `taskDelete` listener, and `handleTaskCreated` does
  not remove an existing entry first.
- The update path checks neither the status enum nor the required title.
  `TaskRoutes.UpdateStoresUnknownStatus` and `TaskRoutes.UpdateStoresEmptyTitle`
  show documents that break `ValidTask` after an update.

## Model

| member | source | states |
|---|---|---|
| `TaskSchema.StatusName` | backend/models/Task.js:18 | the name each enum value is stored under; `ParseStatus` and `ParseStatusName` show that the three names are distinct and are the only strings read back as a status |
| `TaskSchema.ParseStatus` | backend/models/Task.js:16-20 | a string parses to a status exactly when it is that status's enum name; any other string is rejected |
| `TaskSchema.ParseStatusName` | backend/models/Task.js:18 | the three enum names are distinct: parsing a status's name gives back that status |
| `TaskSchema.TrimStart` | backend/models/Task.js:10 | the result is the suffix of the input that starts at its first non-white-space character; everything dropped is white space |
| `TaskSchema.TrimEnd` | backend/models/Task.js:10 | the result is the prefix of the input that ends at its last non-white-space character; everything dropped is white space |
| `TaskSchema.Trim` | backend/models/Task.js:7-15 | the trimmed value is no longer than the input and neither starts nor ends with white space |
| `TaskSchema.TrimEmptyIffBlank` | backend/models/Task.js:7-11 | trimming gives the empty string exactly when the input is all white space, so such a title fails `required` |
| `TaskSchema.TrimIdempotent` | backend/models/Task.js:7-15 | trimming a trimmed value changes nothing |
| `TaskSchema.ValidTask` | backend/models/Task.js:7-31 | what the schema demands of a document: a known status, a non-empty trimmed title, a trimmed description when present; a valid title is never all white space. `NewTaskValid` shows every created document meets it; `UpdateStoresUnknownStatus` and `UpdateStoresEmptyTitle` show updates that break it |
| `TaskSchema.NewTask` | backend/routes/tasks.js:16-27 | a document is created exactly when the title is present and not all white space; it has the trimmed title, status `todo`, `createdBy` equal to the authenticated user, the body's description trimmed (absent when the body has none), the body's `assignedTo`, and both timestamps set to the save time |
| `TaskSchema.NewTaskValid` | backend/models/Task.js:7-31 | every created document satisfies the schema: a known status, a non-empty trimmed title, and a trimmed description |
| `TaskSchema.NewTaskIgnoresStatus` | backend/routes/tasks.js:16-24 | a status sent with a create request has no effect on the created document |
| `TaskSeqs.RemoveId` | frontend/src/context/TaskContext.js:53 | the id filter (also each partition's filter at `frontend/src/components/Dashboard.js:56-58`); the result is never longer than the input, and `RemoveIdCounts`, `RemoveIdMembers` and `RemoveIdConcat` state exactly which entries survive and in what order |
| `TaskSeqs.RemoveIdCounts` | frontend/src/context/TaskContext.js:53 | after the filter no entry has the id, and every other id occurs exactly as often as before |
| `TaskSeqs.RemoveIdMembers` | frontend/src/context/TaskContext.js:53 | an entry survives the filter exactly when it was in the list and has a different id |
| `TaskSeqs.RemoveIdConcat` | frontend/src/context/TaskContext.js:53 | filtering a concatenation is concatenating the filtered parts, so the surviving entries keep their relative order |
| `TaskSeqs.RemoveAbsentId` | frontend/src/context/TaskContext.js:53 | filtering out an id that no entry has leaves the list unchanged |
| `TaskSeqs.RemoveIdIdempotent` | frontend/src/context/TaskContext.js:53 | deleting twice gives the same list as deleting once |
| `TaskContext.FindIndex` | frontend/src/context/TaskContext.js:38 | returns -1 exactly when no entry has the id; otherwise returns the first position holding the id |
| `TaskContext.Upsert` | frontend/src/context/TaskContext.js:37-48 | the `taskUpdate` updater: afterwards the id is present, and the list keeps its length when the id was known and grows by one otherwise; `UpsertAbsent`, `UpsertPresent` and `UpsertFindsSnapshot` state where the snapshot goes |
| `TaskContext.UpsertAbsent` | frontend/src/context/TaskContext.js:44-47 | a snapshot whose id is not in the list is prepended to the old list |
| `TaskContext.UpsertPresent` | frontend/src/context/TaskContext.js:38-43 | a snapshot whose id is in the list replaces the first entry with that id; the length and all other entries are unchanged |
| `TaskContext.UpsertFindsSnapshot` | frontend/src/context/TaskContext.js:38-47 | afterwards the first entry with the id is exactly the snapshot, a whole replacement, at the old position or at the front |
| `TaskContext.UpsertIdempotent` | frontend/src/context/TaskContext.js:37-48 | applying the same `taskUpdate` twice gives the same list as applying it once |
| `TaskContext.UpsertKeepsUnique` | frontend/src/context/TaskContext.js:38-47 | if no id occurs twice before a `taskUpdate`, none does after it |
| `TaskContext.ApplyEvent` | frontend/src/context/TaskContext.js:36-54 | the two listeners by event kind: after a `taskUpdate` the snapshot's id is present, after a `taskDelete` the id is absent |
| `TaskContext.TaskProvider.constructor` | frontend/src/context/TaskContext.js:12 | the provider starts with an empty list |
| `TaskContext.TaskProvider.OnTaskUpdate` | frontend/src/context/TaskContext.js:36-49 | the new list is the upsert of the snapshot into the old list |
| `TaskContext.TaskProvider.OnTaskDelete` | frontend/src/context/TaskContext.js:52-54 | the new list is the old list filtered by id; the id is gone, and an absent id leaves the list unchanged |
| `TaskContext.TaskProvider.OnFetch` | frontend/src/context/TaskContext.js:65-74 | a successful fetch replaces the whole list with the response, discarding the previous state |
| `DashboardView.OfStatus` | frontend/src/components/Dashboard.js:38-40 | the tasks of one status in fetch order; `OfStatusMembers`, `GroupedCountId` and `GroupedTotal` state which tasks it holds and that the three together account for the whole fetched list |
| `DashboardView.GroupTasks` | frontend/src/components/Dashboard.js:31-42 | grouping succeeds exactly when every fetched task has a known status; each partition is then the fetched tasks of that status, in fetch order |
| `DashboardView.OfStatusMembers` | frontend/src/components/Dashboard.js:38-40 | a task is in a status's partition exactly when it was fetched and has that status, so it sits in exactly one partition |
| `DashboardView.GroupedCountId` | frontend/src/components/Dashboard.js:38-40 | across the three partitions, each id occurs as often as it does in the fetched list |
| `DashboardView.GroupedTotal` | frontend/src/components/Dashboard.js:38-40 | the three partition sizes add up to the number of fetched tasks |
| `DashboardView.GroupedNoDuplicates` | frontend/src/components/Dashboard.js:31-42 | a fetched list without repeated ids bootstraps a view where no id occurs twice across partitions |
| `DashboardView.Purge` | frontend/src/components/Dashboard.js:56-58 | every partition has the id filtered out and nothing else changes |
| `DashboardView.Reconcile` | frontend/src/components/Dashboard.js:52-63 | the updater succeeds exactly when the status is one of the three names, and the task is then the last entry of its status's partition; `ReconcilePlacesOnce` and `ReconcileKeepsOthers` determine the rest of the board |
| `DashboardView.ApplyTaskUpdate` | frontend/src/components/Dashboard.js:52-64 | the copy, the filter loop over the keys and the push compute `Reconcile`: remove the id everywhere, append the task to its status's partition, or fail on an unknown status |
| `DashboardView.ReconcilePlacesOnce` | frontend/src/components/Dashboard.js:55-61 | after a `taskUpdate` the id occurs exactly once: as the last entry of its status's partition, and in no other partition |
| `DashboardView.ReconcileUnknownStatus` | frontend/src/components/Dashboard.js:61 | the updater fails exactly when the snapshot's status is not one of the three names |
| `DashboardView.ReconcileKeepsOthers` | frontend/src/components/Dashboard.js:55-58 | in every partition, the tasks with other ids are unchanged and keep their relative order |
| `DashboardView.ReconcileIdempotent` | frontend/src/components/Dashboard.js:52-63 | applying the same `taskUpdate` twice gives the same partitioned view as applying it once |
| `DashboardView.ReconcileKeepsNoDuplicates` | frontend/src/components/Dashboard.js:55-61 | if no id occurs twice across partitions before a `taskUpdate`, none does after it |
| `DashboardView.AppendCreated` | frontend/src/components/Dashboard.js:72-77 | with a known status, only that status's partition changes, by appending the task at its end; with an unknown status it fails |
| `DashboardView.AppendCreatedDuplicates` | frontend/src/components/Dashboard.js:72-77 | `handleTaskCreated` does not deduplicate: a task already shown in any partition, whatever its old status, appears at least twice across the partitions afterwards |
| `DashboardView.Dashboard.constructor` | frontend/src/components/Dashboard.js:11-15 | the view starts with three empty partitions |
| `DashboardView.Dashboard.Bootstrap` | frontend/src/components/Dashboard.js:25-46 | after the fetch, each partition holds the fetched tasks of its status, in fetch order; if grouping throws, the view is unchanged |
| `DashboardView.Dashboard.OnTaskUpdate` | frontend/src/components/Dashboard.js:51-65 | the view becomes the reconciled view; if the updater throws, it is unchanged |
| `DashboardView.Dashboard.OnTaskCreated` | frontend/src/components/Dashboard.js:72-77 | the view becomes the view with the task appended; if the spread throws, it is unchanged |
| `TaskRoutes.Truthy` | backend/routes/tasks.js:67-70 | JavaScript truthiness of a string field: present and not the empty string; `PatchOf` and `UpdateWritesOnlyTruthy` state its effect on an update |
| `TaskRoutes.PatchOf` | backend/routes/tasks.js:66-70 | the patch has a key exactly for each truthy body field among title, description, status and assignedTo, with that field's value |
| `TaskRoutes.BuildPatch` | backend/routes/tasks.js:66-70 | the four conditional assignments build exactly that patch |
| `TaskRoutes.Stored` | backend/routes/tasks.js:76-80 | what the trim setter stores for a patched key: titles and descriptions come out trimmed (trimming again changes nothing), status and `assignedTo` are stored as sent |
| `TaskRoutes.ApplyPatch` | backend/routes/tasks.js:76-80 | the update keeps id, `createdBy` and `createdAt`, and sets `updatedAt` to the update time |
| `TaskRoutes.ApplyPatchField` | backend/routes/tasks.js:76-80 | a field in the patch is written (title and description trimmed); every other field keeps its stored value |
| `TaskRoutes.UpdateWritesOnlyTruthy` | backend/routes/tasks.js:63-80 | an update writes only the truthy body fields; a falsy or absent field never changes or clears the stored value |
| `TaskRoutes.ApplyPatchKeepsValid` | backend/routes/tasks.js:76-80 | an update keeps a document valid when the body's truthy status is one of the three names and its truthy title is not blank |
| `TaskRoutes.UpdateStoresUnknownStatus` | backend/routes/tasks.js:69-80 | with no validator on update, the status `archived` is stored as sent, and the document no longer satisfies the schema |
| `TaskRoutes.UpdateStoresEmptyTitle` | backend/routes/tasks.js:67-80 | a title of blanks is truthy, so it is written; trimming then stores an empty title |
| `TaskRoutes.TaskApi.Create` | backend/routes/tasks.js:14-38 | on a valid body and a successful save, the new document is stored under a fresh id, exactly one `taskUpdate` carrying it is emitted, and it is returned; otherwise the handler answers 500, and the store and log are unchanged; `HttpStatus` gives 200 or 500 accordingly |
| `TaskRoutes.TaskApi.Update` | backend/routes/tasks.js:61-91 | a missing id answers 404 and a throwing store answers 500, both with store and log unchanged; otherwise the patched document replaces the stored one, and exactly one `taskUpdate` carrying it is emitted and returned with status 200 |
| `TaskRoutes.TaskApi.Delete` | backend/routes/tasks.js:96-114 | a missing id answers 404 and a throwing store answers 500, both with store and log unchanged; otherwise the id is removed, exactly one `taskDelete` carrying it is emitted, and the answer has status 200 |
| `Sync.UpsertMirrors` | frontend/src/context/TaskContext.js:37-48 | a list holding each stored document exactly once still does so after a `taskUpdate`, against the store with the snapshot written |
| `Sync.RemoveMirrors` | frontend/src/context/TaskContext.js:53 | a list holding each stored document exactly once still does so after a `taskDelete`, against the store with the id removed |
| `Sync.ApplyEventMirrors` | frontend/src/context/TaskContext.js:36-54 | each kind of emitted event keeps a client list in step with the store it describes |
| `Sync.DeliverMirrors` | frontend/src/context/TaskContext.js:36-54 | applying a whole log in emission order keeps a client list in step with the store the log leads to |
| `Sync.CatchUpAfterFetch` | frontend/src/context/TaskContext.js:65-74 | a list fetched at any point of the log, followed by the events emitted after that point, matches the server's current store |
| `Sync.ConnectedFromStart` | frontend/src/context/TaskContext.js:12 | a client that starts empty and receives every event since the collection was empty matches the server's store |

## Left out

- The list query `GET /api/tasks` (`populate` and `sort` at `backend/routes/tasks.js:46-49`) is a database query. Fetched lists are arbitrary sequences; `Sync` assumes that a fetched list holds exactly the documents stored at some point of the log.
- The GET populates `assignedTo` and `createdBy` with user objects, while the events carry the stored documents with plain user ids. The model identifies a populated reference with its id, so a fetched entry counts as equal to the stored document. In the source, an entry not touched by an event after the fetch keeps its populated fields, so the client list agrees with the store only up to these two reference fields.
- The log is replayed from an empty store, so `Sync` speaks of a collection that was empty when logging began. A collection that persists across server restarts holds documents for which no event was emitted in the current run.
- `backend/server.js` is not part of this model: Express, CORS, the database connection, static serving, and the `socket.broadcast.emit` relay.
- Socket connection and teardown, listener registration and removal, and the fan-out of `io.emit` to each connected client are not modelled. Every client is assumed to receive the log in emission order, and no concurrency or delivery loss is modelled.
- The axios calls (`addTask`, `updateTaskStatus`, `TaskItem`) and all UI rendering are left out. `handleTaskCreated` is modelled, even though `TaskForm` ignores its props and never calls it.
- Authentication and the `middleware/auth` module are not part of this model. The authenticated user id is a parameter.
- ObjectId casting is left out, so a malformed `:id` or `assignedTo`, which throws a CastError and answers 500, is not modelled. Ids are natural numbers.
- The model treats every spelling of an id as that id. In the source, `taskDelete` carries `req.params.id` as the request spelled it (`backend/routes/tasks.js:107`), while the lookup and removal cast it (`backend/routes/tasks.js:99,103`). An id that casts but is spelled differently, such as upper-case hex, removes the document. Clients then compare it as a string (`frontend/src/context/TaskContext.js:53`) and keep their entry, a case that `Sync.ApplyEventMirrors` and the lemmas built on it do not cover.
- Body values that are JSON numbers, booleans, null or objects are modelled only as absent fields. Only string values are represented.
- A concurrent delete between `findById` and `findByIdAndUpdate` would make the source emit `taskUpdate` with `null`. This is not modelled.
- A store call that throws after it has committed is not modelled. A throw means nothing was written.
- React behaviour after a throwing state updater on the dashboard (the error propagates out of rendering) is not modelled. The view simply keeps its previous state.
- Timestamps come from the `now` parameter. Ordering between `createdAt` and `updatedAt` is not modelled, because the clock is external.
- `TaskSchema.NewTask`: the `required` check on `createdBy` is always met, because the authenticated user id is always present. A failed ObjectId cast of `assignedTo` is not modelled.
