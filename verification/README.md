# Task/user reference bookkeeping, modelled in Dafny

The API stores two document collections, `tasks` and `users`, that point at
each other. A task names its assignee (`assignedUser`) and caches that
user's display name (`assignedUserName`, or `"unassigned"`). A user keeps a
`pendingTasks` list of task ids. Every mutating route handler makes one
primary write, then a few secondary writes meant to keep the two sides in
step:

- the task handlers call `addToPending` (`$addToSet`) and
  `removeFromPending` (`$pull`) on single user documents;
- the user handlers rewrite the assignment fields of many tasks at once
  with `Task.updateMany`.

The model is an in-memory store: a class `Store.Store` with
`tasks: map<TaskId, Task>` and `users: map<UserId, User>`. A ghost log,
`issued`, records every write command in the order the handler awaits it, including commands that match nothing and a save the database rejects.
Each handler is a method whose postcondition gives the new maps and the new
log as functions of the old ones. Those specification functions live in
three modules:

- `Pending` models the list and user-map writes;
- `TaskRules` models the task handlers' effect on users;
- `UserRules` models the user handlers' effect on tasks.

Lemmas about these functions state the promised properties. `Consistency`
defines the relationship the handlers try to keep: every user's
`pendingTasks` holds exactly the incomplete tasks assigned to that user. It
proves which handlers keep that relationship, and under what conditions.

Modules: `types.dfy` (records, request bodies, statuses, filters, writes),
`pending.dfy`, `task_rules.dfy`, `user_rules.dfy`, `consistency.dfy`,
`store.dfy`.

What the model fixes as parameters:
- The database assigns new ids. `CreateTask` and `CreateUser` take the
  fresh id as an argument. It must be non-empty and unused.
- `mongoose.Types.ObjectId.isValid` is the function argument `isValidId`.
  The model says nothing about it.
- The store invariant `Valid()` says three things:
  - ids are never empty;
  - emails are unique, which the unique index on `email` in
    models/user.js:10 and models/user.js:22 enforces;
  - every stored task has a non-empty name and deadline, and every stored
    user a non-empty name and email, which the guards of POST and PUT
    (routes/tasks.js:35 and 63, routes/users.js:35 and 85) secure.
  Every handler keeps `Valid()`.

Behaviours of the handlers that the model reproduces:
- A task may name a user that does not exist. The task keeps that
  `assignedUser`, and the `addToPending` on it matches nothing. The handlers
  do not normalise such an id to `""`.
- The task handlers store the client's `assignedUserName` and do not
  re-read it from the user. When `assignedUser` is empty they store
  `"unassigned"`.
- When a user create or update claims a task, the previous holder's
  `pendingTasks` is not touched. `Consistency.CreateUserLeavesStaleEntry`
  and `Consistency.UpdateUserLeavesStaleEntry` prove that the previous
  holder keeps a stale entry and the relationship breaks.
- Nothing repairs a broken relationship afterwards.

## Model

| member | source | states |
|---|---|---|
| `Pending.AddToSet` | routes/tasks.js:10 | `$addToSet`: afterwards the id is present; the old entries keep their positions and at most one entry is appended; the set of ids gains exactly this id; other ids' counts are unchanged, and this id's count becomes 1 if it was absent |
| `Pending.Pull` | routes/tasks.js:14 | `$pull`: afterwards the id is absent; every other id keeps its count and membership; the length drops by the number of occurrences removed |
| `Pending.AddToSetIdempotent` | routes/tasks.js:8-11 | adding the same id twice equals adding it once |
| `Pending.AddToSetExactlyOnce` | routes/tasks.js:10 | an id that occurred at most once occurs exactly once after the add |
| `Pending.PullAbsent` | routes/tasks.js:14 | pulling an absent id leaves the list unchanged |
| `Pending.PullIdempotent` | routes/tasks.js:12-15 | pulling the same id twice equals pulling it once |
| `Pending.PullAppend` | routes/tasks.js:14 | pulling distributes over concatenation, so the remaining ids keep their order |
| `Pending.AddPending` | routes/tasks.js:8-11 | `addToPending`: an empty user id or a missing user changes nothing; no other user changes; the named user keeps name and email, and its list is the `$addToSet` of the id; membership changes only for that (user, id) pair |
| `Pending.RemovePending` | routes/tasks.js:12-15 | `removeFromPending`: an empty user id or a missing user changes nothing; no other user changes; the named user's list is the `$pull` of the id; membership is lost only for that (user, id) pair |
| `Pending.AddPendingIdempotent` | routes/tasks.js:8-11 | calling `addToPending` twice with the same arguments equals calling it once |
| `Pending.RemovePendingIdempotent` | routes/tasks.js:12-15 | calling `removeFromPending` twice with the same arguments equals calling it once |
| `TaskRules.TaskFromBody` | routes/tasks.js:34-40 | every field is taken from the body; an omitted description becomes `""`; completed is true only if the client sent `true`; an omitted assignee becomes `""`; the name is `"unassigned"` whenever the assignee is empty, and otherwise it is the client's `assignedUserName` (default `"unassigned"`) |
| `TaskRules.CreatePending` | routes/tasks.js:42 | after a task create, the new id joins a user's list iff that user is the non-empty assignee and the task is incomplete; the assignee keeps its name and email; no other user and no other id changes |
| `TaskRules.UpdatePending` | routes/tasks.js:77-80 | the four conditional list writes of PUT, in order; no user is added or removed, and a PUT that changes neither the assignee nor the completion leaves every list as it was |
| `TaskRules.UpdateWrites` | routes/tasks.js:76-80 | the list writes PUT logs after saving: at most four, each an `addToPending` or `removeFromPending` of this task on the previous or the new assignee (never the empty id), and none when neither the assignee nor the completion changes |
| `TaskRules.UpdateWritesReplay` | routes/tasks.js:77-80 | replaying the logged writes in order on the users gives exactly the users map `UpdatePending` describes |
| `TaskRules.UpdatePendingFrame` | routes/tasks.js:76-80 | the PUT writes change no user other than the previous and new assignees, no name or email, and no membership of any other task id |
| `TaskRules.UpdateLeavesOldAssignee` | routes/tasks.js:77 | a non-empty previous assignee that differs from the new one no longer lists the id |
| `TaskRules.UpdateJoinsNewAssignee` | routes/tasks.js:78 | a new non-empty assignee of an incomplete task lists the id afterwards |
| `TaskRules.UpdateCompletionChange` | routes/tasks.js:79-80 | with an existing assignee, a completion change from false to true removes the id, and from true to false adds it back |
| `TaskRules.UpdateKeepsMirror` | routes/tasks.js:68-80 | suppose the old and new assignees beforehand list the id iff they are the old assignee of an incomplete task; afterwards they list it iff they are the new assignee and the task is incomplete |
| `TaskRules.DeletePending` | routes/tasks.js:91 | deleting an assigned, incomplete task removes its id from the assignee's list; deleting a completed or unassigned task changes no list at all; the assignee keeps its name and email; no other user and no other id changes |
| `UserRules.UpdateMany` | routes/users.js:46-49 | `Task.updateMany` with `$set`: every matching task gets the given assignee and name; non-matching tasks are unchanged; no other field changes; no task is added or removed |
| `UserRules.Updated` | routes/users.js:97-104 | one document under `updateMany` with `$set`: a task that matches the filter gets the new assignee and name; any other task is untouched; name, description, deadline and completion never change |
| `UserRules.EmailCheckMatchesIndex` | routes/users.js:39-42 | any clash with another user's email is caught by the `findOne` check; for an id no user has, as on POST, that check is exactly the unique-index condition, so a create that passes it never breaks the index |
| `UserRules.OwnEmailNoClash` | routes/users.js:94 | with unique emails, saving a user with its own email never clashes, and saving it with another user's email always does (the save that fails on the unique index) |
| `UserRules.CreateUserTasks` | routes/users.js:45-50 | after a user create, every existing listed task points at the new user under its name; every other task is unchanged; no task changes anything but `assignedUser` and `assignedUserName` |
| `UserRules.UpdateUserAssignedIff` | routes/users.js:97-104 | after a user update, an existing task has `assignedUser` equal to this user's id iff its id is in the new `pendingTasks` |
| `UserRules.UpdateUserTasks` | routes/users.js:97-104 | after a user update, tasks that this user held but no longer lists become `""` / `"unassigned"`; listed tasks point at the user and carry its current name; all other tasks are unchanged; no task changes anything but `assignedUser` and `assignedUserName` |
| `UserRules.DeleteUserTasks` | routes/users.js:122-125 | after a user delete, every task of the deleted user becomes `""` / `"unassigned"`, whatever its completion; all other tasks are unchanged; no task changes anything but `assignedUser` and `assignedUserName` |
| `Consistency.CreateTaskPreserves` | routes/tasks.js:37-42 | creating a task keeps the relationship "a user lists a task iff the task is its incomplete assigned task" |
| `Consistency.UpdateTaskPreserves` | routes/tasks.js:68-80 | updating a task keeps that relationship |
| `Consistency.DeleteTaskPreserves` | routes/tasks.js:89-91 | deleting a task keeps that relationship |
| `Consistency.CreateUserPreserves` | routes/users.js:44-50 | creating a user keeps the relationship if its list names only existing, incomplete tasks that no existing user holds, and includes every incomplete task already pointing at the new id |
| `Consistency.UpdateUserPreserves` | routes/users.js:91-104 | updating a user keeps the relationship if its new list names only existing, incomplete tasks held by this user or by no existing user |
| `Consistency.UpdateUserLeavesStaleEntry` | routes/users.js:97-104 | claiming a task that another user lists leaves it in that user's list while the task points at the claimant, so the relationship breaks |
| `Consistency.CreateUserLeavesStaleEntry` | routes/users.js:44-50 | creating a user whose list claims a task that an existing user lists leaves it in that user's list while the task points at the new user, so the relationship breaks |
| `Consistency.DeleteUserPreserves` | routes/users.js:119-125 | deleting a user keeps the relationship |
| `Store.Store.AddToPending` | routes/tasks.js:8-11 | the users map becomes `AddPending` of the old one; one `$addToSet` command is issued unless the user id is empty |
| `Store.Store.RemoveFromPending` | routes/tasks.js:12-15 | the users map becomes `RemovePending` of the old one; one `$pull` command is issued unless the user id is empty |
| `Store.Store.UpdateManyTasks` | routes/users.js:97-104 | a loop over the task keys rewrites every matching task; the result equals `UpdateMany` of the old tasks; one command is issued |
| `Store.Store.ReconcileUpdate` | routes/tasks.js:76-80 | the four conditional list writes leave the users map equal to `UpdatePending` and append exactly `UpdateWrites` to the log |
| `Store.Store.CreateTask` | routes/tasks.js:32-45 | a missing name or deadline gives BadRequest with no write; otherwise Created, the task is inserted, then the assignee's list is updated; the relationship is kept; emails stay unique |
| `Store.Store.UpdateTask` | routes/tasks.js:60-84 | a missing name or deadline gives BadRequest, and an unknown id gives NotFound, both with no write; otherwise Ok, the task is replaced and saved first, then the list writes `UpdateWrites` follow in order; the relationship is kept |
| `Store.Store.DeleteTask` | routes/tasks.js:87-94 | an unknown id gives NotFound with no change; otherwise Ok, the task is gone and the assignee's list is updated after the delete; the relationship is kept |
| `Store.Store.CreateUser` | routes/users.js:32-56 | a missing name or email, or an email already in use, gives BadRequest with no write; otherwise Created; the user is stored with the given list (default `[]`), then the listed tasks are claimed (only if the list is non-empty); emails stay unique |
| `Store.Store.GetUser` | routes/users.js:59-75 | a malformed id gives BadRequest before any read; an unknown id gives NotFound; otherwise Ok with the stored user |
| `Store.Store.UpdateUser` | routes/users.js:78-110 | a malformed id or a missing name or email gives BadRequest, and an unknown id gives NotFound, all with no write; an email held by another user gives ServerError with no change, the rejected save being logged; otherwise Ok, and the user (a non-array list stored as `[]`) is saved before the two task rewrites, in that order |
| `Store.Store.DeleteUser` | routes/users.js:113-131 | a malformed id gives BadRequest with no write; an unknown id gives NotFound with no change; otherwise Ok, the user is removed, then its tasks are released; the relationship is kept |

## Left out

- The GET list handlers, GET of a single task, and the `select` projection
  on GET of a user. They pass query parameters straight to the database
  and contain no logic of their own.
- The query-string helpers in query.js (`JSON.parse` / `parseInt` wrappers).
- The schema in models/user.js, beyond the store invariant that emails are
  unique. Email lower-casing, trimming and the format check are not
  modelled. Emails are compared as given.
- `isValidId`: the id-format check is a parameter, not the real ObjectId
  rule.
- Deadlines are the client's string, and `dateCreated` is not modelled.
  The store's cast to a date is not modelled.
- Request fields are typed: names, emails and deadlines are optional
  strings, `completed` is an optional boolean, and lists are lists of ids.
  Falsy non-string values, such as a numeric `0` deadline, are not
  representable.
- Store.Store.CreateUser: a `pendingTasks` that is not an array is not
  representable on create. Mongoose casts it, and the handler then issues
  `$in` on the raw value.
- Ids are assumed to be in their canonical `_id.toString()` form and are
  compared as exact strings. The database casts every `_id` filter to an
  ObjectId (`findById`, `findByIdAndDelete`, `$in`, `$nin`, and the
  `updateOne` in `addToPending` / `removeFromPending`). So in the system the
  same document can also be reached under another spelling, such as a
  24-digit hex id in upper case. The model does not capture this: such an
  id matches nothing, and a list entry in that spelling is never pulled by
  the canonical id.
- Cast errors: a malformed task id in the task routes, or in an
  `updateOne` / `updateMany` filter, makes the store throw. The handler
  then answers 500, and if the throw comes after the primary write, that
  write persists. In the model such an id simply matches nothing.
- Concurrency between requests, failure between the primary and the
  secondary writes, and the Express error middleware (`next(e)`).
- JSON response bodies and messages. Only the status is modelled.
