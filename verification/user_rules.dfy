/** What the user handlers (POST, PUT and DELETE on /api/users) write: the
    validation they do, the stored user, and the task collection after the
    `Task.updateMany` rewrites of `assignedUser` / `assignedUserName`. */
module UserRules {
  import opened Types

  /** Whether a task document matches an `updateMany` filter. */
  predicate Matches(f: Filter, id: TaskId, t: Task) {
    match f
    case IdIn(ids) => id in ids
    case AssignedTo(u) => t.assignedUser == u
    case AssignedToAndIdNotIn(u, ids) => t.assignedUser == u && id !in ids
  }

  /** One document under `updateMany(f, {$set: {assignedUser: user, assignedUserName: name}})`:
      a matching task gets the new assignment, any other task is untouched,
      and the name, description, deadline and completion never change. */
  function Updated(f: Filter, id: TaskId, t: Task, user: UserId, name: string): (r: Task)
    ensures Matches(f, id, t) ==> r.assignedUser == user && r.assignedUserName == name
    ensures !Matches(f, id, t) ==> r == t
    ensures r.name == t.name && r.description == t.description && r.deadline == t.deadline && r.completed == t.completed
  {
    if Matches(f, id, t) then t.(assignedUser := user, assignedUserName := name) else t
  }

  /** The whole task collection under that `updateMany`: every matching task
      gets the new assignment, every other task is left alone, and no other
      field changes. */
  function UpdateMany(tasks: map<TaskId, Task>, f: Filter, user: UserId, name: string): (r: map<TaskId, Task>)
    ensures r.Keys == tasks.Keys
    ensures forall k :: k in tasks && Matches(f, k, tasks[k]) ==>
      r[k].assignedUser == user && r[k].assignedUserName == name
    ensures forall k :: k in tasks && !Matches(f, k, tasks[k]) ==> r[k] == tasks[k]
    ensures forall k :: k in tasks ==>
      r[k].name == tasks[k].name && r[k].description == tasks[k].description &&
      r[k].deadline == tasks[k].deadline && r[k].completed == tasks[k].completed
  {
    map k | k in tasks :: Updated(f, k, tasks[k], user, name)
  }

  /** The guard of POST and PUT: `name` and `email` must be truthy, so an
      omitted or empty one is rejected. */
  predicate HasNameAndEmail(name: Option<string>, email: Option<string>) {
    Present(name) && Present(email)
  }

  /** `User.findOne({email})` finds someone. */
  predicate EmailTaken(users: map<UserId, User>, email: string) {
    exists v :: v in users && users[v].email == email
  }

  /** Saving user `id` with `email` would break the unique index on emails. */
  predicate EmailHeldByOther(users: map<UserId, User>, id: UserId, email: string) {
    exists v :: v in users && v != id && users[v].email == email
  }

  /** No two users share an email: the unique index on `email`. */
  ghost predicate UniqueEmails(users: map<UserId, User>) {
    forall v, w :: v in users && w in users && users[v].email == users[w].email ==> v == w
  }

  /** For an id no user has, as on POST, the `findOne` check is exactly the
      unique-index condition, so a create that passes it never breaks the
      index; for any id, a clash with another user is caught by `findOne`. */
  lemma EmailCheckMatchesIndex(users: map<UserId, User>, id: UserId, email: string)
    ensures EmailHeldByOther(users, id, email) ==> EmailTaken(users, email)
    ensures id !in users ==> (EmailTaken(users, email) <==> EmailHeldByOther(users, id, email))
  {
  }

  /** With unique emails, a PUT that keeps the user's own email never clashes
      with another user, while any other user's email always does. */
  lemma OwnEmailNoClash(users: map<UserId, User>, id: UserId, w: UserId)
    requires UniqueEmails(users) && id in users && w in users
    ensures !EmailHeldByOther(users, id, users[id].email)
    ensures w != id ==> EmailHeldByOther(users, id, users[w].email)
  {
  }

  /** The list PUT stores: the array sent, or `[]` when it was omitted or not an array. */
  function StoredPending(p: IdList): seq<TaskId> {
    match p
    case List(ids) => ids
    case _ => []
  }

  /** The tasks after POST created user `uid` named `name` with list `ids`:
      every existing listed task now points at the new user under its name;
      every other task is unchanged, and only the assignment fields ever
      change. */
  function CreateUserTasks(tasks: map<TaskId, Task>, uid: UserId, name: string, ids: seq<TaskId>): (r: map<TaskId, Task>)
    ensures r.Keys == tasks.Keys
    ensures forall k :: k in tasks && k in ids ==> r[k].assignedUser == uid && r[k].assignedUserName == name
    ensures forall k :: k in tasks && k !in ids ==> r[k] == tasks[k]
    ensures forall k :: k in tasks ==>
      r[k].(assignedUser := tasks[k].assignedUser, assignedUserName := tasks[k].assignedUserName) == tasks[k]
  {
    if |ids| > 0 then UpdateMany(tasks, IdIn(ids), uid, name) else tasks
  }

  /** The tasks after PUT saved user `uid` with `name` and list `ids`: first
      the tasks of `uid` that are not listed are released, then the listed
      tasks are claimed. So a task of `uid` that is no longer listed is
      released, a listed task carries the user's current name, a task neither
      listed nor held by `uid` is unchanged, and only the assignment fields
      ever change. */
  function UpdateUserTasks(tasks: map<TaskId, Task>, uid: UserId, name: string, ids: seq<TaskId>): (r: map<TaskId, Task>)
    ensures r.Keys == tasks.Keys
    ensures forall k :: k in tasks && k !in ids && tasks[k].assignedUser == uid ==>
      r[k].assignedUser == "" && r[k].assignedUserName == Unassigned
    ensures forall k :: k in tasks && k in ids ==> r[k].assignedUser == uid && r[k].assignedUserName == name
    ensures forall k :: k in tasks && k !in ids && tasks[k].assignedUser != uid ==> r[k] == tasks[k]
    ensures forall k :: k in tasks ==>
      r[k].(assignedUser := tasks[k].assignedUser, assignedUserName := tasks[k].assignedUserName) == tasks[k]
  {
    UpdateMany(UpdateMany(tasks, AssignedToAndIdNotIn(uid, ids), "", Unassigned), IdIn(ids), uid, name)
  }

  /** The tasks after DELETE removed user `uid`: every task of `uid`,
      completed or not, is released; every other task is unchanged, and only
      the assignment fields ever change. */
  function DeleteUserTasks(tasks: map<TaskId, Task>, uid: UserId): (r: map<TaskId, Task>)
    ensures r.Keys == tasks.Keys
    ensures forall k :: k in tasks && tasks[k].assignedUser == uid ==>
      r[k].assignedUser == "" && r[k].assignedUserName == Unassigned
    ensures forall k :: k in tasks && tasks[k].assignedUser != uid ==> r[k] == tasks[k]
    ensures forall k :: k in tasks ==>
      r[k].(assignedUser := tasks[k].assignedUser, assignedUserName := tasks[k].assignedUserName) == tasks[k]
  {
    UpdateMany(tasks, AssignedTo(uid), "", Unassigned)
  }

  /** Update: afterwards a task points at `uid` exactly when it is listed. */
  lemma UpdateUserAssignedIff(tasks: map<TaskId, Task>, uid: UserId, name: string, ids: seq<TaskId>)
    requires uid != ""
    ensures var r := UpdateUserTasks(tasks, uid, name, ids);
      && r.Keys == tasks.Keys
      && (forall k :: k in tasks ==> (r[k].assignedUser == uid <==> k in ids))
  {
  }
}
