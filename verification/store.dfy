/** The in-memory store the route handlers act on: the task and user
    collections, and the handlers of POST, PUT and DELETE on /api/tasks and
    /api/users (plus GET on /api/users/:id for its id check), each a
    sequence of awaited database writes. */
module Store {
  import opened Types
  import opened Pending
  import opened TaskRules
  import opened UserRules
  import opened Consistency

  /** What the guards of POST and PUT secure: every stored task has a
      non-empty name and deadline, every stored user a non-empty name and
      email. */
  ghost predicate RequiredFieldsStored(tasks: map<TaskId, Task>, users: map<UserId, User>) {
    && (forall k :: k in tasks ==> tasks[k].name != "" && tasks[k].deadline != "")
    && (forall v :: v in users ==> users[v].name != "" && users[v].email != "")
  }

  class Store {
    var tasks: map<TaskId, Task>
    var users: map<UserId, User>
    /** Every write command sent to the database, in the order it was
        awaited, whether or not it matched a document or was rejected. */
    ghost var issued: seq<Write>

    /** Ids the database assigns are never empty, emails are unique, and the
        required fields of every stored document are present. */
    ghost predicate Valid()
      reads this
    {
      "" !in tasks && "" !in users && UniqueEmails(users) && RequiredFieldsStored(tasks, users)
    }

    constructor ()
      ensures Valid() && tasks == map[] && users == map[] && issued == []
    {
      tasks, users, issued := map[], map[], [];
    }

    /** `addToPending` (routes/tasks.js): a `$addToSet` on one user's list. */
    method AddToPending(userId: UserId, taskId: TaskId)
      modifies this`users, this`issued
      ensures users == AddPending(old(users), userId, taskId)
      ensures issued == old(issued) + if userId == "" then [] else [PendingAdded(userId, taskId)]
    {
      if userId == "" {
        return;
      }
      if userId in users {
        var u := users[userId];
        users := users[userId := u.(pendingTasks := AddToSet(u.pendingTasks, taskId))];
      }
      issued := issued + [PendingAdded(userId, taskId)];
    }

    /** `removeFromPending` (routes/tasks.js): a `$pull` on one user's list. */
    method RemoveFromPending(userId: UserId, taskId: TaskId)
      modifies this`users, this`issued
      ensures users == RemovePending(old(users), userId, taskId)
      ensures issued == old(issued) + if userId == "" then [] else [PendingPulled(userId, taskId)]
    {
      if userId == "" {
        return;
      }
      if userId in users {
        var u := users[userId];
        users := users[userId := u.(pendingTasks := Pull(u.pendingTasks, taskId))];
      }
      issued := issued + [PendingPulled(userId, taskId)];
    }

    /** `Task.updateMany(f, {$set: {assignedUser: user, assignedUserName: name}})`:
        every matching task is rewritten, one document at a time. */
    method UpdateManyTasks(f: Filter, user: UserId, name: string)
      modifies this`tasks, this`issued
      ensures tasks == UpdateMany(old(tasks), f, user, name)
      ensures issued == old(issued) + [TasksUpdated(f, user, name)]
    {
      var todo := tasks.Keys;
      var result := tasks;
      while todo != {}
        invariant todo <= tasks.Keys && result.Keys == tasks.Keys
        invariant forall k :: k in tasks && k !in todo ==> result[k] == Updated(f, k, tasks[k], user, name)
        invariant forall k :: k in todo ==> result[k] == tasks[k]
        decreases todo
      {
        var k :| k in todo;
        if Matches(f, k, tasks[k]) {
          result := result[k := tasks[k].(assignedUser := user, assignedUserName := name)];
        }
        todo := todo - {k};
      }
      assert result == UpdateMany(tasks, f, user, name);
      tasks := result;
      issued := issued + [TasksUpdated(f, user, name)];
    }

    /** POST /api/tasks, creating the task the database names `newId`. */
    method CreateTask(newId: TaskId, body: TaskBody) returns (status: Status)
      requires Valid() && newId != "" && newId !in tasks
      modifies this`tasks, this`users, this`issued
      ensures Valid()
      ensures !HasRequired(body) ==>
        status == BadRequest && tasks == old(tasks) && users == old(users) && issued == old(issued)
      ensures HasRequired(body) ==>
        var t := TaskFromBody(body);
        && status == Created
        && tasks == old(tasks)[newId := t]
        && users == CreatePending(old(users), newId, t)
        && issued == old(issued) + [TaskInserted(newId)] +
             if t.assignedUser != "" && !t.completed then [PendingAdded(t.assignedUser, newId)] else []
      ensures Consistent(old(tasks), old(users)) ==> Consistent(tasks, users)
    {
      if !HasRequired(body) {
        return BadRequest;
      }
      var t := TaskFromBody(body);
      tasks := tasks[newId := t];
      issued := issued + [TaskInserted(newId)];
      if t.assignedUser != "" && !t.completed {
        AddToPending(t.assignedUser, newId);
      }
      status := Created;
      if Consistent(old(tasks), old(users)) {
        CreateTaskPreserves(old(tasks), old(users), newId, t);
      }
    }

    /** The four conditional list writes of PUT /api/tasks/:id, in order. */
    method ReconcileUpdate(id: TaskId, prevA: UserId, prevC: bool, newA: UserId, newC: bool)
      modifies this`users, this`issued
      ensures users == UpdatePending(old(users), id, prevA, prevC, newA, newC)
      ensures issued == old(issued) + UpdateWrites(id, prevA, prevC, newA, newC)
    {
      if prevA != "" && prevA != newA {
        RemoveFromPending(prevA, id);
      }
      ghost var w1 := issued;
      if newA != "" && newA != prevA && !newC {
        AddToPending(newA, id);
      }
      ghost var w2 := issued;
      if !prevC && newC && newA != "" {
        RemoveFromPending(newA, id);
      }
      ghost var w3 := issued;
      if prevC && !newC && newA != "" {
        AddToPending(newA, id);
      }
      assert issued == old(issued) + (w1[|old(issued)|..] + w2[|w1|..] + w3[|w2|..] + issued[|w3|..]);
    }

    /** PUT /api/tasks/:id: the task is saved first, then the list writes of
        `UpdateWrites` on the old and new assignees, in order. */
    method UpdateTask(id: TaskId, body: TaskBody) returns (status: Status)
      requires Valid()
      modifies this`tasks, this`users, this`issued
      ensures Valid()
      ensures !HasRequired(body) || id !in old(tasks) ==>
        && status == (if HasRequired(body) then NotFound else BadRequest)
        && tasks == old(tasks) && users == old(users) && issued == old(issued)
      ensures HasRequired(body) && id in old(tasks) ==>
        var prev, t := old(tasks)[id], TaskFromBody(body);
        && status == Ok
        && tasks == old(tasks)[id := t]
        && users == UpdatePending(old(users), id, prev.assignedUser, prev.completed, t.assignedUser, t.completed)
        && issued == old(issued) + [TaskSaved(id)] +
             UpdateWrites(id, prev.assignedUser, prev.completed, t.assignedUser, t.completed)
      ensures Consistent(old(tasks), old(users)) ==> Consistent(tasks, users)
    {
      if !HasRequired(body) {
        return BadRequest;
      }
      if id !in tasks {
        return NotFound;
      }
      var prevAssigned, prevCompleted := tasks[id].assignedUser, tasks[id].completed;
      var t := TaskFromBody(body);
      tasks := tasks[id := t];
      issued := issued + [TaskSaved(id)];
      ReconcileUpdate(id, prevAssigned, prevCompleted, t.assignedUser, t.completed);
      UpdatePendingFrame(old(users), id, prevAssigned, prevCompleted, t.assignedUser, t.completed);
      status := Ok;
      if Consistent(old(tasks), old(users)) {
        UpdateTaskPreserves(old(tasks), old(users), id, t);
      }
    }

    /** DELETE /api/tasks/:id. */
    method DeleteTask(id: TaskId) returns (status: Status)
      requires Valid()
      modifies this`tasks, this`users, this`issued
      ensures Valid()
      ensures id !in old(tasks) ==>
        status == NotFound && tasks == old(tasks) && users == old(users) && issued == old(issued) + [TaskRemoved(id)]
      ensures id in old(tasks) ==>
        var t := old(tasks)[id];
        && status == Ok
        && tasks == old(tasks) - {id}
        && users == DeletePending(old(users), id, t)
        && issued == old(issued) + [TaskRemoved(id)] +
             if t.assignedUser != "" && !t.completed then [PendingPulled(t.assignedUser, id)] else []
      ensures Consistent(old(tasks), old(users)) ==> Consistent(tasks, users)
    {
      issued := issued + [TaskRemoved(id)];
      if id !in tasks {
        return NotFound;
      }
      var t := tasks[id];
      tasks := tasks - {id};
      if t.assignedUser != "" && !t.completed {
        RemoveFromPending(t.assignedUser, id);
      }
      status := Ok;
      if Consistent(old(tasks), old(users)) {
        DeleteTaskPreserves(old(tasks), old(users), id);
      }
    }

    /** POST /api/users, creating the user the database names `newId`. */
    method CreateUser(newId: UserId, body: NewUserBody) returns (status: Status)
      requires Valid() && newId != "" && newId !in users
      modifies this`tasks, this`users, this`issued
      ensures Valid()
      ensures !HasNameAndEmail(body.name, body.email) || EmailTaken(old(users), body.email.value) ==>
        status == BadRequest && tasks == old(tasks) && users == old(users) && issued == old(issued)
      ensures HasNameAndEmail(body.name, body.email) && !EmailTaken(old(users), body.email.value) ==>
        var ids := body.pendingTasks.GetOr([]);
        var name := body.name.value;
        && status == Created
        && users == old(users)[newId := User(name, body.email.value, ids)]
        && tasks == CreateUserTasks(old(tasks), newId, name, ids)
        && issued == old(issued) + [UserInserted(newId)] +
             if |ids| > 0 then [TasksUpdated(IdIn(ids), newId, name)] else []
      ensures status == Created && Consistent(old(tasks), old(users)) &&
              ClaimableOnCreate(old(tasks), old(users), newId, users[newId].pendingTasks) ==>
        Consistent(tasks, users)
    {
      if !HasNameAndEmail(body.name, body.email) {
        return BadRequest;
      }
      var name, email := body.name.value, body.email.value;
      if EmailTaken(users, email) {
        return BadRequest;
      }
      var ids := body.pendingTasks.GetOr([]);
      var u := User(name, email, ids);
      users := users[newId := u];
      issued := issued + [UserInserted(newId)];
      if |ids| > 0 {
        UpdateManyTasks(IdIn(ids), newId, name);
      }
      status := Created;
      if Consistent(old(tasks), old(users)) && ClaimableOnCreate(old(tasks), old(users), newId, ids) {
        CreateUserPreserves(old(tasks), old(users), newId, u);
      }
    }

    /** GET /api/users/:id, without the `select` projection. */
    method GetUser(isValidId: UserId -> bool, id: UserId) returns (status: Status, user: Option<User>)
      ensures !isValidId(id) ==> status == BadRequest && user == None
      ensures isValidId(id) && id !in users ==> status == NotFound && user == None
      ensures isValidId(id) && id in users ==> status == Ok && user == Some(users[id])
    {
      if !isValidId(id) {
        return BadRequest, None;
      }
      if id !in users {
        return NotFound, None;
      }
      return Ok, Some(users[id]);
    }

    /** PUT /api/users/:id: the user is saved, then the tasks it no longer
        lists are released, then the tasks it lists are claimed. */
    method UpdateUser(isValidId: UserId -> bool, id: UserId, body: UserBody) returns (status: Status)
      requires Valid()
      modifies this`tasks, this`users, this`issued
      ensures Valid()
      ensures !isValidId(id) || !HasNameAndEmail(body.name, body.email) ==>
        status == BadRequest && tasks == old(tasks) && users == old(users) && issued == old(issued)
      ensures isValidId(id) && HasNameAndEmail(body.name, body.email) && id !in old(users) ==>
        status == NotFound && tasks == old(tasks) && users == old(users) && issued == old(issued)
      ensures isValidId(id) && HasNameAndEmail(body.name, body.email) && id in old(users) &&
              EmailHeldByOther(old(users), id, body.email.value) ==>
        status == ServerError && tasks == old(tasks) && users == old(users) && issued == old(issued) + [UserSaved(id)]
      ensures isValidId(id) && HasNameAndEmail(body.name, body.email) && id in old(users) &&
              !EmailHeldByOther(old(users), id, body.email.value) ==>
        var ids := StoredPending(body.pendingTasks);
        var name := body.name.value;
        && status == Ok
        && users == old(users)[id := User(name, body.email.value, ids)]
        && tasks == UpdateUserTasks(old(tasks), id, name, ids)
        && issued == old(issued) + [UserSaved(id),
                                    TasksUpdated(AssignedToAndIdNotIn(id, ids), "", Unassigned),
                                    TasksUpdated(IdIn(ids), id, name)]
      ensures status == Ok && Consistent(old(tasks), old(users)) &&
              ClaimableOnUpdate(old(tasks), old(users), id, users[id].pendingTasks) ==>
        Consistent(tasks, users)
    {
      if !isValidId(id) {
        return BadRequest;
      }
      if !HasNameAndEmail(body.name, body.email) {
        return BadRequest;
      }
      if id !in users {
        return NotFound;
      }
      var name, email := body.name.value, body.email.value;
      if EmailHeldByOther(users, id, email) {
        // the save is sent, and the unique index on email makes it throw
        issued := issued + [UserSaved(id)];
        return ServerError;
      }
      var ids := StoredPending(body.pendingTasks);
      var u := User(name, email, ids);
      users := users[id := u];
      issued := issued + [UserSaved(id)];
      UpdateManyTasks(AssignedToAndIdNotIn(id, ids), "", Unassigned);
      UpdateManyTasks(IdIn(ids), id, name);
      status := Ok;
      if Consistent(old(tasks), old(users)) && ClaimableOnUpdate(old(tasks), old(users), id, ids) {
        UpdateUserPreserves(old(tasks), old(users), id, u);
      }
    }

    /** DELETE /api/users/:id: the user is removed, then every task that
        pointed at it is released. */
    method DeleteUser(isValidId: UserId -> bool, id: UserId) returns (status: Status)
      requires Valid()
      modifies this`tasks, this`users, this`issued
      ensures Valid()
      ensures !isValidId(id) ==>
        status == BadRequest && tasks == old(tasks) && users == old(users) && issued == old(issued)
      ensures isValidId(id) && id !in old(users) ==>
        status == NotFound && tasks == old(tasks) && users == old(users) && issued == old(issued) + [UserRemoved(id)]
      ensures isValidId(id) && id in old(users) ==>
        && status == Ok
        && users == old(users) - {id}
        && tasks == DeleteUserTasks(old(tasks), id)
        && issued == old(issued) + [UserRemoved(id), TasksUpdated(AssignedTo(id), "", Unassigned)]
      ensures Consistent(old(tasks), old(users)) ==> Consistent(tasks, users)
    {
      if !isValidId(id) {
        return BadRequest;
      }
      issued := issued + [UserRemoved(id)];
      if id !in users {
        return NotFound;
      }
      users := users - {id};
      UpdateManyTasks(AssignedTo(id), "", Unassigned);
      status := Ok;
      if Consistent(old(tasks), old(users)) {
        DeleteUserPreserves(old(tasks), old(users), id);
      }
    }
  }
}
