/** The relationship the handlers try to maintain between the two
    collections: a user's `pendingTasks` lists exactly the incomplete tasks
    assigned to that user. Which handlers keep it, and under what
    conditions on the request. */
module Consistency {
  import opened Types
  import opened Pending
  import opened TaskRules
  import opened UserRules

  /** Task `k` exists, is assigned to `u` and is not completed. */
  ghost predicate Owns(tasks: map<TaskId, Task>, u: UserId, k: TaskId) {
    k in tasks && tasks[k].assignedUser == u && !tasks[k].completed
  }

  /** Every user's `pendingTasks` holds exactly the ids of its incomplete tasks. */
  ghost predicate Consistent(tasks: map<TaskId, Task>, users: map<UserId, User>) {
    forall u, k :: u in users ==> (k in users[u].pendingTasks <==> Owns(tasks, u, k))
  }

  /** POST on tasks keeps the relationship. */
  lemma CreateTaskPreserves(tasks: map<TaskId, Task>, users: map<UserId, User>, id: TaskId, t: Task)
    requires Consistent(tasks, users) && "" !in users && id !in tasks
    ensures Consistent(tasks[id := t], CreatePending(users, id, t))
  {
  }

  /** PUT on tasks keeps the relationship. */
  lemma UpdateTaskPreserves(tasks: map<TaskId, Task>, users: map<UserId, User>, id: TaskId, t: Task)
    requires Consistent(tasks, users) && "" !in users && id in tasks
    ensures Consistent(tasks[id := t],
                       UpdatePending(users, id, tasks[id].assignedUser, tasks[id].completed, t.assignedUser, t.completed))
  {
  }

  /** DELETE on tasks keeps the relationship. */
  lemma DeleteTaskPreserves(tasks: map<TaskId, Task>, users: map<UserId, User>, id: TaskId)
    requires Consistent(tasks, users) && "" !in users && id in tasks
    ensures Consistent(tasks - {id}, DeletePending(users, id, tasks[id]))
  {
  }

  /** The list a new user `uid` is created with names only existing,
      incomplete tasks that no existing user holds, and every incomplete task
      already pointing at `uid` is listed. */
  ghost predicate ClaimableOnCreate(tasks: map<TaskId, Task>, users: map<UserId, User>, uid: UserId, ids: seq<TaskId>) {
    && (forall k :: k in ids ==> k in tasks && !tasks[k].completed && tasks[k].assignedUser !in users)
    && (forall k :: Owns(tasks, uid, k) ==> k in ids)
  }

  /** The list user `uid` is saved with names only existing, incomplete
      tasks held by `uid` or by no existing user. */
  ghost predicate ClaimableOnUpdate(tasks: map<TaskId, Task>, users: map<UserId, User>, uid: UserId, ids: seq<TaskId>) {
    forall k :: k in ids ==>
      k in tasks && !tasks[k].completed && (tasks[k].assignedUser == uid || tasks[k].assignedUser !in users)
  }

  /** POST on users keeps the relationship when its list is claimable. */
  lemma CreateUserPreserves(tasks: map<TaskId, Task>, users: map<UserId, User>, uid: UserId, u: User)
    requires Consistent(tasks, users) && uid != "" && uid !in users
    requires ClaimableOnCreate(tasks, users, uid, u.pendingTasks)
    ensures Consistent(CreateUserTasks(tasks, uid, u.name, u.pendingTasks), users[uid := u])
  {
  }

  /** PUT on users keeps the relationship when its list is claimable. */
  lemma UpdateUserPreserves(tasks: map<TaskId, Task>, users: map<UserId, User>, uid: UserId, u: User)
    requires Consistent(tasks, users) && "" !in users && uid in users
    requires ClaimableOnUpdate(tasks, users, uid, u.pendingTasks)
    ensures Consistent(UpdateUserTasks(tasks, uid, u.name, u.pendingTasks), users[uid := u])
  {
  }

  /** PUT on users does not touch the previous holder of a task it claims:
      that user keeps the id while the task now points elsewhere, so the
      relationship breaks. */
  lemma UpdateUserLeavesStaleEntry(tasks: map<TaskId, Task>, users: map<UserId, User>, uid: UserId, u: User, w: UserId, k: TaskId)
    requires uid != "" && uid in users && w in users && w != uid && k in tasks && k in u.pendingTasks
    requires k in users[w].pendingTasks
    ensures k in users[uid := u][w].pendingTasks
    ensures UpdateUserTasks(tasks, uid, u.name, u.pendingTasks)[k].assignedUser == uid
    ensures !Consistent(UpdateUserTasks(tasks, uid, u.name, u.pendingTasks), users[uid := u])
  {
  }

  /** POST on users does not touch the previous holder of a task it claims
      either: that user keeps the id while the task points at the new user. */
  lemma CreateUserLeavesStaleEntry(tasks: map<TaskId, Task>, users: map<UserId, User>, uid: UserId, u: User, w: UserId, k: TaskId)
    requires uid != "" && uid !in users && w in users && k in tasks && k in u.pendingTasks
    requires k in users[w].pendingTasks
    ensures k in users[uid := u][w].pendingTasks
    ensures CreateUserTasks(tasks, uid, u.name, u.pendingTasks)[k].assignedUser == uid
    ensures !Consistent(CreateUserTasks(tasks, uid, u.name, u.pendingTasks), users[uid := u])
  {
  }

  /** DELETE on users keeps the relationship. */
  lemma DeleteUserPreserves(tasks: map<TaskId, Task>, users: map<UserId, User>, uid: UserId)
    requires Consistent(tasks, users) && "" !in users
    ensures Consistent(DeleteUserTasks(tasks, uid), users - {uid})
  {
  }
}
