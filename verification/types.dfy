/** The records of the task/user API: the two stored documents, the request
    bodies the mutating handlers read, the HTTP outcome, the filters of a
    bulk task update and the database writes a handler issues. */
module Types {

  /** Ids are compared as exact strings, in their canonical `_id.toString()`
      form; the empty string stands for "no user". */
  type TaskId = string
  type UserId = string

  /** A deadline is kept as the value the client sent; the store's cast to a
      date is outside the model. */
  type Date = string

  /** The display name a task carries while it has no assignee. */
  const Unassigned: string := "unassigned"

  datatype Option<T> = None | Some(value: T) {
    /** The value, or `default` when the field was omitted (a destructuring default). */
    function GetOr(default: T): T {
      match this
      case Some(v) => v
      case None => default
    }
  }

  /** JavaScript truthiness of an optional string field: present and non-empty. */
  predicate Present(s: Option<string>) {
    s.Some? && s.value != ""
  }

  /** The HTTP status a handler answers with. */
  datatype Status = Ok | Created | BadRequest | NotFound | ServerError

  /** A stored task; its id is its key in the task collection. */
  datatype Task = Task(
    name: string,
    description: string,
    deadline: Date,
    completed: bool,
    assignedUser: UserId,
    assignedUserName: string)

  /** A stored user; its id is its key in the user collection. */
  datatype User = User(name: string, email: string, pendingTasks: seq<TaskId>)

  /** The body of POST and PUT on tasks; `None` is a field the client omitted. */
  datatype TaskBody = TaskBody(
    name: Option<string>,
    description: Option<string>,
    deadline: Option<Date>,
    completed: Option<bool>,
    assignedUser: Option<UserId>,
    assignedUserName: Option<string>)

  /** The body of POST on users. */
  datatype NewUserBody = NewUserBody(name: Option<string>, email: Option<string>, pendingTasks: Option<seq<TaskId>>)

  /** The `pendingTasks` field of a PUT on users: omitted, an array, or some other JSON value. */
  datatype IdList = Omitted | List(ids: seq<TaskId>) | NotAList

  /** The body of PUT on users. */
  datatype UserBody = UserBody(name: Option<string>, email: Option<string>, pendingTasks: IdList)

  /** The filter of a `Task.updateMany`:
      `{_id: {$in: ids}}`, `{assignedUser: user}` or `{assignedUser: user, _id: {$nin: ids}}`. */
  datatype Filter =
    | IdIn(ids: seq<TaskId>)
    | AssignedTo(user: UserId)
    | AssignedToAndIdNotIn(user: UserId, ids: seq<TaskId>)

  /** One database write, in the order a handler awaits it. */
  datatype Write =
    | TaskInserted(task: TaskId)
    | TaskSaved(task: TaskId)
    | TaskRemoved(task: TaskId)
    | UserInserted(user: UserId)
    | UserSaved(user: UserId)
    | UserRemoved(user: UserId)
    | PendingAdded(user: UserId, task: TaskId)    // User.updateOne with $addToSet
    | PendingPulled(user: UserId, task: TaskId)   // User.updateOne with $pull
    | TasksUpdated(filter: Filter, user: UserId, userName: string)  // Task.updateMany with $set
}
