/** What the task handlers (POST, PUT and DELETE on /api/tasks) write: the
    stored task built from the request body, and the `pendingTasks` lists
    after the handler's secondary writes. */
module TaskRules {
  import opened Types
  import opened Pending

  /** The guard of POST and PUT: `name` and `deadline` must be truthy. */
  predicate HasRequired(b: TaskBody) {
    Present(b.name) && Present(b.deadline)
  }

  /** The task POST creates and PUT writes over the old one: every field
      replaced, omitted fields taking their defaults, and the client's
      `assignedUserName` kept only when there is an assignee. */
  function TaskFromBody(b: TaskBody): (t: Task)
    requires HasRequired(b)
    ensures t.name == b.name.value && t.deadline == b.deadline.value
    ensures b.description.None? ==> t.description == ""
    ensures b.description.Some? ==> t.description == b.description.value
    ensures t.completed <==> b.completed == Some(true)
    ensures b.assignedUser.None? ==> t.assignedUser == ""
    ensures b.assignedUser.Some? ==> t.assignedUser == b.assignedUser.value
    ensures t.assignedUser == "" ==> t.assignedUserName == Unassigned
    ensures t.assignedUser != "" && b.assignedUserName.Some? ==> t.assignedUserName == b.assignedUserName.value
    ensures t.assignedUser != "" && b.assignedUserName.None? ==> t.assignedUserName == Unassigned
  {
    var assignee := b.assignedUser.GetOr("");
    Task(b.name.value, b.description.GetOr(""), b.deadline.value, b.completed.GetOr(false),
         assignee, if assignee != "" then b.assignedUserName.GetOr(Unassigned) else Unassigned)
  }

  /** The users after POST has created task `id` as `t`: the new id joins a
      user's list exactly when that user is the assignee and the task is not
      completed; nothing else changes. */
  function CreatePending(users: map<UserId, User>, id: TaskId, t: Task): (r: map<UserId, User>)
    ensures r.Keys == users.Keys
    ensures forall v :: v in users && v != t.assignedUser ==> r[v] == users[v]
    ensures t.assignedUser in users ==>
      r[t.assignedUser].name == users[t.assignedUser].name && r[t.assignedUser].email == users[t.assignedUser].email
    ensures forall v, k :: v in users && v != "" ==>
      (k in r[v].pendingTasks <==> k in users[v].pendingTasks || (k == id && v == t.assignedUser && !t.completed))
  {
    if t.assignedUser != "" && !t.completed then AddPending(users, t.assignedUser, id) else users
  }

  /** The users after PUT has changed task `id` from assignee `prevA` and
      completion `prevC` to `newA` and `newC`: the four conditional writes,
      in the order the handler issues them. A PUT that changes neither the
      assignee nor the completion leaves every list as it was. */
  function UpdatePending(users: map<UserId, User>, id: TaskId, prevA: UserId, prevC: bool,
                         newA: UserId, newC: bool): (r: map<UserId, User>)
    ensures r.Keys == users.Keys
    ensures prevA == newA && prevC == newC ==> r == users
  {
    var u1 := if prevA != "" && prevA != newA then RemovePending(users, prevA, id) else users;
    var u2 := if newA != "" && newA != prevA && !newC then AddPending(u1, newA, id) else u1;
    var u3 := if !prevC && newC && newA != "" then RemovePending(u2, newA, id) else u2;
    if prevC && !newC && newA != "" then AddPending(u3, newA, id) else u3
  }

  /** Every write in `ws` is an `addToPending` or `removeFromPending` of task
      `id` on one of the users `x` and `y`, never on the empty id. */
  predicate OnlyListWritesFor(ws: seq<Write>, id: TaskId, x: UserId, y: UserId) {
    forall i :: 0 <= i < |ws| ==>
      (ws[i].PendingAdded? || ws[i].PendingPulled?) && ws[i].task == id &&
      ws[i].user != "" && (ws[i].user == x || ws[i].user == y)
  }

  /** The list writes PUT issues after saving task `id`, in order: at most
      four, each an `addToPending` or `removeFromPending` of this task on the
      previous or the new assignee, and none when neither the assignee nor
      the completion changes. */
  function UpdateWrites(id: TaskId, prevA: UserId, prevC: bool, newA: UserId, newC: bool): (ws: seq<Write>)
    ensures |ws| <= 4 && OnlyListWritesFor(ws, id, prevA, newA)
    ensures prevA == newA && prevC == newC ==> ws == []
  {
    (if prevA != "" && prevA != newA then [PendingPulled(prevA, id)] else []) +
    (if newA != "" && newA != prevA && !newC then [PendingAdded(newA, id)] else []) +
    (if !prevC && newC && newA != "" then [PendingPulled(newA, id)] else []) +
    (if prevC && !newC && newA != "" then [PendingAdded(newA, id)] else [])
  }

  /** The effect of one `addToPending` or `removeFromPending` write on the
      users; any other write leaves the lists alone. */
  function ApplyListWrite(users: map<UserId, User>, w: Write): map<UserId, User> {
    match w
    case PendingAdded(u, t) => AddPending(users, u, t)
    case PendingPulled(u, t) => RemovePending(users, u, t)
    case _ => users
  }

  /** The list writes of `ws` replayed on `users` in order. */
  function ReplayListWrites(users: map<UserId, User>, ws: seq<Write>): map<UserId, User>
    decreases |ws|
  {
    if ws == [] then users else ReplayListWrites(ApplyListWrite(users, ws[0]), ws[1..])
  }

  /** Replaying two logs one after the other is replaying their concatenation. */
  lemma {:induction false} ReplayAppend(users: map<UserId, User>, a: seq<Write>, b: seq<Write>)
    ensures ReplayListWrites(users, a + b) == ReplayListWrites(ReplayListWrites(users, a), b)
    decreases |a|
  {
    if a == [] {
      assert a + b == b;
    } else {
      assert (a + b)[0] == a[0];
      assert (a + b)[1..] == a[1..] + b;
      ReplayAppend(ApplyListWrite(users, a[0]), a[1..], b);
    }
  }

  /** The writes PUT logs are the writes that produce its effect: replaying
      `UpdateWrites` on the users gives `UpdatePending`. */
  lemma {:induction false} UpdateWritesReplay(users: map<UserId, User>, id: TaskId, prevA: UserId, prevC: bool, newA: UserId, newC: bool)
    ensures ReplayListWrites(users, UpdateWrites(id, prevA, prevC, newA, newC)) ==
            UpdatePending(users, id, prevA, prevC, newA, newC)
  {
    var w1 := if prevA != "" && prevA != newA then [PendingPulled(prevA, id)] else [];
    var w2 := if newA != "" && newA != prevA && !newC then [PendingAdded(newA, id)] else [];
    var w3 := if !prevC && newC && newA != "" then [PendingPulled(newA, id)] else [];
    var w4 := if prevC && !newC && newA != "" then [PendingAdded(newA, id)] else [];
    var u1 := if prevA != "" && prevA != newA then RemovePending(users, prevA, id) else users;
    var u2 := if newA != "" && newA != prevA && !newC then AddPending(u1, newA, id) else u1;
    var u3 := if !prevC && newC && newA != "" then RemovePending(u2, newA, id) else u2;
    var u4 := if prevC && !newC && newA != "" then AddPending(u3, newA, id) else u3;
    assert UpdateWrites(id, prevA, prevC, newA, newC) == w1 + w2 + w3 + w4;
    assert UpdatePending(users, id, prevA, prevC, newA, newC) == u4;
    ReplayStep(users, w1, u1);
    ReplayStep(u1, w2, u2);
    ReplayStep(u2, w3, u3);
    ReplayStep(u3, w4, u4);
    ReplayFour(users, w1, w2, w3, w4);
  }

  /** Replaying four logs in a row is replaying their concatenation. */
  lemma ReplayFour(users: map<UserId, User>, w1: seq<Write>, w2: seq<Write>, w3: seq<Write>, w4: seq<Write>)
    ensures ReplayListWrites(users, w1 + w2 + w3 + w4) ==
            ReplayListWrites(ReplayListWrites(ReplayListWrites(ReplayListWrites(users, w1), w2), w3), w4)
  {
    ReplayAppend(users, w1, w2);
    ReplayAppend(users, w1 + w2, w3);
    ReplayAppend(users, w1 + w2 + w3, w4);
  }

  /** Replaying no write, or a single list write, is applying it. */
  lemma ReplayStep(users: map<UserId, User>, ws: seq<Write>, r: map<UserId, User>)
    requires |ws| <= 1 && (ws == [] ==> r == users) && (|ws| == 1 ==> r == ApplyListWrite(users, ws[0]))
    ensures ReplayListWrites(users, ws) == r
  {
  }

  /** The users after DELETE has removed task `id`, which was `t`: an
      assigned, incomplete task leaves its assignee's list; no other user and
      no other id changes. */
  function DeletePending(users: map<UserId, User>, id: TaskId, t: Task): (r: map<UserId, User>)
    ensures r.Keys == users.Keys
    ensures forall v :: v in users && v != t.assignedUser ==> r[v] == users[v]
    ensures t.assignedUser in users ==>
      r[t.assignedUser].name == users[t.assignedUser].name && r[t.assignedUser].email == users[t.assignedUser].email
    ensures t.assignedUser in users && t.assignedUser != "" && !t.completed ==> id !in r[t.assignedUser].pendingTasks
    ensures t.assignedUser == "" || t.completed ==> r == users
    ensures forall v, k :: v in users && k != id ==> (k in r[v].pendingTasks <==> k in users[v].pendingTasks)
  {
    if t.assignedUser != "" && !t.completed then RemovePending(users, t.assignedUser, id) else users
  }

  /** Update: only the previous and the new assignee can change, only in
      their membership of `id`, and names and emails never change. */
  lemma UpdatePendingFrame(users: map<UserId, User>, id: TaskId, prevA: UserId, prevC: bool, newA: UserId, newC: bool)
    ensures var r := UpdatePending(users, id, prevA, prevC, newA, newC);
      && r.Keys == users.Keys
      && (forall v :: v in users && v != prevA && v != newA ==> r[v] == users[v])
      && (forall v :: v in users ==> r[v].name == users[v].name && r[v].email == users[v].email)
      && (forall v, k :: v in users && k != id ==> (k in r[v].pendingTasks <==> k in users[v].pendingTasks))
  {
    var u1 := if prevA != "" && prevA != newA then RemovePending(users, prevA, id) else users;
    var u2 := if newA != "" && newA != prevA && !newC then AddPending(u1, newA, id) else u1;
    var u3 := if !prevC && newC && newA != "" then RemovePending(u2, newA, id) else u2;
    var r := if prevC && !newC && newA != "" then AddPending(u3, newA, id) else u3;
    if prevA != "" && prevA != newA {
      RemoveApart(users, prevA, prevA, newA, id);
    }
    if newA != "" && newA != prevA && !newC {
      AddApart(u1, newA, prevA, newA, id);
    }
    SameApartFromTrans(users, u1, u2, prevA, newA, id);
    if !prevC && newC && newA != "" {
      RemoveApart(u2, newA, prevA, newA, id);
    }
    SameApartFromTrans(users, u2, u3, prevA, newA, id);
    if prevC && !newC && newA != "" {
      AddApart(u3, newA, prevA, newA, id);
    }
    SameApartFromTrans(users, u3, r, prevA, newA, id);
  }

  /** An `addToPending` of `id` on `x` or `y` changes nothing else. */
  lemma AddApart(a: map<UserId, User>, u: UserId, x: UserId, y: UserId, id: TaskId)
    requires u == x || u == y
    ensures SameApartFrom(a, AddPending(a, u, id), x, y, id)
  {
  }

  /** A `removeFromPending` of `id` on `x` or `y` changes nothing else. */
  lemma RemoveApart(a: map<UserId, User>, u: UserId, x: UserId, y: UserId, id: TaskId)
    requires u == x || u == y
    ensures SameApartFrom(a, RemovePending(a, u, id), x, y, id)
  {
  }

  /** Two such steps compose. */
  lemma SameApartFromTrans(a: map<UserId, User>, b: map<UserId, User>, c: map<UserId, User>, x: UserId, y: UserId, id: TaskId)
    requires SameApartFrom(a, b, x, y, id) && SameApartFrom(b, c, x, y, id)
    ensures SameApartFrom(a, c, x, y, id)
  {
  }

  /** `b` differs from `a` only in the lists of `x` and `y`, and there only
      in the membership of `id`. */
  ghost predicate SameApartFrom(a: map<UserId, User>, b: map<UserId, User>, x: UserId, y: UserId, id: TaskId) {
    && b.Keys == a.Keys
    && (forall v :: v in a && v != x && v != y ==> b[v] == a[v])
    && (forall v :: v in a ==> b[v].name == a[v].name && b[v].email == a[v].email)
    && (forall v, k :: v in a && k != id ==> (k in b[v].pendingTasks <==> k in a[v].pendingTasks))
  }

  /** Update, reassignment: a previous assignee that is replaced loses the id. */
  lemma UpdateLeavesOldAssignee(users: map<UserId, User>, id: TaskId, prevA: UserId, prevC: bool, newA: UserId, newC: bool)
    requires prevA != "" && prevA != newA && prevA in users
    ensures id !in UpdatePending(users, id, prevA, prevC, newA, newC)[prevA].pendingTasks
  {
  }

  /** Update, reassignment: a new assignee of an incomplete task gains the id. */
  lemma UpdateJoinsNewAssignee(users: map<UserId, User>, id: TaskId, prevA: UserId, prevC: bool, newA: UserId, newC: bool)
    requires newA != "" && newA != prevA && !newC && newA in users
    ensures id in UpdatePending(users, id, prevA, prevC, newA, newC)[newA].pendingTasks
  {
  }

  /** Update, completion: with an assignee, false to true removes the id and
      true to false puts it back. */
  lemma UpdateCompletionChange(users: map<UserId, User>, id: TaskId, prevA: UserId, prevC: bool, newA: UserId, newC: bool)
    requires newA != "" && newA in users && prevC != newC
    ensures id in UpdatePending(users, id, prevA, prevC, newA, newC)[newA].pendingTasks <==> !newC
  {
  }

  /** Whether `users[x]` lists `id` exactly when `x` is assignee `a` of an
      incomplete task (`c` is the task's completion). */
  ghost predicate Mirrors(users: map<UserId, User>, x: UserId, id: TaskId, a: UserId, c: bool) {
    x in users ==> (id in users[x].pendingTasks <==> x == a && !c)
  }

  /** Update, combined: if the previous and the new assignee mirrored the task
      before, they mirror it afterwards. */
  lemma UpdateKeepsMirror(users: map<UserId, User>, id: TaskId, prevA: UserId, prevC: bool, newA: UserId, newC: bool)
    requires "" !in users
    requires Mirrors(users, prevA, id, prevA, prevC) && Mirrors(users, newA, id, prevA, prevC)
    ensures var r := UpdatePending(users, id, prevA, prevC, newA, newC);
      Mirrors(r, prevA, id, newA, newC) && Mirrors(r, newA, id, newA, newC)
  {
  }
}
