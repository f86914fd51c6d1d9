/** The two secondary writes of the task handlers, `addToPending` and
    `removeFromPending`: a `$addToSet` or a `$pull` on one user's
    `pendingTasks`, addressed by user id. */
module Pending {
  import opened Types

  /** `$addToSet`: append `t` unless it already occurs. */
  function AddToSet(s: seq<TaskId>, t: TaskId): (r: seq<TaskId>)
    ensures t in r
    ensures forall x :: x in r <==> x in s || x == t
    ensures |s| <= |r| <= |s| + 1 && r[..|s|] == s
    ensures forall x :: x != t ==> multiset(r)[x] == multiset(s)[x]
    ensures multiset(r)[t] == if t in s then multiset(s)[t] else 1
  {
    if t in s then s else s + [t]
  }

  /** `$pull`: drop every occurrence of `t`, keeping the rest in order. */
  function Pull(s: seq<TaskId>, t: TaskId): (r: seq<TaskId>)
    ensures t !in r
    ensures forall x :: x != t ==> multiset(r)[x] == multiset(s)[x]
    ensures forall x :: x != t ==> (x in r <==> x in s)
    ensures |r| == |s| - multiset(s)[t]
  {
    if s == [] then []
    else
      assert s == [s[0]] + s[1..];
      if s[0] == t then Pull(s[1..], t) else [s[0]] + Pull(s[1..], t)
  }

  /** Adding an id that is already there changes nothing, so a second add is a no-op. */
  lemma AddToSetIdempotent(s: seq<TaskId>, t: TaskId)
    ensures AddToSet(AddToSet(s, t), t) == AddToSet(s, t)
  {
  }

  /** After the add, an id that occurred at most once occurs exactly once. */
  lemma AddToSetExactlyOnce(s: seq<TaskId>, t: TaskId)
    requires multiset(s)[t] <= 1
    ensures multiset(AddToSet(s, t))[t] == 1
  {
  }

  /** Pulling an id that does not occur leaves the list as it was. */
  lemma {:induction false} PullAbsent(s: seq<TaskId>, t: TaskId)
    requires t !in s
    ensures Pull(s, t) == s
  {
    if s != [] {
      PullAbsent(s[1..], t);
    }
  }

  /** A second pull of the same id is a no-op. */
  lemma PullIdempotent(s: seq<TaskId>, t: TaskId)
    ensures Pull(Pull(s, t), t) == Pull(s, t)
  {
  }

  /** Pulling works piecewise, so the ids that stay keep their relative order. */
  lemma {:induction false} PullAppend(a: seq<TaskId>, b: seq<TaskId>, t: TaskId)
    ensures Pull(a + b, t) == Pull(a, t) + Pull(b, t)
  {
    if a != [] {
      assert (a + b)[0] == a[0];
      assert (a + b)[1..] == a[1..] + b;
      PullAppend(a[1..], b, t);
    } else {
      assert a + b == b;
    }
  }

  /** `addToPending(u, t)`: no write for an empty user id; otherwise an
      `updateOne` that matches nothing when `u` is not a user. */
  function AddPending(users: map<UserId, User>, u: UserId, t: TaskId): (r: map<UserId, User>)
    ensures r.Keys == users.Keys
    ensures u == "" || u !in users ==> r == users
    ensures forall v :: v in users && v != u ==> r[v] == users[v]
    ensures u != "" && u in users ==>
      r[u].name == users[u].name && r[u].email == users[u].email &&
      r[u].pendingTasks == AddToSet(users[u].pendingTasks, t)
    ensures forall v, k :: v in users ==>
      (k in r[v].pendingTasks <==> k in users[v].pendingTasks || (v == u && u != "" && k == t))
  {
    if u == "" || u !in users then users
    else users[u := users[u].(pendingTasks := AddToSet(users[u].pendingTasks, t))]
  }

  /** `removeFromPending(u, t)`: no write for an empty user id; otherwise an
      `updateOne` that matches nothing when `u` is not a user. */
  function RemovePending(users: map<UserId, User>, u: UserId, t: TaskId): (r: map<UserId, User>)
    ensures r.Keys == users.Keys
    ensures u == "" || u !in users ==> r == users
    ensures forall v :: v in users && v != u ==> r[v] == users[v]
    ensures u != "" && u in users ==>
      r[u].name == users[u].name && r[u].email == users[u].email &&
      r[u].pendingTasks == Pull(users[u].pendingTasks, t)
    ensures forall v, k :: v in users ==>
      (k in r[v].pendingTasks <==> k in users[v].pendingTasks && !(v == u && u != "" && k == t))
  {
    if u == "" || u !in users then users
    else users[u := users[u].(pendingTasks := Pull(users[u].pendingTasks, t))]
  }

  /** Calling `addToPending` twice with the same arguments equals calling it once. */
  lemma AddPendingIdempotent(users: map<UserId, User>, u: UserId, t: TaskId)
    ensures AddPending(AddPending(users, u, t), u, t) == AddPending(users, u, t)
  {
  }

  /** Calling `removeFromPending` twice with the same arguments equals calling it once. */
  lemma RemovePendingIdempotent(users: map<UserId, User>, u: UserId, t: TaskId)
    ensures RemovePending(RemovePending(users, u, t), u, t) == RemovePending(users, u, t)
  {
    if u != "" && u in users {
      PullIdempotent(users[u].pendingTasks, t);
    }
  }
}
