/**
 * The server's task handlers: list, create, delete and update over a table
 * of task records keyed by id. Every route is behind the authentication
 * middleware, so each handler receives the requester's id as a resolved
 * value. Delete and update look the task up first (404 when it is absent),
 * then compare its owner with the requester (401 when they differ), and
 * only then change the table.
 *
 * The pure functions below give each handler's outcome on a table value;
 * the class TaskTable performs the same handlers in place.
 */
module TaskController {
  import opened Wrappers
  import opened JsStrings

  type UserId = nat
  type TaskId = nat

  /** A stored task document. */
  datatype Task = Task(id: TaskId, title: string, isCompleted: bool, owner: UserId, createdAt: int)

  const TaskNotFound := "Task not found"
  const NotAuthorized := "Not authorized"
  const TaskRemoved := "Task removed"

  /** The status a mutating handler answers with. */
  datatype Status = Ok | Unauthorized | NotFound {
    function Code(): int {
      match this
      case Ok => 200
      case Unauthorized => 401
      case NotFound => 404
    }

    /** The `msg` sent with this status; the one for Ok is the delete handler's. */
    function Message(): string {
      match this
      case Ok => TaskRemoved
      case Unauthorized => NotAuthorized
      case NotFound => TaskNotFound
    }
  }

  /** A handler's JSON answer: a status with a message, or a task record (status 200). */
  datatype Reply = MsgReply(code: int, msg: string) | TaskJson(task: Task)

  /** The JSON body of an update request; a missing key is None. */
  datatype UpdateBody = UpdateBody(title: Option<string>, isCompleted: Option<bool>)

  /** The `$set` document handed to the store. */
  datatype TaskFields = TaskFields(title: Option<string>, isCompleted: Option<bool>)

  /** The table as a value: the records and the id the next created task gets. */
  datatype Table = Table(tasks: map<TaskId, Task>, nextId: nat)

  /** Records are stored under their own id, and every id in use is below the next one. */
  ghost predicate WellKeyed(tasks: map<TaskId, Task>, nextId: nat) {
    forall k :: k in tasks ==> tasks[k].id == k && k < nextId
  }

  /** A newly created task: owned by the requester, title as sent, not completed. */
  function NewTask(id: TaskId, title: string, requester: UserId, now: int): (t: Task)
    ensures t.id == id && t.owner == requester && t.title == title
    ensures !t.isCompleted && t.createdAt == now
  {
    Task(id, title, false, requester, now)
  }

  /**
   * Which fields an update request sets: the title only when it is truthy
   * (so "" is skipped), the completion flag whenever it is present (so
   * false is applied).
   */
  function FieldsOf(body: UpdateBody): (f: TaskFields)
    ensures f.title.Some? <==> body.title.Some? && Truthy(body.title.value)
    ensures f.title.Some? ==> f.title == body.title
    ensures f.isCompleted == body.isCompleted
  {
    TaskFields(if body.title.Some? && Truthy(body.title.value) then body.title else None,
               body.isCompleted)
  }

  /** `$set`: overwrite the fields present, keep the others. */
  function Apply(t: Task, f: TaskFields): (r: Task)
    ensures r.id == t.id && r.owner == t.owner && r.createdAt == t.createdAt
    ensures f.title.None? ==> r.title == t.title
    ensures f.title.Some? ==> r.title == f.title.value
    ensures f.isCompleted.None? ==> r.isCompleted == t.isCompleted
    ensures f.isCompleted.Some? ==> r.isCompleted == f.isCompleted.value
  {
    t.(title := f.title.GetOr(t.title), isCompleted := f.isCompleted.GetOr(t.isCompleted))
  }

  /** The access rule shared by delete and update: existence first, then ownership. */
  function Check(tasks: map<TaskId, Task>, id: TaskId, requester: UserId): (s: Status)
    ensures s == NotFound <==> id !in tasks
    ensures s == Unauthorized <==> id in tasks && tasks[id].owner != requester
    ensures s == Ok <==> id in tasks && tasks[id].owner == requester
  {
    if id !in tasks then NotFound
    else if tasks[id].owner != requester then Unauthorized
    else Ok
  }

  /** The table after a delete request. */
  function AfterDelete(tasks: map<TaskId, Task>, id: TaskId, requester: UserId): (r: map<TaskId, Task>)
    ensures Check(tasks, id, requester) != Ok ==> r == tasks
    ensures Check(tasks, id, requester) == Ok ==> r.Keys == tasks.Keys - {id}
    ensures forall k :: k in r ==> k in tasks && r[k] == tasks[k]
  {
    if Check(tasks, id, requester) == Ok then tasks - {id} else tasks
  }

  /** The table after an update request carrying the fields `f`. */
  function AfterUpdate(tasks: map<TaskId, Task>, id: TaskId, requester: UserId, f: TaskFields): (r: map<TaskId, Task>)
    ensures r.Keys == tasks.Keys
    ensures forall k :: k in tasks && k != id ==> r[k] == tasks[k]
    ensures Check(tasks, id, requester) != Ok ==> r == tasks
    ensures Check(tasks, id, requester) == Ok ==> r[id] == Apply(tasks[id], f)
  {
    if Check(tasks, id, requester) == Ok then tasks[id := Apply(tasks[id], f)] else tasks
  }

  /** True when the newer task comes first: the order of `.sort({ createdAt: -1 })`. */
  ghost predicate NewestFirst(s: seq<Task>) {
    forall i, j :: 0 <= i < j < |s| ==> s[i].createdAt >= s[j].createdAt
  }

  /** Each id occurs at most once. */
  ghost predicate DistinctIds(s: seq<Task>) {
    forall i, j :: 0 <= i < j < |s| ==> s[i].id != s[j].id
  }

  /** Every non-empty finite set of ids has one whose task is newest. */
  lemma {:induction false} NewestExists(tasks: map<TaskId, Task>, ids: set<TaskId>)
    requires ids != {} && ids <= tasks.Keys
    ensures exists k :: k in ids && forall k' :: k' in ids ==> tasks[k'].createdAt <= tasks[k].createdAt
  {
    var k :| k in ids;
    var rest := ids - {k};
    if rest != {} {
      NewestExists(tasks, rest);
      var m :| m in rest && forall k' :: k' in rest ==> tasks[k'].createdAt <= tasks[m].createdAt;
      if tasks[m].createdAt < tasks[k].createdAt {
        assert forall k' :: k' in ids ==> tasks[k'].createdAt <= tasks[k].createdAt;
      } else {
        assert forall k' :: k' in ids ==> tasks[k'].createdAt <= tasks[m].createdAt;
      }
    } else {
      assert ids == {k};
    }
  }

  /** One request by `requester`, as the table sees it. */
  datatype Request =
    | ListReq
    | CreateReq(title: string, now: int)
    | DeleteReq(id: TaskId)
    | UpdateReq(id: TaskId, body: UpdateBody)

  /** The table after one request. */
  function Step(t: Table, requester: UserId, req: Request): Table {
    match req
    case ListReq => t
    case CreateReq(title, now) =>
      Table(t.tasks[t.nextId := NewTask(t.nextId, title, requester, now)], t.nextId + 1)
    case DeleteReq(id) => Table(AfterDelete(t.tasks, id, requester), t.nextId)
    case UpdateReq(id, body) => Table(AfterUpdate(t.tasks, id, requester, FieldsOf(body)), t.nextId)
  }

  /** The table after a sequence of requests, all made by `requester`. */
  function Run(t: Table, requester: UserId, reqs: seq<Request>): Table
    decreases |reqs|
  {
    if reqs == [] then t else Run(Step(t, requester, reqs[0]), requester, reqs[1..])
  }

  /**
   * Ownership isolation: whatever requests one user makes, every task owned
   * by someone else is still there and unchanged, no task changes owner,
   * and every task that was not there before belongs to that user.
   */
  lemma {:induction false} OthersTasksUntouched(t: Table, requester: UserId, reqs: seq<Request>)
    requires WellKeyed(t.tasks, t.nextId)
    ensures WellKeyed(Run(t, requester, reqs).tasks, Run(t, requester, reqs).nextId)
    ensures forall k :: k in t.tasks && t.tasks[k].owner != requester ==>
              k in Run(t, requester, reqs).tasks && Run(t, requester, reqs).tasks[k] == t.tasks[k]
    ensures forall k :: k in Run(t, requester, reqs).tasks && k in t.tasks ==>
              Run(t, requester, reqs).tasks[k].owner == t.tasks[k].owner
    ensures forall k :: k in Run(t, requester, reqs).tasks && k !in t.tasks ==>
              Run(t, requester, reqs).tasks[k].owner == requester
    decreases |reqs|
  {
    if reqs != [] {
      var t' := Step(t, requester, reqs[0]);
      assert WellKeyed(t'.tasks, t'.nextId);
      assert forall k :: k in t.tasks && t.tasks[k].owner != requester ==> k in t'.tasks && t'.tasks[k] == t.tasks[k];
      assert forall k :: k in t'.tasks && k in t.tasks ==> t'.tasks[k].owner == t.tasks[k].owner;
      assert forall k :: k in t'.tasks && k !in t.tasks ==> t'.tasks[k].owner == requester;
      OthersTasksUntouched(t', requester, reqs[1..]);
    }
  }

  /** An update with an empty title keeps the title; one with `isCompleted: false` clears the flag. */
  lemma UpdateAsymmetry(t: Task, body: UpdateBody)
    ensures body.title == Some("") ==> Apply(t, FieldsOf(body)).title == t.title
    ensures body.isCompleted == Some(false) ==> !Apply(t, FieldsOf(body)).isCompleted
    ensures body.title.Some? && body.title.value != "" ==> Apply(t, FieldsOf(body)).title == body.title.value
  {
  }

  /** Sending the same update twice leaves the table as sending it once. */
  lemma UpdateIdempotent(tasks: map<TaskId, Task>, id: TaskId, requester: UserId, body: UpdateBody)
    ensures AfterUpdate(AfterUpdate(tasks, id, requester, FieldsOf(body)), id, requester, FieldsOf(body))
         == AfterUpdate(tasks, id, requester, FieldsOf(body))
  {
  }

  /** The task collection, updated in place by the four handlers. */
  class TaskTable {
    var tasks: map<TaskId, Task>
    var nextId: nat

    ghost predicate Valid()
      reads this
    {
      WellKeyed(tasks, nextId)
    }

    constructor ()
      ensures Valid() && tasks == map[] && nextId == 0
    {
      tasks := map[];
      nextId := 0;
    }

    /** GET /tasks: exactly the requester's tasks, newest first. */
    method GetTasks(requester: UserId) returns (r: seq<Task>)
      requires Valid()
      ensures forall t :: t in r <==> t in tasks.Values && t.owner == requester
      ensures DistinctIds(r)
      ensures NewestFirst(r)
    {
      var remaining := set k | k in tasks && tasks[k].owner == requester;
      r := [];
      while remaining != {}
        invariant remaining <= tasks.Keys
        invariant forall k :: k in remaining ==> tasks[k].owner == requester
        invariant forall t :: t in r ==> t.id in tasks && tasks[t.id] == t && t.id !in remaining
        invariant forall k :: k in tasks && tasks[k].owner == requester && k !in remaining ==> tasks[k] in r
        invariant forall t :: t in r ==> t.owner == requester
        invariant DistinctIds(r)
        invariant NewestFirst(r)
        invariant forall i, k :: 0 <= i < |r| && k in remaining ==> tasks[k].createdAt <= r[i].createdAt
        decreases remaining
      {
        NewestExists(tasks, remaining);
        var k :| k in remaining && forall k' :: k' in remaining ==> tasks[k'].createdAt <= tasks[k].createdAt;
        r := r + [tasks[k]];
        remaining := remaining - {k};
      }
      forall t | t in tasks.Values && t.owner == requester
        ensures t in r
      {
        var k :| k in tasks && tasks[k] == t;
      }
    }

    /** POST /tasks: stores a new task under a fresh id and returns it. */
    method CreateTask(requester: UserId, title: string, now: int) returns (task: Task)
      requires Valid()
      modifies this
      ensures Valid()
      ensures task == NewTask(old(nextId), title, requester, now)
      ensures old(nextId) !in old(tasks)
      ensures tasks == old(tasks)[old(nextId) := task] && nextId == old(nextId) + 1
    {
      task := NewTask(nextId, title, requester, now);
      tasks := tasks[nextId := task];
      nextId := nextId + 1;
    }

    /** DELETE /tasks/:id. */
    method DeleteTask(id: TaskId, requester: UserId) returns (status: Status, reply: Reply)
      requires Valid()
      modifies this
      ensures Valid() && nextId == old(nextId)
      ensures status == Check(old(tasks), id, requester)
      ensures reply == MsgReply(status.Code(), status.Message())
      ensures tasks == AfterDelete(old(tasks), id, requester)
    {
      if id !in tasks {
        return NotFound, MsgReply(404, TaskNotFound);
      }
      if tasks[id].owner != requester {
        return Unauthorized, MsgReply(401, NotAuthorized);
      }
      tasks := tasks - {id};
      status, reply := Ok, MsgReply(200, TaskRemoved);
    }

    /** PUT /tasks/:id: a partial update; answers with the record after the update. */
    method UpdateTask(id: TaskId, requester: UserId, body: UpdateBody) returns (status: Status, reply: Reply)
      requires Valid()
      modifies this
      ensures Valid() && nextId == old(nextId)
      ensures status == Check(old(tasks), id, requester)
      ensures tasks == AfterUpdate(old(tasks), id, requester, FieldsOf(body))
      ensures reply == if status == Ok then TaskJson(tasks[id]) else MsgReply(status.Code(), status.Message())
    {
      var fields := TaskFields(None, None);
      if body.title.Some? && Truthy(body.title.value) {
        fields := fields.(title := body.title);
      }
      if body.isCompleted.Some? {
        fields := fields.(isCompleted := body.isCompleted);
      }
      if id !in tasks {
        return NotFound, MsgReply(404, TaskNotFound);
      }
      if tasks[id].owner != requester {
        return Unauthorized, MsgReply(401, NotAuthorized);
      }
      var updated := Apply(tasks[id], fields);
      tasks := tasks[id := updated];
      status, reply := Ok, TaskJson(updated);
    }
  }
}
