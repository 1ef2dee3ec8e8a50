/**
 * The dashboard: the task list as the client holds it, the add-task input,
 * and the edit mode (`editingId`, `editTitle`). Delete, toggle and edit
 * change the list at once and then send the request; a failed toggle puts
 * back the snapshot taken before the change, a failed delete or edit
 * reloads the list from the server.
 *
 * Network outcomes are parameters: `ok` says whether the request succeeded
 * and `reload` is what a `fetchTasks` call would set the list to (None
 * when that fetch itself fails and leaves the list alone).
 */
module DashboardHome {
  import opened Wrappers
  import opened JsStrings
  import TC = TaskController

  /** `tasks.filter(t => t._id !== id)`. */
  function RemoveById(tasks: seq<TC.Task>, id: TC.TaskId): (r: seq<TC.Task>)
    ensures |r| <= |tasks|
    ensures forall t :: t in r <==> t in tasks && t.id != id
    ensures forall t: TC.Task :: t.id != id ==> multiset(r)[t] == multiset(tasks)[t]
  {
    if tasks == [] then []
    else
      var rest := RemoveById(tasks[1..], id);
      assert tasks == [tasks[0]] + tasks[1..];
      if tasks[0].id != id then [tasks[0]] + rest else rest
  }

  /** One step of the filter: the head is kept exactly when its id differs. */
  lemma RemoveByIdCons(x: TC.Task, rest: seq<TC.Task>, id: TC.TaskId)
    ensures RemoveById([x] + rest, id) == (if x.id != id then [x] else []) + RemoveById(rest, id)
  {
    assert ([x] + rest)[1..] == rest;
  }

  /** The filter keeps the order: it distributes over concatenation. */
  lemma {:induction false} RemoveByIdAppend(a: seq<TC.Task>, b: seq<TC.Task>, id: TC.TaskId)
    ensures RemoveById(a + b, id) == RemoveById(a, id) + RemoveById(b, id)
  {
    if a == [] {
      assert a + b == b;
    } else {
      var x, rest := a[0], a[1..];
      var head := if x.id != id then [x] else [];
      assert a == [x] + rest;
      assert a + b == [x] + (rest + b);
      RemoveByIdCons(x, rest + b, id);
      RemoveByIdCons(x, rest, id);
      RemoveByIdAppend(rest, b, id);
      ConcatAssoc(head, RemoveById(rest, id), RemoveById(b, id));
    }
  }

  /** Concatenation is associative. */
  lemma ConcatAssoc<T>(x: seq<T>, y: seq<T>, z: seq<T>)
    ensures x + (y + z) == (x + y) + z
  {
  }

  /** A list without the id is left exactly as it was. */
  lemma {:induction false} RemoveByIdAbsent(tasks: seq<TC.Task>, id: TC.TaskId)
    requires forall k :: 0 <= k < |tasks| ==> tasks[k].id != id
    ensures RemoveById(tasks, id) == tasks
  {
    if tasks != [] {
      RemoveByIdAbsent(tasks[1..], id);
    }
  }

  /** `tasks.map(t => t._id === id ? { ...t, isCompleted: status } : t)`. */
  function SetCompletedById(tasks: seq<TC.Task>, id: TC.TaskId, status: bool): (r: seq<TC.Task>)
    ensures |r| == |tasks|
    ensures forall k :: 0 <= k < |r| && tasks[k].id != id ==> r[k] == tasks[k]
    ensures forall k :: 0 <= k < |r| && tasks[k].id == id ==> r[k].isCompleted == status
    ensures forall k :: 0 <= k < |r| ==>
              r[k].id == tasks[k].id && r[k].title == tasks[k].title
              && r[k].owner == tasks[k].owner && r[k].createdAt == tasks[k].createdAt
  {
    seq(|tasks|, k requires 0 <= k < |tasks| =>
      if tasks[k].id == id then tasks[k].(isCompleted := status) else tasks[k])
  }

  /** `tasks.map(t => t._id === id ? { ...t, title } : t)`. */
  function RetitleById(tasks: seq<TC.Task>, id: TC.TaskId, title: string): (r: seq<TC.Task>)
    ensures |r| == |tasks|
    ensures forall k :: 0 <= k < |r| && tasks[k].id != id ==> r[k] == tasks[k]
    ensures forall k :: 0 <= k < |r| && tasks[k].id == id ==> r[k].title == title
    ensures forall k :: 0 <= k < |r| ==>
              r[k].id == tasks[k].id && r[k].isCompleted == tasks[k].isCompleted
              && r[k].owner == tasks[k].owner && r[k].createdAt == tasks[k].createdAt
  {
    seq(|tasks|, k requires 0 <= k < |tasks| =>
      if tasks[k].id == id then tasks[k].(title := title) else tasks[k])
  }

  /** Toggling the card at position k flips its flag and nothing else in the list. */
  lemma ToggleFlips(tasks: seq<TC.Task>, k: nat)
    requires k < |tasks|
    ensures var r := SetCompletedById(tasks, tasks[k].id, !tasks[k].isCompleted);
            r[k] == tasks[k].(isCompleted := !tasks[k].isCompleted)
  {
  }

  /**
   * The optimistic toggle predicts the server: each toggled card equals
   * what the server's update produces from the same record and the same
   * request body.
   */
  lemma OptimisticToggleMatchesServer(tasks: seq<TC.Task>, id: TC.TaskId, status: bool)
    ensures forall k :: 0 <= k < |tasks| && tasks[k].id == id ==>
              SetCompletedById(tasks, id, status)[k]
                == TC.Apply(tasks[k], TC.FieldsOf(TC.UpdateBody(None, Some(status))))
  {
  }

  /**
   * The optimistic retitle predicts the server for a title that passed the
   * blank guard: the server's truthiness test then applies the same title.
   */
  lemma OptimisticRetitleMatchesServer(tasks: seq<TC.Task>, id: TC.TaskId, title: string)
    requires !IsBlank(title)
    ensures forall k :: 0 <= k < |tasks| && tasks[k].id == id ==>
              RetitleById(tasks, id, title)[k]
                == TC.Apply(tasks[k], TC.FieldsOf(TC.UpdateBody(Some(title), None)))
  {
  }

  /** The component's state. */
  class Dashboard {
    var tasks: seq<TC.Task>
    var title: string
    var editingId: Option<TC.TaskId>
    var editTitle: string

    constructor ()
      ensures tasks == [] && title == "" && editingId == None && editTitle == ""
    {
      tasks, title, editingId, editTitle := [], "", None, "";
    }

    /** `fetchTasks`: a successful fetch replaces the list, a failed one leaves it. */
    method FetchTasks(response: Option<seq<TC.Task>>)
      modifies this
      ensures tasks == response.GetOr(old(tasks))
      ensures title == old(title) && editingId == old(editingId) && editTitle == old(editTitle)
    {
      if response.Some? {
        tasks := response.value;
      }
    }

    /** `addTask`: nothing for a blank title; otherwise the title is sent untrimmed. */
    method AddTask(ok: bool, reload: Option<seq<TC.Task>>) returns (sent: Option<string>)
      modifies this
      ensures sent == if IsBlank(old(title)) then None else Some(old(title))
      ensures sent.None? || !ok ==> tasks == old(tasks) && title == old(title)
      ensures sent.Some? && ok ==> title == "" && tasks == reload.GetOr(old(tasks))
      ensures editingId == old(editingId) && editTitle == old(editTitle)
    {
      if IsBlank(title) {
        return None;
      }
      sent := Some(title);
      if ok {
        title := "";
        FetchTasks(reload);
      }
    }

    /** `deleteTask`: after confirmation, removes the id at once; a failed request reloads. */
    method DeleteTask(id: TC.TaskId, confirmed: bool, ok: bool, reload: Option<seq<TC.Task>>)
      returns (sent: Option<TC.TaskId>)
      modifies this
      ensures sent == if confirmed then Some(id) else None
      ensures !confirmed ==> tasks == old(tasks)
      ensures confirmed && ok ==> tasks == RemoveById(old(tasks), id)
      ensures confirmed && !ok ==> tasks == reload.GetOr(RemoveById(old(tasks), id))
      ensures title == old(title) && editingId == old(editingId) && editTitle == old(editTitle)
    {
      if !confirmed {
        return None;
      }
      tasks := RemoveById(tasks, id);
      sent := Some(id);
      if !ok {
        FetchTasks(reload);
      }
    }

    /** `toggleStatus`: flips the flag at once, and on failure restores the snapshot. */
    method ToggleStatus(task: TC.Task, ok: bool) returns (sent: (TC.TaskId, bool))
      modifies this
      ensures sent == (task.id, !task.isCompleted)
      ensures tasks == if ok then SetCompletedById(old(tasks), task.id, !task.isCompleted) else old(tasks)
      ensures title == old(title) && editingId == old(editingId) && editTitle == old(editTitle)
    {
      var newStatus := !task.isCompleted;
      var originalTasks := tasks;
      tasks := SetCompletedById(tasks, task.id, newStatus);
      sent := (task.id, newStatus);
      if !ok {
        tasks := originalTasks;
      }
    }

    /** `startEditing`. */
    method StartEditing(task: TC.Task)
      modifies this
      ensures editingId == Some(task.id) && editTitle == task.title
      ensures tasks == old(tasks) && title == old(title)
    {
      editingId := Some(task.id);
      editTitle := task.title;
    }

    /** `cancelEditing`. */
    method CancelEditing()
      modifies this
      ensures editingId == None && editTitle == ""
      ensures tasks == old(tasks) && title == old(title)
    {
      editingId := None;
      editTitle := "";
    }

    /** `saveEdit`: nothing for a blank title; otherwise retitles at once and leaves edit mode. */
    method SaveEdit(id: TC.TaskId, ok: bool, reload: Option<seq<TC.Task>>) returns (sent: Option<(TC.TaskId, string)>)
      modifies this
      ensures sent == if IsBlank(old(editTitle)) then None else Some((id, old(editTitle)))
      ensures sent.None? ==> tasks == old(tasks) && editingId == old(editingId)
      ensures sent.Some? ==> editingId == None
      ensures sent.Some? && ok ==> tasks == RetitleById(old(tasks), id, old(editTitle))
      ensures sent.Some? && !ok ==> tasks == reload.GetOr(RetitleById(old(tasks), id, old(editTitle)))
      ensures title == old(title) && editTitle == old(editTitle)
    {
      if IsBlank(editTitle) {
        return None;
      }
      tasks := RetitleById(tasks, id, editTitle);
      editingId := None;
      sent := Some((id, editTitle));
      if !ok {
        FetchTasks(reload);
      }
    }
  }
}
