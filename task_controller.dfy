/** The task controller: the in-memory task list with its filtered, paged
    listing, lookup, creation, merge update and deletion
    (server/src/controllers/taskController.ts). Every task shown carries
    the number of chat messages stored for it. Ids and timestamps are
    inputs; `created_at` and `updated_at` are milliseconds since the epoch. */
module TaskController {
  import opened Optional
  import opened Seqs
  import opened Text
  import QAController
  import ChatController

  const FetchFailedError := "Failed to fetch tasks"
  const TaskNotFoundError := "Task not found"
  const LoggedStatus := "logged"
  /** The `TypeError` raised by `toLowerCase` on a missing field. */
  const MissingFieldError := "Cannot read properties of undefined (reading 'toLowerCase')"

  /** A stored task. Fields a request may leave out are `Option`s. */
  datatype Task = Task(id: string, title: Option<string>, description: Option<string>,
                       requesterName: Option<string>, requesterEmail: Option<string>,
                       assignedTo: Option<string>, status: string, priority: Option<string>,
                       tags: Option<seq<string>>, createdAt: int, updatedAt: int)

  /** The body of a create request. */
  datatype TaskBody = TaskBody(id: Option<string>, title: Option<string>, description: Option<string>,
                               requesterName: Option<string>, requesterEmail: Option<string>,
                               assignedTo: Option<string>, priority: Option<string>,
                               tags: Option<seq<string>>)

  /** The body of an update request. `assignedTo` tells a missing key
      (`None`) from a key holding `null` (`Some(None)`). */
  datatype TaskUpdate = TaskUpdate(id: Option<string>, title: Option<string>, description: Option<string>,
                                   requesterName: Option<string>, requesterEmail: Option<string>,
                                   assignedTo: Option<Option<string>>, status: Option<string>,
                                   priority: Option<string>, tags: Option<seq<string>>,
                                   createdAt: Option<int>)

  /** A task as the endpoints return it, with its message count. */
  datatype TaskView = TaskView(task: Task, messageCount: nat)

  datatype TaskListResponse =
    | TaskList(tasks: seq<TaskView>, page: int, limit: int, total: nat, pages: int)
    | TaskListError(error: string)

  datatype TaskResponse = TaskFound(view: TaskView) | TaskMissing(error: string)

  datatype DeleteResponse = TaskDeleted | DeleteMissing(error: string)

  /** Whether the search term occurs in the title, the description or the
      requester's name, ignoring case. The fields are read in that order and
      reading stops at the first hit; a missing title, or a missing requester
      name that has to be read, raises the error. */
  function SearchHit(t: Task, term: string): (r: Result<bool>)
    ensures r.Err? <==> t.title.None?
                        || (!Contains(LowerStr(t.title.value), term)
                            && !(t.description.Some? && Contains(LowerStr(t.description.value), term))
                            && t.requesterName.None?)
    ensures r == Ok(true) <==> t.title.Some?
                               && (Contains(LowerStr(t.title.value), term)
                                   || (t.description.Some? && Contains(LowerStr(t.description.value), term))
                                   || (t.requesterName.Some? && Contains(LowerStr(t.requesterName.value), term)))
  {
    match t.title
    case None => Err(MissingFieldError)
    case Some(title) =>
      if Contains(LowerStr(title), term) then Ok(true)
      else if t.description.Some? && Contains(LowerStr(t.description.value), term) then Ok(true)
      else
        match t.requesterName
        case None => Err(MissingFieldError)
        case Some(name) => Ok(Contains(LowerStr(name), term))
  }

  predicate Hit(t: Task, term: string) {
    SearchHit(t, term) == Ok(true)
  }

  /** The search filter over a list: it fails when the test fails on any
      task, and otherwise keeps the hits in order. */
  function SearchAll(ts: seq<Task>, term: string): (r: Result<seq<Task>>)
    ensures r.Err? <==> exists k :: 0 <= k < |ts| && SearchHit(ts[k], term).Err?
    ensures r.Ok? ==> r.value == Filter(ts, (t: Task) => Hit(t, term))
    decreases |ts|
  {
    if ts == [] then Ok([])
    else
      var init := ts[..|ts| - 1];
      var last := ts[|ts| - 1];
      assert forall k :: 0 <= k < |init| ==> init[k] == ts[k];
      match SearchAll(init, term)
      case Err(e) => Err(e)
      case Ok(kept) =>
        match SearchHit(last, term)
        case Err(e) => Err(e)
        case Ok(hit) => Ok(if hit then kept + [last] else kept)
  }

  /** The conditions a listed task meets. */
  predicate Keeps(t: Task, status: Option<string>, priority: Option<string>, search: Option<string>) {
    (QAController.Present(status) ==> t.status == status.value)
    && (QAController.Present(priority) ==> t.priority == priority)
    && (QAController.Present(search) ==> Hit(t, LowerStr(search.value)))
  }

  function ByStatus(ts: seq<Task>, status: Option<string>): seq<Task> {
    if QAController.Present(status) then Filter(ts, (t: Task) => t.status == status.value) else ts
  }

  function ByPriority(ts: seq<Task>, priority: Option<string>): seq<Task> {
    if QAController.Present(priority) then Filter(ts, (t: Task) => t.priority == priority) else ts
  }

  /** The status, priority and search filters of `getTasks`, in that
      order. */
  function FilterTasks(tasks: seq<Task>, status: Option<string>, priority: Option<string>, search: Option<string>)
    : (r: Result<seq<Task>>)
    ensures r.Err? ==> QAController.Present(search)
    ensures r.Ok? ==> |r.value| <= |tasks|
  {
    var byPriority := ByPriority(ByStatus(tasks, status), priority);
    if QAController.Present(search) then
      var r := SearchAll(byPriority, LowerStr(search.value));
      if r.Ok? then Ok(r.value) else r
    else Ok(byPriority)
  }

  /** When the filters succeed they keep exactly the stored tasks that meet
      the conditions. */
  lemma FilterTasksExact(tasks: seq<Task>, status: Option<string>, priority: Option<string>, search: Option<string>)
    requires FilterTasks(tasks, status, priority, search).Ok?
    ensures forall t :: t in FilterTasks(tasks, status, priority, search).value <==>
                        t in tasks && Keeps(t, status, priority, search)
  {
    var byStatus := ByStatus(tasks, status);
    var byPriority := ByPriority(byStatus, priority);
    if QAController.Present(status) {
      FilterMembers(tasks, (t: Task) => t.status == status.value);
    }
    if QAController.Present(priority) {
      FilterMembers(byStatus, (t: Task) => t.priority == priority);
    }
    if QAController.Present(search) {
      FilterMembers(byPriority, (t: Task) => Hit(t, LowerStr(search.value)));
    }
  }

  /** The search fails exactly when some task that passes the status and
      priority filters lacks a field the test has to read. */
  lemma FilterTasksFails(tasks: seq<Task>, status: Option<string>, priority: Option<string>, search: Option<string>)
    ensures FilterTasks(tasks, status, priority, search).Err? <==>
            QAController.Present(search)
            && exists t :: t in ByPriority(ByStatus(tasks, status), priority)
                           && SearchHit(t, LowerStr(search.value)).Err?
  {
  }

  /** `Math.ceil(total / limit)` for a non-zero integer limit. */
  function PageCount(total: nat, limit: int): (r: int)
    requires limit != 0
    ensures limit > 0 ==> (r - 1) * limit < total <= r * limit
    ensures limit < 0 ==> r * limit <= total < (r - 1) * limit
    ensures total == 0 ==> r == 0
  {
    if limit > 0 then
      var q := (total + limit - 1) / limit;
      assert total + limit - 1 == limit * q + (total + limit - 1) % limit;
      q
    else
      var q := total / -limit;
      assert total == -limit * q + total % -limit;
      -q
  }

  /** Each task with the number of stored messages that belong to it. */
  function WithCounts(ts: seq<Task>, messages: seq<ChatController.Message>): (r: seq<TaskView>)
    ensures |r| == |ts|
    ensures forall k :: 0 <= k < |r| ==>
              r[k].task == ts[k] && r[k].messageCount == |ChatController.ForTask(messages, ts[k].id)|
  {
    seq(|ts|, k requires 0 <= k < |ts| => TaskView(ts[k], |ChatController.ForTask(messages, ts[k].id)|))
  }

  /** `getTasks` over a task list and a message list, for parsed page
      numbers: the filtered tasks' page with message counts, the filtered
      total and the page count; a search that raises answers with the
      error. */
  function TasksPage(tasks: seq<Task>, messages: seq<ChatController.Message>, status: Option<string>,
                     priority: Option<string>, search: Option<string>, pageNum: int, limitNum: int)
    : (resp: TaskListResponse)
    requires limitNum != 0
    ensures FilterTasks(tasks, status, priority, search).Err? <==> resp == TaskListError(FetchFailedError)
    ensures resp.TaskList? ==>
              var filtered := FilterTasks(tasks, status, priority, search).value;
              var offset := ChatController.Offset(pageNum, limitNum);
              resp.page == pageNum && resp.limit == limitNum
              && resp.total == |filtered|
              && resp.pages == PageCount(|filtered|, limitNum)
              && |resp.tasks| == |Slice(filtered, offset, offset + limitNum)|
              && (forall k :: 0 <= k < |resp.tasks| ==>
                    resp.tasks[k].task == Slice(filtered, offset, offset + limitNum)[k]
                    && resp.tasks[k].messageCount == |ChatController.ForTask(messages, resp.tasks[k].task.id)|)
    ensures resp.TaskList? && limitNum > 0 ==> |resp.tasks| <= limitNum
  {
    match FilterTasks(tasks, status, priority, search)
    case Err(_) => TaskListError(FetchFailedError)
    case Ok(filtered) =>
      var offset := ChatController.Offset(pageNum, limitNum);
      var paginated := Slice(filtered, offset, offset + limitNum);
      TaskList(WithCounts(paginated, messages), pageNum, limitNum, |filtered|, PageCount(|filtered|, limitNum))
  }

  /** Every listed task is a stored task that meets the conditions. */
  lemma TasksPageExact(tasks: seq<Task>, messages: seq<ChatController.Message>, status: Option<string>,
                       priority: Option<string>, search: Option<string>, pageNum: int, limitNum: int)
    requires limitNum != 0
    ensures var resp := TasksPage(tasks, messages, status, priority, search, pageNum, limitNum);
            resp.TaskList? ==>
              forall k :: 0 <= k < |resp.tasks| ==>
                resp.tasks[k].task in tasks && Keeps(resp.tasks[k].task, status, priority, search)
  {
    var resp := TasksPage(tasks, messages, status, priority, search, pageNum, limitNum);
    if resp.TaskList? {
      var filtered := FilterTasks(tasks, status, priority, search).value;
      var offset := ChatController.Offset(pageNum, limitNum);
      SliceOrdered(filtered, offset, offset + limitNum, (t: Task) => 0);
      FilterTasksExact(tasks, status, priority, search);
    }
  }

  /** The index of the first task with this id. */
  function FindTask(tasks: seq<Task>, id: string): (r: Option<nat>)
    ensures r.None? <==> forall k :: 0 <= k < |tasks| ==> tasks[k].id != id
    ensures r.Some? ==> r.value < |tasks| && tasks[r.value].id == id
    ensures r.Some? ==> forall k :: 0 <= k < r.value ==> tasks[k].id != id
    decreases |tasks|
  {
    if tasks == [] then None
    else if tasks[0].id == id then Some(0)
    else
      match FindTask(tasks[1..], id)
      case None => None
      case Some(k) => Some(k + 1)
  }

  /** The task a create request stores: the request's fields, its own id
      if it gives one, and always the status `logged`. */
  function NewTask(body: TaskBody, generatedId: string, now: int): (t: Task)
    ensures t.status == LoggedStatus
    ensures t.id == body.id.GetOr(generatedId)
    ensures t.title == body.title && t.description == body.description
    ensures t.requesterName == body.requesterName && t.requesterEmail == body.requesterEmail
    ensures t.assignedTo == body.assignedTo && t.priority == body.priority && t.tags == body.tags
    ensures t.createdAt == now && t.updatedAt == now
  {
    Task(body.id.GetOr(generatedId), body.title, body.description, body.requesterName, body.requesterEmail,
         body.assignedTo, LoggedStatus, body.priority, body.tags, now, now)
  }

  /** An assignment of `null`, `undefined` or `''` unassigns the task. */
  function Unassigned(a: Option<string>): (r: Option<string>)
    ensures r.None? <==> a.None? || a.value == ""
    ensures r.Some? ==> r == a
  {
    if a.None? || a.value == "" then None else a
  }

  function Or<T>(patch: Option<T>, current: Option<T>): Option<T> {
    if patch.Some? then patch else current
  }

  /** The spread `{ ...task, ...updates, updated_at }`: each supplied field
      replaces the stored one, the assignment after normalisation. */
  function MergeTask(t: Task, u: TaskUpdate, now: int): (r: Task)
    ensures r.id == u.id.GetOr(t.id) && r.status == u.status.GetOr(t.status)
    ensures r.title == (if u.title.Some? then u.title else t.title)
    ensures r.description == (if u.description.Some? then u.description else t.description)
    ensures r.requesterName == (if u.requesterName.Some? then u.requesterName else t.requesterName)
    ensures r.requesterEmail == (if u.requesterEmail.Some? then u.requesterEmail else t.requesterEmail)
    ensures r.priority == (if u.priority.Some? then u.priority else t.priority)
    ensures r.tags == (if u.tags.Some? then u.tags else t.tags)
    ensures u.assignedTo.None? ==> r.assignedTo == t.assignedTo
    ensures u.assignedTo.Some? ==> r.assignedTo == Unassigned(u.assignedTo.value)
    ensures r.createdAt == u.createdAt.GetOr(t.createdAt) && r.updatedAt == now
  {
    Task(u.id.GetOr(t.id), Or(u.title, t.title), Or(u.description, t.description),
         Or(u.requesterName, t.requesterName), Or(u.requesterEmail, t.requesterEmail),
         if u.assignedTo.Some? then Unassigned(u.assignedTo.value) else t.assignedTo,
         u.status.GetOr(t.status), Or(u.priority, t.priority), Or(u.tags, t.tags),
         u.createdAt.GetOr(t.createdAt), now)
  }

  /** An update with no fields only moves `updated_at`. */
  lemma EmptyUpdateTouchesOnlyTime(t: Task, now: int)
    ensures MergeTask(t, TaskUpdate(None, None, None, None, None, None, None, None, None, None), now)
            == t.(updatedAt := now)
  {
  }

  class TaskStore {
    var tasks: seq<Task>

    /** The store starts from the given records. */
    constructor(initial: seq<Task>)
      ensures tasks == initial
    {
      tasks := initial;
    }

    /** `getTasks` on the stored tasks and the chat store's messages. */
    function GetTasks(page: Option<string>, limit: Option<string>, status: Option<string>,
                      priority: Option<string>, search: Option<string>, chat: ChatController.MessageStore)
      : (resp: TaskListResponse)
      reads this, chat
      ensures resp == TasksPage(tasks, chat.messages, status, priority, search,
                                ChatController.PageNumber(page), ChatController.PageLimit(limit))
    {
      TasksPage(tasks, chat.messages, status, priority, search,
                ChatController.PageNumber(page), ChatController.PageLimit(limit))
    }

    /** `getTask`: the first task with that id and its message count, or
        not found. */
    function GetTask(id: string, chat: ChatController.MessageStore): (resp: TaskResponse)
      reads this, chat
      ensures FindTask(tasks, id).None? <==> resp == TaskMissing(TaskNotFoundError)
      ensures FindTask(tasks, id).Some? ==>
                var t := tasks[FindTask(tasks, id).value];
                resp == TaskFound(TaskView(t, |ChatController.ForTask(chat.messages, t.id)|)) && t.id == id
    {
      match FindTask(tasks, id)
      case None => TaskMissing(TaskNotFoundError)
      case Some(k) => TaskFound(TaskView(tasks[k], |ChatController.ForTask(chat.messages, tasks[k].id)|))
    }

    /** `createTask`: appends exactly one task, with status `logged`. */
    method CreateTask(body: TaskBody, generatedId: string, now: int, chat: ChatController.MessageStore)
      returns (view: TaskView)
      modifies this
      ensures tasks == old(tasks) + [NewTask(body, generatedId, now)]
      ensures view.task == NewTask(body, generatedId, now)
      ensures view.messageCount == |ChatController.ForTask(chat.messages, view.task.id)|
    {
      var taskData := NewTask(body, generatedId, now);
      tasks := tasks + [taskData];
      view := TaskView(taskData, |chat.GetMessagesForTask(taskData.id)|);
    }

    /** `updateTask`: an unknown id answers not found and changes nothing;
        otherwise only the first task with that id is replaced by its merge
        with the update. */
    method UpdateTask(id: string, updates: TaskUpdate, now: int, chat: ChatController.MessageStore)
      returns (resp: TaskResponse)
      modifies this
      ensures FindTask(old(tasks), id).None? ==>
                resp == TaskMissing(TaskNotFoundError) && tasks == old(tasks)
      ensures FindTask(old(tasks), id).Some? ==>
                var k := FindTask(old(tasks), id).value;
                var t := MergeTask(old(tasks)[k], updates, now);
                tasks == old(tasks)[k := t]
                && resp == TaskFound(TaskView(t, |ChatController.ForTask(chat.messages, t.id)|))
    {
      var taskIndex := FindTask(tasks, id);
      if taskIndex.None? {
        return TaskMissing(TaskNotFoundError);
      }
      var k := taskIndex.value;
      var updatedTask := MergeTask(tasks[k], updates, now);
      tasks := tasks[k := updatedTask];
      resp := TaskFound(TaskView(updatedTask, |chat.GetMessagesForTask(updatedTask.id)|));
    }

    /** `deleteTask`: removes the first task with that id; an unknown id
        answers not found and changes nothing. */
    method DeleteTask(id: string) returns (resp: DeleteResponse)
      modifies this
      ensures FindTask(old(tasks), id).None? ==> resp == DeleteMissing(TaskNotFoundError) && tasks == old(tasks)
      ensures FindTask(old(tasks), id).Some? ==>
                var k := FindTask(old(tasks), id).value;
                resp == TaskDeleted && tasks == old(tasks)[..k] + old(tasks)[k + 1..]
    {
      var taskIndex := FindTask(tasks, id);
      if taskIndex.None? {
        return DeleteMissing(TaskNotFoundError);
      }
      var k := taskIndex.value;
      tasks := tasks[..k] + tasks[k + 1..];
      resp := TaskDeleted;
    }
  }

  /** The first index holding the id is what a lookup returns. */
  lemma FindTaskAt(tasks: seq<Task>, id: string, k: nat)
    requires k < |tasks| && tasks[k].id == id
    requires forall j :: 0 <= j < k ==> tasks[j].id != id
    ensures FindTask(tasks, id) == Some(k)
  {
    var r := FindTask(tasks, id);
    assert r.Some?;
  }

  /** After a create, a lookup of the new id finds the new task unless an
      earlier task already had that id, in which case it still finds the
      earlier one. */
  lemma CreateThenFind(tasks: seq<Task>, t: Task)
    ensures FindTask(tasks + [t], t.id) ==
            if FindTask(tasks, t.id).Some? then FindTask(tasks, t.id) else Some(|tasks|)
  {
    var all := tasks + [t];
    assert forall j :: 0 <= j < |tasks| ==> all[j].id == tasks[j].id;
    match FindTask(tasks, t.id)
    case Some(k) =>
      FindTaskAt(all, t.id, k);
    case None =>
      FindTaskAt(all, t.id, |tasks|);
  }

  /** An update that keeps the id leaves the task where a lookup finds it,
      and the lookup then returns the merged task. */
  lemma UpdateThenFind(tasks: seq<Task>, id: string, u: TaskUpdate, now: int)
    requires FindTask(tasks, id).Some?
    requires u.id.None? || u.id == Some(id)
    ensures var k := FindTask(tasks, id).value;
            var after := tasks[k := MergeTask(tasks[k], u, now)];
            FindTask(after, id) == Some(k) && after[k] == MergeTask(tasks[k], u, now)
  {
    var k := FindTask(tasks, id).value;
    var after := tasks[k := MergeTask(tasks[k], u, now)];
    assert forall j :: 0 <= j < k ==> after[j].id == tasks[j].id;
    FindTaskAt(after, id, k);
  }

  /** A delete removes exactly one task, the one found, and keeps the rest
      with their multiplicities. */
  lemma DeleteRemovesOne(tasks: seq<Task>, id: string)
    requires FindTask(tasks, id).Some?
    ensures var k := FindTask(tasks, id).value;
            var after := tasks[..k] + tasks[k + 1..];
            |after| == |tasks| - 1 && multiset(after) + multiset{tasks[k]} == multiset(tasks)
  {
    RemoveAtMultiset(tasks, FindTask(tasks, id).value);
  }
}
