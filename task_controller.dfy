/**
 * `TaskController`, the handlers of the relational task routes. A handler
 * turns the request (route id, query string, body and the validation result
 * of the route's validator chain) into one reply: a status, a message and
 * a body. The id checks, the validation check and the not-found check come
 * in the order the handlers make them; the table is touched only when all
 * of the earlier checks pass.
 */
module TaskController {
  import opened Common
  import opened Ordering
  import opened Validation
  import opened SqlStore
  import opened TaskQuery
  import MongoStore

  /** The JSON body of a reply besides `status` and `message`. */
  datatype Body =
    | NoBody
    | One(row: Row)
    | Many(rows: seq<Row>, count: nat)
    | Invalid(errors: seq<FieldError>)
    /** The call paginated mode makes, whose service function is not part of the relational service; the reply carrying it is `Unrun`. */
    | PageCall(request: PageRequest, filters: MongoStore.TaskFilters)

  datatype Reply = Reply(status: int, message: string, body: Body)

  /** A reply carrying a call the model does not run: its status and message are unknown, written 0 and "". */
  function Unrun(call: Body): (r: Reply)
    ensures r.body == call && r.status == 0 && r.message == ""
  {
    Reply(0, "", call)
  }

  const IdRequired := Reply(400, "Task ID is required", NoBody)
  const IdInvalid := Reply(400, "Invalid task ID", NoBody)
  const NotFound := Reply(404, "Task not found", NoBody)

  /** `!id` then `isNaN(parseInt(id))`: the two checks every by-id handler starts with. */
  function TaskIdOf(id: Option<string>): (r: Result<int, Reply>)
    ensures !Truthy(id) ==> r == Err(IdRequired)
    ensures Truthy(id) && ParseInt(id.value).None? ==> r == Err(IdInvalid)
    ensures r.Ok? <==> Truthy(id) && ParseInt(id.value).Some?
    ensures r.Ok? ==> r.value == ParseInt(id.value).value
  {
    if !Truthy(id) then Err(IdRequired)
    else
      var n := ParseInt(id.value);
      if n.None? then Err(IdInvalid) else Ok(n.value)
  }

  /** The decimal rendering of an id is accepted as that id. */
  lemma TaskIdOfDecimal(n: nat)
    ensures TaskIdOf(Some(NatToDecimal(n))) == Ok(n)
  {
    ParseIntOfDecimal(n);
  }

  /** `'1'` and `'true'` are the true spellings of a validated boolean. */
  function BoolOf(s: string): bool {
    s == "true" || s == "1"
  }

  /** The `CreateTaskInput` a create body carries. */
  function CreateInputOf(b: CreateBody): (input: CreateInput)
    ensures b.title.Some? ==> input.title == b.title.value
    ensures input.description == b.description && input.dueDate == b.dueDate
    ensures input.priority.Some? <==> b.priority.Some? && IsPriorityName(b.priority.value)
    ensures input.priority.Some? ==> PriorityName(input.priority.value) == b.priority.value
  {
    CreateInput(StringForm(b.title), b.description,
      if b.priority.Some? then ParsePriority(b.priority.value) else None,
      b.dueDate)
  }

  /** The `UpdateTaskInput` an update body carries: a field is defined exactly when the body has it. */
  function UpdateInputOf(b: UpdateBody): (u: UpdateInput)
    ensures u.title == b.title && u.description == b.description && u.dueDate == b.dueDate
    ensures u.completed.Some? <==> b.completed.Some?
    ensures u.priority.Some? <==> b.priority.Some? && IsPriorityName(b.priority.value)
    ensures u.priority.Some? ==> PriorityName(u.priority.value) == b.priority.value
  {
    UpdateInput(b.title, b.description,
      if b.completed.Some? then Some(BoolOf(b.completed.value)) else None,
      if b.priority.Some? then ParsePriority(b.priority.value) else None,
      b.dueDate)
  }

  /** The update body of `completeTask` / `uncompleteTask`: `{ completed }` and nothing else. */
  function CompletedOnly(completed: bool): UpdateInput {
    UpdateInput(None, None, Some(completed), None, None)
  }

  /** Marking a task writes its `completed` column and nothing else. */
  lemma CompletedOnlyFlips(row: Row, completed: bool)
    ensures Merge(row, CompletedOnly(completed)) == row.(completed := completed)
    ensures SetColumns(CompletedOnly(completed)) == [CompletedColumn]
  {
  }

  /** Whether a listing plan selects a row. */
  predicate PlanSelects(p: ListPlan, t: Row) {
    match p
    case ByStatus(c) => t.completed == c
    case ByPriority(pr) => t.priority == pr
    case AllTasks => true
    case _ => false
  }

  /** The listing a non-paginated plan calls for, newest first. */
  function PlanRows(table: TaskTable, p: ListPlan): (rows: seq<Row>)
    reads table
    requires p.ByStatus? || p.ByPriority? || p.AllTasks?
    ensures forall t :: t in rows <==> t in table.rows && PlanSelects(p, t)
    ensures forall t :: multiset(rows)[t] == if PlanSelects(p, t) then multiset(table.rows)[t] else 0
    ensures SortedBy(rows, CreatedKey(), false)
  {
    match p
    case ByStatus(c) =>
      var rows := table.GetTasksByStatus(c);
      assert forall t :: multiset(rows)[t] == if PlanSelects(p, t) then multiset(table.rows)[t] else 0 by {
        forall t ensures multiset(rows)[t] == if PlanSelects(p, t) then multiset(table.rows)[t] else 0 {
          FilterMultiplicity(table.rows, WithStatus(c), t);
        }
      }
      rows
    case ByPriority(pr) =>
      var rows := table.GetTasksByPriority(pr);
      assert forall t :: multiset(rows)[t] == if PlanSelects(p, t) then multiset(table.rows)[t] else 0 by {
        forall t ensures multiset(rows)[t] == if PlanSelects(p, t) then multiset(table.rows)[t] else 0 {
          FilterMultiplicity(table.rows, WithPriority(pr), t);
        }
      }
      rows
    case AllTasks =>
      var rows := table.GetAllTasks();
      assert forall t :: t in rows <==> t in multiset(rows);
      assert forall t :: t in table.rows <==> t in multiset(table.rows);
      rows
  }

  /**
   * `getAllTasks`: in paginated mode, the options and filters of the
   * paginated call, with no status claimed since the call is not run; otherwise the listing the plan chooses, newest first,
   * with `count` its length.
   */
  function ListTasks(table: TaskTable, q: ListQuery): (r: Reply)
    reads table
    ensures !IsPaginated(q) ==> r.status == 200 && r.message == "Tasks retrieved successfully"
    ensures IsPaginated(q) ==> r == Unrun(PageCall(RequestOf(q), Filters(q)))
    ensures !IsPaginated(q) ==> r.body.Many? && r.body.count == |r.body.rows|
    ensures !IsPaginated(q) ==> forall t :: t in r.body.rows <==> t in table.rows && PlanSelects(Plan(q, false), t)
    ensures !IsPaginated(q) ==> SortedBy(r.body.rows, CreatedKey(), false)
  {
    var plan := Plan(q, false);
    if plan.Paginated? then Unrun(PageCall(plan.request, plan.filters))
    else
      var rows := PlanRows(table, plan);
      Reply(200, "Tasks retrieved successfully", Many(rows, |rows|))
  }

  /** `getTaskById`: the id checks, then the row or 404. */
  function GetTask(table: TaskTable, id: Option<string>): (r: Reply)
    reads table
    ensures TaskIdOf(id).Err? ==> r == TaskIdOf(id).error
    ensures TaskIdOf(id).Ok? && table.GetTaskById(TaskIdOf(id).value).None? ==> r == NotFound
    ensures TaskIdOf(id).Ok? && table.GetTaskById(TaskIdOf(id).value).Some? ==>
      r == Reply(200, "Task retrieved successfully", One(table.GetTaskById(TaskIdOf(id).value).value))
    ensures r.body.One? ==> r.body.row in table.rows && r.body.row.id == TaskIdOf(id).value
  {
    match TaskIdOf(id)
    case Err(reply) => reply
    case Ok(n) =>
      match table.GetTaskById(n)
      case None => NotFound
      case Some(row) => Reply(200, "Task retrieved successfully", One(row))
  }

  /**
   * `createTask`: 400 with the validation errors and no insert, or 201 with
   * the inserted row, which can then be read back by its id.
   */
  method CreateTask(table: TaskTable, b: CreateBody, isIso: IsoCheck, now: int) returns (reply: Reply)
    requires table.Valid()
    modifies table
    ensures table.Valid()
    ensures CreateErrors(b, isIso) != [] ==>
      reply == Reply(400, "Validation errors", Invalid(CreateErrors(b, isIso))) && unchanged(table)
    ensures CreateErrors(b, isIso) == [] ==>
      && reply.status == 201 && reply.message == "Task created successfully" && reply.body.One?
      && reply.body.row == NewRow(CreateInputOf(b), old(table.nextId), now)
      && table.rows == old(table.rows) + [reply.body.row]
      && GetTask(table, Some(NatToDecimal(reply.body.row.id))) == Reply(200, "Task retrieved successfully", reply.body)
  {
    var errors := CreateErrors(b, isIso);
    if errors != [] {
      return Reply(400, "Validation errors", Invalid(errors));
    }
    CreateErrorsEmptyIffAcceptable(b, isIso);
    var task := table.CreateTask(CreateInputOf(b), now);
    TaskIdOfDecimal(task.id);
    reply := Reply(201, "Task created successfully", One(task));
  }

  /**
   * `updateTask`: the id checks, then the validation errors, then the
   * partial update; 404 when no row has the id.
   */
  method UpdateTask(table: TaskTable, id: Option<string>, b: UpdateBody, isIso: IsoCheck) returns (reply: Reply)
    requires table.Valid()
    modifies table
    ensures table.Valid() && table.nextId == old(table.nextId)
    ensures TaskIdOf(id).Err? ==> reply == TaskIdOf(id).error && table.rows == old(table.rows)
    ensures TaskIdOf(id).Ok? && UpdateErrors(b, isIso) != [] ==>
      reply == Reply(400, "Validation errors", Invalid(UpdateErrors(b, isIso))) && table.rows == old(table.rows)
    ensures TaskIdOf(id).Ok? && UpdateErrors(b, isIso) == [] ==>
      var n := TaskIdOf(id).value;
      && (old(table.GetTaskById(n)).None? ==> reply == NotFound && table.rows == old(table.rows))
      && (old(table.GetTaskById(n)).Some? ==>
            && reply == Reply(200, "Task updated successfully", One(Merge(old(table.GetTaskById(n)).value, UpdateInputOf(b))))
            && table.rows == MergeWhere(old(table.rows), n, UpdateInputOf(b)))
  {
    var taskId := TaskIdOf(id);
    if taskId.Err? {
      return taskId.error;
    }
    var errors := UpdateErrors(b, isIso);
    if errors != [] {
      return Reply(400, "Validation errors", Invalid(errors));
    }
    var task := table.UpdateTask(taskId.value, UpdateInputOf(b));
    if task.None? {
      return NotFound;
    }
    reply := Reply(200, "Task updated successfully", One(task.value));
  }

  /** `deleteTask`: the id checks, then 200 when a row went away and 404 when none had the id. */
  method DeleteTask(table: TaskTable, id: Option<string>) returns (reply: Reply)
    requires table.Valid()
    modifies table
    ensures table.Valid() && table.nextId == old(table.nextId)
    ensures TaskIdOf(id).Err? ==> reply == TaskIdOf(id).error && table.rows == old(table.rows)
    ensures TaskIdOf(id).Ok? ==>
      var n := TaskIdOf(id).value;
      && table.rows == Filter(old(table.rows), OtherId(n))
      && (old(table.GetTaskById(n)).Some? ==> reply == Reply(200, "Task deleted successfully", NoBody))
      && (old(table.GetTaskById(n)).None? ==> reply == NotFound && table.rows == old(table.rows))
  {
    var taskId := TaskIdOf(id);
    if taskId.Err? {
      return taskId.error;
    }
    var deleted := table.DeleteTask(taskId.value);
    if !deleted {
      return NotFound;
    }
    reply := Reply(200, "Task deleted successfully", NoBody);
  }

  /**
   * `completeTask` (`completed` true) and `uncompleteTask` (false): an
   * update whose body is `{ completed }`, with no validation chain.
   */
  method MarkTask(table: TaskTable, id: Option<string>, completed: bool) returns (reply: Reply)
    requires table.Valid()
    modifies table
    ensures table.Valid() && table.nextId == old(table.nextId)
    ensures TaskIdOf(id).Err? ==> reply == TaskIdOf(id).error && table.rows == old(table.rows)
    ensures TaskIdOf(id).Ok? ==>
      var n := TaskIdOf(id).value;
      && (old(table.GetTaskById(n)).None? ==> reply == NotFound && table.rows == old(table.rows))
      && (old(table.GetTaskById(n)).Some? ==>
            && reply == Reply(200, if completed then "Task marked as completed" else "Task marked as pending",
                              One(old(table.GetTaskById(n)).value.(completed := completed)))
            && table.rows == MergeWhere(old(table.rows), n, CompletedOnly(completed)))
  {
    var taskId := TaskIdOf(id);
    if taskId.Err? {
      return taskId.error;
    }
    var task := table.UpdateTask(taskId.value, CompletedOnly(completed));
    if task.None? {
      return NotFound;
    }
    CompletedOnlyFlips(old(table.GetTaskById(taskId.value)).value, completed);
    reply := Reply(200, if completed then "Task marked as completed" else "Task marked as pending", One(task.value));
  }
}
