/**
 * `TaskMongoController`, the handlers of the owner-scoped task routes. Every
 * handler first requires an authenticated caller (401 otherwise) and then
 * works on the caller's tasks only. Ids are passed to the store as strings;
 * a malformed one behaves like a missing task. Errors the store throws in
 * create are answered 400 by the handler; errors it throws in update reach
 * the error middleware.
 */
module TaskMongoController {
  import opened Common
  import opened Ordering
  import opened Validation
  import opened TaskSchema
  import opened MongoStore
  import opened TaskQuery
  import ErrorHandler
  import opened AuthMiddleware

  /** The JSON body of a reply besides `status` and `message`. */
  datatype Body =
    | NoBody
    | One(doc: TaskDoc)
    | Many(docs: seq<TaskDoc>, count: nat)
    | Invalid(errors: seq<FieldError>)
    | PageResult(page: Page)
    /** A paginated call whose page or limit is not a number of at least 1; the reply carrying it is `Unrun`, since the server's answer is not modelled. */
    | PageCall(request: PageRequest, filters: TaskFilters)
    | StatsBody(stats: TaskStats)

  datatype Reply = Reply(status: int, message: string, body: Body)

  /** A reply carrying a call the model does not run: its status and message are unknown, written 0 and "". */
  function Unrun(call: Body): (r: Reply)
    ensures r.body == call && r.status == 0 && r.message == ""
  {
    Reply(0, "", call)
  }

  const AuthRequired := Reply(401, "Authentication required", NoBody)
  const IdRequired := Reply(400, "Task ID is required", NoBody)
  const NotFoundReply := Reply(404, "Task not found", NoBody)
  const Listed := "Tasks retrieved successfully"

  /** What the validator chain sees of a create body: its fields, with the due date as sent. */
  function CreateView(input: CreateInput, dueDateText: Option<string>): (b: CreateBody)
    ensures b.title == input.title && b.description == input.description && b.priority == input.priority
  {
    CreateBody(input.title, input.description, input.priority, dueDateText)
  }

  /**
   * The validator view and the cast view describe the same update body. A
   * `completed` the validator accepts casts as Mongoose casts booleans:
   * 'true' and '1' to true, 'false' and '0' to false. The due date's text
   * and its cast date are linked by presence only: parsing a date is not
   * modelled (the validator sees it through `isIso` alone), so no relation
   * between the two values can be stated.
   */
  predicate SameUpdate(b: UpdateBody, p: Patch) {
    && b.title == p.title && b.description == p.description && b.priority == p.priority
    && (b.completed.Some? <==> p.completed.Some?)
    && (b.completed.Some? && IsBoolean(b.completed.value) ==>
          p.completed.value == (b.completed.value == "true" || b.completed.value == "1"))
    && (b.dueDate.Some? <==> p.dueDate.Some?)
  }

  /**
   * `createTask`: 401 without a caller, 400 with the validation errors, 400
   * with the message of an error the store throws, or 201 with the new task.
   */
  method CreateTask(store: TaskStore, user: Option<AuthUser>, input: CreateInput, dueDateText: Option<string>,
                    isIso: IsoCheck, newId: ObjectId, now: int) returns (reply: Reply)
    requires store.Valid()
    requires IsObjectIdKey(newId) && newId !in store.tasks
    requires dueDateText.Some? <==> input.dueDate.Some?
    modifies store
    ensures store.Valid() && store.users == old(store.users)
    ensures user.None? ==> reply == AuthRequired && unchanged(store)
    ensures user.Some? && CreateErrors(CreateView(input, dueDateText), isIso) != [] ==>
      reply == Reply(400, "Validation errors", Invalid(CreateErrors(CreateView(input, dueDateText), isIso))) && unchanged(store)
    ensures user.Some? && CreateErrors(CreateView(input, dueDateText), isIso) == [] ==>
      if user.value.id !in old(store.users) then
        reply == Reply(400, "User not found", NoBody) && store.tasks == old(store.tasks) && store.order == old(store.order)
      else match Build(DraftOf(user.value.id, input), newId, now)
        case Ok(doc) => reply == Reply(201, "Task created successfully", One(doc)) && store.Docs() == old(store.Docs()) + [doc]
        case Err(vs) =>
          reply == Reply(400, ValidationFailedMessage(Some(TaskModel), vs), NoBody) && store.tasks == old(store.tasks) && store.order == old(store.order)
  {
    if user.None? {
      return AuthRequired;
    }
    var errors := CreateErrors(CreateView(input, dueDateText), isIso);
    if errors != [] {
      return Reply(400, "Validation errors", Invalid(errors));
    }
    var r := store.CreateTask(user.value.id, input, newId, now);
    match r
    case Ok(doc) =>
      reply := Reply(201, "Task created successfully", One(doc));
    case Err(m) =>
      reply := Reply(400, m, NoBody);
  }

  /** Whether a non-paginated plan selects a task of the caller. */
  predicate PlanSelects(p: ListPlan, userId: ObjectId, t: TaskDoc) {
    match p
    case ByStatus(c) => t.userId == userId && t.completed == c
    case ByPriority(pr) => t.userId == userId && t.priority == pr
    case ByCategory(c) => t.userId == userId && t.category == Some(c)
    case AllTasks => t.userId == userId
    case Paginated(_, _) => false
  }

  /** The listing a non-paginated plan calls for, newest first. */
  function PlanDocs(docs: seq<TaskDoc>, userId: ObjectId, p: ListPlan): (r: seq<TaskDoc>)
    requires !p.Paginated?
    ensures forall t :: t in r <==> t in docs && PlanSelects(p, userId, t)
    ensures forall t :: multiset(r)[t] == if PlanSelects(p, userId, t) then multiset(docs)[t] else 0
    ensures SortedBy(r, ByField(CreatedAt), false)
  {
    var selects := PlanSelector(userId, p);
    var r := if p.ByStatus? then GetTasksByStatus(docs, userId, p.completed)
      else if p.ByPriority? then GetTasksByPriority(docs, userId, p.priority)
      else if p.ByCategory? then GetTasksByCategory(docs, userId, p.category)
      else GetAllTasks(docs, userId);
    assert multiset(r) == multiset(Filter(docs, selects));
    assert forall t :: multiset(r)[t] == if PlanSelects(p, userId, t) then multiset(docs)[t] else 0 by {
      forall t ensures multiset(r)[t] == if PlanSelects(p, userId, t) then multiset(docs)[t] else 0 {
        FilterMultiplicity(docs, selects, t);
      }
    }
    r
  }

  /** The store's filter for a non-paginated plan. */
  function PlanSelector(userId: ObjectId, p: ListPlan): TaskDoc -> bool
    requires !p.Paginated?
  {
    match p
    case ByStatus(c) => WithStatus(userId, c)
    case ByPriority(pr) => WithPriority(userId, pr)
    case ByCategory(c) => InCategory(userId, c)
    case AllTasks => OwnedBy(userId)
  }

  /**
   * `getAllTasks`: 401 without a caller; in paginated mode the page of the
   * caller's matching tasks (see `PageCall` for options outside the
   * service's domain); otherwise the listing the plan chooses with `count`
   * its length.
   */
  function ListTasks(store: TaskStore, user: Option<AuthUser>, q: ListQuery, textMatch: TextMatch): (r: Reply)
    reads store
    requires store.Valid()
    ensures user.None? ==> r == AuthRequired
    ensures user.Some? && !(IsPaginated(q) && OptionsOf(RequestOf(q)).None?) ==> r.status == 200 && r.message == Listed
    ensures user.Some? && IsPaginated(q) && OptionsOf(RequestOf(q)).Some? ==>
      && r.body.PageResult?
      && r.body.page == GetTasksPaginated(store.Docs(), user.value.id, OptionsOf(RequestOf(q)).value, Filters(q), textMatch)
      && forall t :: t in r.body.page.data ==> t in store.Docs() && MatchesFilters(t, user.value.id, Filters(q), textMatch)
    ensures user.Some? && IsPaginated(q) && OptionsOf(RequestOf(q)).None? ==> r == Unrun(PageCall(RequestOf(q), Filters(q)))
    ensures user.Some? && !IsPaginated(q) ==>
      && r.body.Many? && r.body.count == |r.body.docs|
      && (forall t :: t in r.body.docs <==> t in store.Docs() && PlanSelects(Plan(q, true), user.value.id, t))
      && SortedBy(r.body.docs, ByField(CreatedAt), false)
  {
    if user.None? then AuthRequired
    else
      var plan := Plan(q, true);
      if plan.Paginated? then
        match OptionsOf(plan.request)
        case Some(o) => Reply(200, Listed, PageResult(GetTasksPaginated(store.Docs(), user.value.id, o, plan.filters, textMatch)))
        case None => Unrun(PageCall(plan.request, plan.filters))
      else
        var docs := PlanDocs(store.Docs(), user.value.id, plan);
        Reply(200, Listed, Many(docs, |docs|))
  }

  /** A paginated listing never shows a task of another user, whatever the query. */
  lemma PaginatedListingIsOwnerScoped(store: TaskStore, u: AuthUser, q: ListQuery, textMatch: TextMatch)
    requires store.Valid()
    ensures var r := ListTasks(store, Some(u), q, textMatch);
      r.body.PageResult? ==> forall t :: t in r.body.page.data ==> t.userId == u.id
  {
  }

  /** `getTaskById`: 401, then 400 for an empty id, then the caller's task or 404. */
  function GetTask(store: TaskStore, user: Option<AuthUser>, id: Option<string>): (r: Reply)
    reads store
    requires store.Valid()
    ensures user.None? ==> r == AuthRequired
    ensures user.Some? && !Truthy(id) ==> r == IdRequired
    ensures user.Some? && Truthy(id) ==>
      match store.GetTaskById(user.value.id, id.value)
      case None => r == NotFoundReply
      case Some(doc) => r == Reply(200, "Task retrieved successfully", One(doc))
    ensures r.body.One? ==>
      && r.body.doc in store.Docs() && r.body.doc.userId == user.value.id
      && IsValidObjectId(id.value) && r.body.doc.id == IdKey(id.value)
  {
    if user.None? then AuthRequired
    else if !Truthy(id) then IdRequired
    else
      match store.GetTaskById(user.value.id, id.value)
      case None => NotFoundReply
      case Some(doc) => Reply(200, "Task retrieved successfully", One(doc))
  }

  /** Another user's task is reported exactly like a missing one. */
  lemma OthersTasksAreNotFound(store: TaskStore, u: AuthUser, id: string)
    requires store.Valid()
    requires id in store.tasks && store.tasks[id].userId != u.id
    ensures GetTask(store, Some(u), Some(id)) == NotFoundReply
  {
    IdKeyOfKey(id);
  }

  /** An id written in upper case, in lower case or mixed gets the same reply as its cast. */
  lemma AnySpellingGetsSameReply(store: TaskStore, u: AuthUser, id: string)
    requires store.Valid() && IsValidObjectId(id)
    ensures GetTask(store, Some(u), Some(id)) == GetTask(store, Some(u), Some(IdKey(id)))
  {
    AnySpellingFindsSameTask(store, u.id, id);
  }

  /** The reply the error middleware gives to a `ValidationError` thrown with message `m`, outside development. */
  function ThrownValidation(m: string): (r: Reply)
    ensures r.status == 400
    ensures r.message == "Validation Error" || r.message == "Duplicate field value entered"
  {
    var e := ErrorHandler.Handle(ErrorHandler.AppError("ValidationError", m, None, ""), false);
    Reply(e.status, e.message, NoBody)
  }

  /**
   * `updateTask`: 401, then 400 for an empty id, then the validation errors,
   * then the store's update; a document the schema rejects is thrown to the
   * error middleware.
   */
  method UpdateTask(store: TaskStore, user: Option<AuthUser>, id: Option<string>, b: UpdateBody, p: Patch,
                    isIso: IsoCheck, now: int) returns (reply: Reply)
    requires store.Valid()
    requires SameUpdate(b, p)
    modifies store
    ensures store.Valid() && store.users == old(store.users) && store.order == old(store.order)
    ensures user.None? ==> reply == AuthRequired && unchanged(store)
    ensures user.Some? && !Truthy(id) ==> reply == IdRequired && unchanged(store)
    ensures user.Some? && Truthy(id) && UpdateErrors(b, isIso) != [] ==>
      reply == Reply(400, "Validation errors", Invalid(UpdateErrors(b, isIso))) && unchanged(store)
    ensures user.Some? && Truthy(id) && UpdateErrors(b, isIso) == [] ==>
      var found := old(store.GetTaskById(user.value.id, id.value));
      && (!IsValidObjectId(id.value) ==> reply == NotFoundReply && store.tasks == old(store.tasks))
      && (IsValidObjectId(id.value) && !PatchAcceptable(p, now) ==>
            reply == ThrownValidation(ValidationFailedMessage(None, PatchViolations(p, now)))
            && store.tasks == old(store.tasks))
      && (IsValidObjectId(id.value) && PatchAcceptable(p, now) ==>
            if found.Some? then
              && reply == Reply(200, "Task updated successfully", One(ApplyPatch(found.value, p, now)))
              && store.tasks == old(store.tasks)[IdKey(id.value) := ApplyPatch(found.value, p, now)]
            else reply == NotFoundReply && store.tasks == old(store.tasks))
  {
    if user.None? {
      return AuthRequired;
    }
    if !Truthy(id) {
      return IdRequired;
    }
    var errors := UpdateErrors(b, isIso);
    if errors != [] {
      return Reply(400, "Validation errors", Invalid(errors));
    }
    var r := store.UpdateTask(user.value.id, id.value, p, now);
    match r
    case Updated(doc) =>
      reply := Reply(200, "Task updated successfully", One(doc));
    case NotFound =>
      reply := NotFoundReply;
    case Rejected(m) =>
      reply := ThrownValidation(m);
  }

  /** `deleteTask`: 401, then 400 for an empty id, then 200 when the caller's task went away and 404 otherwise. */
  method DeleteTask(store: TaskStore, user: Option<AuthUser>, id: Option<string>) returns (reply: Reply)
    requires store.Valid()
    modifies store
    ensures store.Valid() && store.users == old(store.users)
    ensures user.None? ==> reply == AuthRequired && unchanged(store)
    ensures user.Some? && !Truthy(id) ==> reply == IdRequired && unchanged(store)
    ensures user.Some? && Truthy(id) ==>
      if old(store.GetTaskById(user.value.id, id.value)).Some? then
        && IsValidObjectId(id.value)
        && reply == Reply(200, "Task deleted successfully", NoBody) && store.tasks == old(store.tasks) - {IdKey(id.value)}
        && store.order == Filter(old(store.order), OtherThan(IdKey(id.value)))
      else reply == NotFoundReply && store.tasks == old(store.tasks) && store.order == old(store.order)
  {
    if user.None? {
      return AuthRequired;
    }
    if !Truthy(id) {
      return IdRequired;
    }
    var deleted := store.DeleteTask(user.value.id, id.value);
    if !deleted {
      return NotFoundReply;
    }
    reply := Reply(200, "Task deleted successfully", NoBody);
  }

  /** The update of `completeTask` / `uncompleteTask`: `{ completed }` and nothing else. */
  function CompletedPatch(completed: bool): Patch {
    Patch(None, None, Some(completed), None, None, None, None, None, None)
  }

  /** Marking a task sets `completed` and the update timestamp, and nothing else. */
  lemma CompletedPatchFlips(t: TaskDoc, completed: bool, now: int)
    ensures PatchAcceptable(CompletedPatch(completed), now)
    ensures ApplyPatch(t, CompletedPatch(completed), now) == t.(completed := completed, updatedAt := now)
  {
  }

  /** `completeTask` (`completed` true) and `uncompleteTask` (false). */
  method MarkTask(store: TaskStore, user: Option<AuthUser>, id: Option<string>, completed: bool, now: int) returns (reply: Reply)
    requires store.Valid()
    modifies store
    ensures store.Valid() && store.users == old(store.users) && store.order == old(store.order)
    ensures user.None? ==> reply == AuthRequired && unchanged(store)
    ensures user.Some? && !Truthy(id) ==> reply == IdRequired && unchanged(store)
    ensures user.Some? && Truthy(id) ==>
      var found := old(store.GetTaskById(user.value.id, id.value));
      if found.Some? then
        var doc := found.value.(completed := completed, updatedAt := now);
        && reply == Reply(200, if completed then "Task marked as completed" else "Task marked as pending", One(doc))
        && IsValidObjectId(id.value) && store.tasks == old(store.tasks)[IdKey(id.value) := doc]
      else reply == NotFoundReply && store.tasks == old(store.tasks)
  {
    if user.None? {
      return AuthRequired;
    }
    if !Truthy(id) {
      return IdRequired;
    }
    var found := store.GetTaskById(user.value.id, id.value);
    if found.Some? {
      CompletedPatchFlips(found.value, completed, now);
    }
    var r := store.UpdateTask(user.value.id, id.value, CompletedPatch(completed), now);
    if !r.Updated? {
      return NotFoundReply;
    }
    reply := Reply(200, if completed then "Task marked as completed" else "Task marked as pending", One(r.doc));
  }

  /** `getOverdueTasks`: the caller's overdue tasks, soonest due first, with `count` their number. */
  function OverdueTasks(store: TaskStore, user: Option<AuthUser>, now: int): (r: Reply)
    reads store
    requires store.Valid()
    ensures user.None? ==> r == AuthRequired
    ensures user.Some? ==>
      && r.status == 200 && r.message == "Overdue tasks retrieved successfully" && r.body.Many?
      && r.body.count == |r.body.docs|
      && (forall t :: t in r.body.docs <==> t in store.Docs() && t.userId == user.value.id && IsOverdue(t, now))
      && SortedBy(r.body.docs, ByField(DueDate), true)
  {
    if user.None? then AuthRequired
    else
      var docs := GetOverdueTasks(store.Docs(), user.value.id, now);
      Reply(200, "Overdue tasks retrieved successfully", Many(docs, |docs|))
  }

  /** `getTaskStats`'s handler on the corrected statistics, whose overdue count is that of the overdue listing. */
  function TaskStatistics(store: TaskStore, user: Option<AuthUser>, now: int): (r: Reply)
    reads store
    requires store.Valid()
    ensures user.None? ==> r == AuthRequired
    ensures user.Some? ==>
      && r.status == 200 && r.message == "Task statistics retrieved successfully" && r.body.StatsBody?
      && r.body.stats.total == Count(store.Docs(), OwnedBy(user.value.id))
      && r.body.stats.completed == Count(store.Docs(), WithStatus(user.value.id, true))
      && r.body.stats.pending == Count(store.Docs(), WithStatus(user.value.id, false))
      && r.body.stats.overdue == |GetOverdueTasks(store.Docs(), user.value.id, now)|
  {
    if user.None? then AuthRequired
    else Reply(200, "Task statistics retrieved successfully", StatsBody(GetTaskStats(store.Docs(), user.value.id, now)))
  }

  /** The handler as written: it forwards `getTaskStats` with the aggregation's `$lt` overdue condition. */
  function TaskStatisticsAsWritten(store: TaskStore, user: Option<AuthUser>, now: int): (r: Reply)
    reads store
    requires store.Valid()
    ensures user.None? ==> r == AuthRequired
    ensures user.Some? ==>
      && r.status == 200 && r.message == "Task statistics retrieved successfully" && r.body.StatsBody?
      && r.body.stats.overdue == Count(store.Docs(), WrittenOverdueFor(user.value.id, now))
      && r.body.stats.(overdue := 0) == TaskStatistics(store, user, now).body.stats.(overdue := 0)
  {
    if user.None? then AuthRequired
    else Reply(200, "Task statistics retrieved successfully", StatsBody(StatsAsWritten(store.Docs(), user.value.id, now)))
  }

  /** The corrected overdue count of the statistics is the `count` of the overdue listing at the same instant. */
  lemma StatsAgreeWithOverdueListing(store: TaskStore, u: AuthUser, now: int)
    requires store.Valid()
    ensures TaskStatistics(store, Some(u), now).body.stats.overdue == OverdueTasks(store, Some(u), now).body.count
  {
  }

  /** As written, the statistics exceed the overdue listing's `count` by the caller's pending tasks without a due date. */
  lemma StatsAsWrittenExceedOverdueListing(store: TaskStore, u: AuthUser, now: int)
    requires store.Valid()
    ensures TaskStatisticsAsWritten(store, Some(u), now).body.stats.overdue
         == OverdueTasks(store, Some(u), now).body.count + Count(store.Docs(), UndatedPending(u.id))
  {
    StatsAsWrittenCountsUndated(store.Docs(), u.id, now);
  }
}
