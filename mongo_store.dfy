/**
 * The owner-scoped task collection behind `TaskMongoService`: every query
 * carries the caller's `userId`, so a task owned by someone else is
 * indistinguishable from a missing one. The collection is a class holding
 * the documents by id (in the canonical lower-case form of an ObjectId),
 * the natural (insertion) order MongoDB returns them in, and the set of
 * existing users; listings, pagination and statistics
 * are functions of the documents in natural order.
 */
module MongoStore {
  import opened Common
  import opened Ordering
  import opened TaskSchema

  // ---------------------------------------------------------------------------
  // Query filters
  // ---------------------------------------------------------------------------

  /** A full-text `$text: { $search }` match; tokenising, stemming and scoring are not modelled. */
  type TextMatch = (TaskDoc, string) -> bool

  datatype TaskFilters = TaskFilters(completed: Option<bool>, priority: Option<Priority>, search: Option<string>)

  /** The query document: the owner plus the conditions that were added. */
  datatype Query = Query(userId: ObjectId, completed: Option<bool>, priority: Option<Priority>, text: Option<string>)

  /** Builds the query the way the service does: a condition is added only when its filter is set. */
  function BuildQuery(userId: ObjectId, f: TaskFilters): (q: Query)
    ensures q.userId == userId
  {
    Query(userId,
      if f.completed.Some? then f.completed else None,
      if f.priority.Some? then f.priority else None,
      if Truthy(f.search) then f.search else None)
  }

  /** Whether MongoDB selects document `t` for query `q`. */
  predicate Selects(q: Query, t: TaskDoc, textMatch: TextMatch) {
    && t.userId == q.userId
    && (q.completed.Some? ==> t.completed == q.completed.value)
    && (q.priority.Some? ==> t.priority == q.priority.value)
    && (q.text.Some? ==> textMatch(t, q.text.value))
  }

  /** The conjunction a paginated listing promises, stated on the filters themselves. */
  predicate MatchesFilters(t: TaskDoc, userId: ObjectId, f: TaskFilters, textMatch: TextMatch) {
    && t.userId == userId
    && (f.completed.Some? ==> t.completed == f.completed.value)
    && (f.priority.Some? ==> t.priority == f.priority.value)
    && (f.search.Some? && f.search.value != "" ==> textMatch(t, f.search.value))
  }

  lemma BuildQuerySelectsMatches(userId: ObjectId, f: TaskFilters, t: TaskDoc, textMatch: TextMatch)
    ensures Selects(BuildQuery(userId, f), t, textMatch) <==> MatchesFilters(t, userId, f, textMatch)
  {
  }

  // ---------------------------------------------------------------------------
  // Sort field lookup
  // ---------------------------------------------------------------------------

  datatype SortField = CreatedAt | UpdatedAt | Title | PriorityField | DueDate | NoSuchField(name: string)

  function FieldName(f: SortField): string {
    match f
    case CreatedAt => "createdAt"
    case UpdatedAt => "updatedAt"
    case Title => "title"
    case PriorityField => "priority"
    case DueDate => "dueDate"
    case NoSuchField(n) => n
  }

  /** The own entries of the `sortFields` table. */
  function OwnSortField(sortBy: string): (r: Option<SortField>)
    ensures r.Some? ==> FieldName(r.value) == sortBy && !r.value.NoSuchField?
  {
    if sortBy == "createdAt" then Some(CreatedAt)
    else if sortBy == "updatedAt" then Some(UpdatedAt)
    else if sortBy == "title" then Some(Title)
    else if sortBy == "priority" then Some(PriorityField)
    else if sortBy == "dueDate" then Some(DueDate)
    else None
  }

  /** The property names every plain JavaScript object inherits; each one's value is truthy. */
  const InheritedNames: set<string> := {
    "constructor", "hasOwnProperty", "isPrototypeOf", "propertyIsEnumerable",
    "toString", "toLocaleString", "valueOf", "__proto__",
    "__defineGetter__", "__defineSetter__", "__lookupGetter__", "__lookupSetter__"}

  /**
   * `sortFields[sortBy] || 'createdAt'` as written: an inherited name finds
   * a truthy value, so the fallback is skipped and the sort specification
   * names a key no document has.
   */
  function SortFieldAsWritten(sortBy: string): (f: SortField)
    ensures sortBy in InheritedNames ==> f.NoSuchField?
  {
    if OwnSortField(sortBy).Some? then OwnSortField(sortBy).value
    else if sortBy in InheritedNames then NoSuchField(sortBy)
    else CreatedAt
  }

  /** The intended lookup: one of the five sortable fields, `createdAt` for any other name. */
  function SortFieldOf(sortBy: string): (f: SortField)
    ensures !f.NoSuchField?
    ensures sortBy in {"createdAt", "updatedAt", "title", "priority", "dueDate"} ==> FieldName(f) == sortBy
    ensures sortBy !in {"createdAt", "updatedAt", "title", "priority", "dueDate"} ==> f == CreatedAt
  {
    if OwnSortField(sortBy).Some? then OwnSortField(sortBy).value else CreatedAt
  }

  /** The two lookups differ exactly on the names an object literal inherits. */
  lemma SortLookupsDifferOnInheritedNames(sortBy: string)
    ensures sortBy !in InheritedNames ==> SortFieldAsWritten(sortBy) == SortFieldOf(sortBy)
    ensures sortBy in InheritedNames ==> SortFieldAsWritten(sortBy) != SortFieldOf(sortBy)
  {
  }

  /** The value a document is ordered by; `priority` sorts as a string and a missing `dueDate` first. */
  function KeyOf(f: SortField, t: TaskDoc): SortKey {
    match f
    case CreatedAt => Date(t.createdAt)
    case UpdatedAt => Date(t.updatedAt)
    case Title => Text(t.title)
    case PriorityField => Text(PriorityName(t.priority))
    case DueDate => if t.dueDate.Some? then Date(t.dueDate.value) else Missing
    case NoSuchField(_) => Missing
  }

  /** The sort key of a field, as a function of the document. */
  function ByField(f: SortField): TaskDoc -> SortKey {
    (t: TaskDoc) => KeyOf(f, t)
  }

  /** A key no document has ties every pair, so any order of the documents satisfies the sort. */
  lemma MissingKeyAdmitsEveryOrder(s: seq<TaskDoc>, name: string, ascending: bool)
    ensures SortedBy(s, ByField(NoSuchField(name)), ascending)
  {
  }

  // ---------------------------------------------------------------------------
  // Listings
  // ---------------------------------------------------------------------------

  function OwnedBy(userId: ObjectId): TaskDoc -> bool {
    (t: TaskDoc) => t.userId == userId
  }

  function WithStatus(userId: ObjectId, completed: bool): TaskDoc -> bool {
    (t: TaskDoc) => t.userId == userId && t.completed == completed
  }

  function WithPriority(userId: ObjectId, priority: Priority): TaskDoc -> bool {
    (t: TaskDoc) => t.userId == userId && t.priority == priority
  }

  function InCategory(userId: ObjectId, category: string): TaskDoc -> bool {
    (t: TaskDoc) => t.userId == userId && t.category == Some(category)
  }

  function OverdueFor(userId: ObjectId, now: int): TaskDoc -> bool {
    (t: TaskDoc) => t.userId == userId && IsOverdue(t, now)
  }

  /** `find({ userId }).sort({ createdAt: -1 })`. */
  function GetAllTasks(docs: seq<TaskDoc>, userId: ObjectId): (r: seq<TaskDoc>)
    ensures forall t :: t in r <==> t in docs && t.userId == userId
    ensures multiset(r) == multiset(Filter(docs, OwnedBy(userId)))
    ensures SortedBy(r, ByField(CreatedAt), false)
  {
    Sort(Filter(docs, OwnedBy(userId)), ByField(CreatedAt), false)
  }

  /** `find({ userId, completed }).sort({ createdAt: -1 })`. */
  function GetTasksByStatus(docs: seq<TaskDoc>, userId: ObjectId, completed: bool): (r: seq<TaskDoc>)
    ensures forall t :: t in r <==> t in docs && t.userId == userId && t.completed == completed
    ensures multiset(r) == multiset(Filter(docs, WithStatus(userId, completed)))
    ensures SortedBy(r, ByField(CreatedAt), false)
  {
    Sort(Filter(docs, WithStatus(userId, completed)), ByField(CreatedAt), false)
  }

  /** `find({ userId, priority }).sort({ createdAt: -1 })`. */
  function GetTasksByPriority(docs: seq<TaskDoc>, userId: ObjectId, priority: Priority): (r: seq<TaskDoc>)
    ensures forall t :: t in r <==> t in docs && t.userId == userId && t.priority == priority
    ensures multiset(r) == multiset(Filter(docs, WithPriority(userId, priority)))
    ensures SortedBy(r, ByField(CreatedAt), false)
  {
    Sort(Filter(docs, WithPriority(userId, priority)), ByField(CreatedAt), false)
  }

  /** `find({ userId, category }).sort({ createdAt: -1 })`; a task without a category never matches. */
  function GetTasksByCategory(docs: seq<TaskDoc>, userId: ObjectId, category: string): (r: seq<TaskDoc>)
    ensures forall t :: t in r <==> t in docs && t.userId == userId && t.category == Some(category)
    ensures multiset(r) == multiset(Filter(docs, InCategory(userId, category)))
    ensures SortedBy(r, ByField(CreatedAt), false)
  {
    Sort(Filter(docs, InCategory(userId, category)), ByField(CreatedAt), false)
  }

  /** `find({ userId, dueDate: { $lt: now }, completed: false }).sort({ dueDate: 1 })`. */
  function GetOverdueTasks(docs: seq<TaskDoc>, userId: ObjectId, now: int): (r: seq<TaskDoc>)
    ensures forall t :: t in r <==> t in docs && t.userId == userId && IsOverdue(t, now)
    ensures |r| == Count(docs, OverdueFor(userId, now))
    ensures SortedBy(r, ByField(DueDate), true)
  {
    CountIsFilterLength(docs, OverdueFor(userId, now));
    Sort(Filter(docs, OverdueFor(userId, now)), ByField(DueDate), true)
  }

  /** In an overdue listing every due date has passed, and each is no later than the next one. */
  lemma OverdueSoonestFirst(docs: seq<TaskDoc>, userId: ObjectId, now: int, i: int, j: int)
    requires 0 <= i < j < |GetOverdueTasks(docs, userId, now)|
    ensures var r := GetOverdueTasks(docs, userId, now);
      r[i].dueDate.Some? && r[j].dueDate.Some? && r[i].dueDate.value <= r[j].dueDate.value < now
  {
    OverdueInDueOrder(GetOverdueTasks(docs, userId, now), now, i, j);
  }

  lemma OverdueInDueOrder(r: seq<TaskDoc>, now: int, i: int, j: int)
    requires 0 <= i < j < |r|
    requires forall t :: t in r ==> IsOverdue(t, now)
    requires SortedBy(r, ByField(DueDate), true)
    ensures r[i].dueDate.Some? && r[j].dueDate.Some? && r[i].dueDate.value <= r[j].dueDate.value < now
  {
    var x, y := r[i], r[j];
    assert IsOverdue(x, now) && IsOverdue(y, now);
    assert KeyLe(KeyOf(DueDate, x), KeyOf(DueDate, y)) by {
      assert Precedes(ByField(DueDate), true, x, y);
    }
  }

  // ---------------------------------------------------------------------------
  // Pagination
  // ---------------------------------------------------------------------------

  datatype PaginationOptions = PaginationOptions(
    page: Option<int>, limit: Option<int>, sortBy: Option<string>, sortOrder: Option<string>)

  datatype Pagination = Pagination(
    page: int, limit: int, total: nat, totalPages: nat, hasNext: bool, hasPrev: bool)

  datatype Page = Page(data: seq<TaskDoc>, pagination: Pagination)

  /** `Math.ceil(total / limit)`. */
  function TotalPages(total: nat, limit: int): (n: nat)
    requires limit >= 1
    ensures n * limit >= total
    ensures n > 0 ==> (n - 1) * limit < total
  {
    (total + limit - 1) / limit
  }

  predicate PageArgumentsInRange(o: PaginationOptions) {
    (o.page.Some? ==> o.page.value >= 1) && (o.limit.Some? ==> o.limit.value >= 1)
  }

  /** The query as a predicate on documents. */
  function Selecting(q: Query, textMatch: TextMatch): TaskDoc -> bool {
    (t: TaskDoc) => Selects(q, t, textMatch)
  }

  /** The filtered tasks in the order the listing sorts them (before skip and limit). */
  function SortedSelection(docs: seq<TaskDoc>, userId: ObjectId, o: PaginationOptions, f: TaskFilters, textMatch: TextMatch): seq<TaskDoc> {
    var field := SortFieldOf(if o.sortBy.Some? then o.sortBy.value else "createdAt");
    var ascending := (if o.sortOrder.Some? then o.sortOrder.value else "DESC") == "ASC";
    Sort(Filter(docs, Selecting(BuildQuery(userId, f), textMatch)), ByField(field), ascending)
  }

  /** Every task of the sorted selection is one of the caller's tasks that passes the filters. */
  lemma SortedSelectionMatches(docs: seq<TaskDoc>, userId: ObjectId, o: PaginationOptions, f: TaskFilters, textMatch: TextMatch)
    ensures forall t :: t in SortedSelection(docs, userId, o, f, textMatch) ==> t in docs && MatchesFilters(t, userId, f, textMatch)
  {
    forall t | t in SortedSelection(docs, userId, o, f, textMatch)
      ensures t in docs && MatchesFilters(t, userId, f, textMatch)
    {
      BuildQuerySelectsMatches(userId, f, t, textMatch);
    }
  }

  lemma WindowMembers<T>(s: seq<T>, offset: nat, limit: nat)
    ensures forall x :: x in Window(s, offset, limit) ==> x in s
  {
    var w := Window(s, offset, limit);
    forall x | x in w ensures x in s {
      var i :| 0 <= i < |w| && w[i] == x;
      assert s[offset + i] == x;
    }
  }

  /** `(page - 1) * limit`: the number of tasks on the pages before `page`. */
  function Offset(page: int, limit: int): nat
    requires page >= 1 && limit >= 1
  {
    var before: nat := page - 1;
    before * limit
  }

  /** The page `page` of `all`, `limit` tasks to a page, with its pagination flags. */
  function PageOf(all: seq<TaskDoc>, page: int, limit: int): (r: Page)
    requires page >= 1 && limit >= 1
    ensures r.pagination == Pagination(page, limit, |all|, TotalPages(|all|, limit), page < TotalPages(|all|, limit), page > 1)
    ensures r.data == Window(all, Offset(page, limit), limit)
    ensures |r.data| <= limit
    ensures forall t :: t in r.data ==> t in all
  {
    WindowMembers(all, Offset(page, limit), limit);
    var totalPages := TotalPages(|all|, limit);
    Page(Window(all, Offset(page, limit), limit), Pagination(page, limit, |all|, totalPages, page < totalPages, page > 1))
  }

  /**
   * `getTasksPaginated`: defaults page 1, limit 10, `createdAt`, `DESC`;
   * counts every matching task, returns the page at offset
   * `(page - 1) * limit`, and derives the page flags from the count.
   */
  function GetTasksPaginated(docs: seq<TaskDoc>, userId: ObjectId, o: PaginationOptions, f: TaskFilters, textMatch: TextMatch): (r: Page)
    requires PageArgumentsInRange(o)
    ensures var page := if o.page.Some? then o.page.value else 1;
            var limit := if o.limit.Some? then o.limit.value else 10;
            var all := SortedSelection(docs, userId, o, f, textMatch);
      && r.pagination.page == page && r.pagination.limit == limit
      && r.pagination.total == |all|
      && r.data == Window(all, Offset(page, limit), limit)
      && |r.data| <= limit
      && r.pagination.hasNext == (page < r.pagination.totalPages)
      && r.pagination.hasPrev == (page > 1)
    ensures forall t :: t in r.data ==> t in docs && MatchesFilters(t, userId, f, textMatch)
  {
    SortedSelectionMatches(docs, userId, o, f, textMatch);
    PageOf(SortedSelection(docs, userId, o, f, textMatch),
           if o.page.Some? then o.page.value else 1,
           if o.limit.Some? then o.limit.value else 10)
  }

  /** Omitted options mean page 1, limit 10, newest first. */
  lemma PaginationDefaults(docs: seq<TaskDoc>, userId: ObjectId, f: TaskFilters, textMatch: TextMatch)
    ensures GetTasksPaginated(docs, userId, PaginationOptions(None, None, None, None), f, textMatch)
         == GetTasksPaginated(docs, userId, PaginationOptions(Some(1), Some(10), Some("createdAt"), Some("DESC")), f, textMatch)
  {
  }

  /** There is a next page exactly when the tasks before the end of this page are fewer than the total. */
  lemma HasNextIffMoreTasks(total: nat, page: int, limit: int)
    requires page >= 1 && limit >= 1
    ensures page < TotalPages(total, limit) <==> page * limit < total
  {
    var n := TotalPages(total, limit);
    if page < n {
      assert page <= n - 1;
      assert page * limit <= (n - 1) * limit;
    } else {
      assert n <= page;
      assert n * limit <= page * limit;
    }
  }

  /** A page that is followed by another one is full. */
  lemma PageBeforeLastIsFull(docs: seq<TaskDoc>, userId: ObjectId, o: PaginationOptions, f: TaskFilters, textMatch: TextMatch)
    requires PageArgumentsInRange(o)
    ensures var r := GetTasksPaginated(docs, userId, o, f, textMatch);
      r.pagination.hasNext ==> |r.data| == r.pagination.limit
  {
    var page := if o.page.Some? then o.page.value else 1;
    var limit := if o.limit.Some? then o.limit.value else 10;
    var all := SortedSelection(docs, userId, o, f, textMatch);
    if page < TotalPages(|all|, limit) {
      PageBeforeLastEndsInside(|all|, page, limit);
    }
  }

  /** A page before the last one ends inside the matching tasks. */
  lemma PageBeforeLastEndsInside(total: nat, page: int, limit: int)
    requires page >= 1 && limit >= 1 && page < TotalPages(total, limit)
    ensures Offset(page, limit) + limit <= total
  {
    HasNextIffMoreTasks(total, page, limit);
    var before := page - 1;
    assert before * limit + limit == page * limit;
  }

  // ---------------------------------------------------------------------------
  // Statistics
  // ---------------------------------------------------------------------------

  datatype TaskStats = TaskStats(
    total: nat, completed: nat, pending: nat, overdue: nat,
    highPriority: nat, mediumPriority: nat, lowPriority: nat)

  const NoStats := TaskStats(0, 0, 0, 0, 0, 0, 0)

  /**
   * `getTaskStats`: the `$group` counts over the caller's tasks, or all
   * zeros when the caller has none (`stats[0] || {...}`). The overdue count
   * includes only tasks that have a due date (see `StatsAsWritten`).
   */
  function GetTaskStats(docs: seq<TaskDoc>, userId: ObjectId, now: int): (s: TaskStats)
    ensures s.total == Count(docs, OwnedBy(userId))
    ensures s.completed == Count(docs, WithStatus(userId, true))
    ensures s.pending == Count(docs, WithStatus(userId, false))
    ensures s.highPriority == Count(docs, WithPriority(userId, High))
    ensures s.mediumPriority == Count(docs, WithPriority(userId, Medium))
    ensures s.lowPriority == Count(docs, WithPriority(userId, Low))
    ensures s.completed + s.pending == s.total
    ensures s.highPriority + s.mediumPriority + s.lowPriority == s.total
    ensures s.overdue <= s.pending
    ensures s.overdue == |GetOverdueTasks(docs, userId, now)|
    ensures s.total == 0 ==> s == NoStats
  {
    var mine := OwnedBy(userId);
    var done := WithStatus(userId, true);
    var open := WithStatus(userId, false);
    var late := OverdueFor(userId, now);
    var high := WithPriority(userId, High);
    var medium := WithPriority(userId, Medium);
    var low := WithPriority(userId, Low);
    var notHigh := NotHigh(userId);
    CountPartition(docs, done, open, mine);
    CountPartition(docs, medium, low, notHigh);
    CountPartition(docs, high, notHigh, mine);
    CountMonotonic(docs, late, open);
    if Count(docs, mine) == 0 then NoStats
    else TaskStats(Count(docs, mine), Count(docs, done), Count(docs, open), Count(docs, late),
                   Count(docs, high), Count(docs, medium), Count(docs, low))
  }

  function NotHigh(userId: ObjectId): TaskDoc -> bool {
    (t: TaskDoc) => t.userId == userId && t.priority != High
  }

  /**
   * The aggregation's overdue condition as written:
   * `$and: [{ $eq: ['$completed', false] }, { $lt: ['$dueDate', now] }]`.
   * In BSON comparison order a missing value sorts before every date, so a
   * pending task without a due date satisfies `$lt`.
   */
  predicate OverdueAsWritten(t: TaskDoc, now: int) {
    !t.completed && KeyLe(KeyOf(DueDate, t), Date(now)) && KeyOf(DueDate, t) != Date(now)
  }

  function WrittenOverdueFor(userId: ObjectId, now: int): TaskDoc -> bool {
    (t: TaskDoc) => t.userId == userId && OverdueAsWritten(t, now)
  }

  function UndatedPending(userId: ObjectId): TaskDoc -> bool {
    (t: TaskDoc) => t.userId == userId && !t.completed && t.dueDate.None?
  }

  /** `getTaskStats` as written, with the `$lt` overdue condition. */
  function StatsAsWritten(docs: seq<TaskDoc>, userId: ObjectId, now: int): (s: TaskStats)
    ensures s.overdue == Count(docs, WrittenOverdueFor(userId, now))
    ensures s.(overdue := 0) == GetTaskStats(docs, userId, now).(overdue := 0)
  {
    var g := GetTaskStats(docs, userId, now);
    CountMonotonic(docs, WrittenOverdueFor(userId, now), OwnedBy(userId));
    if g.total == 0 then NoStats
    else g.(overdue := Count(docs, WrittenOverdueFor(userId, now)))
  }

  /** The as-written count exceeds the overdue listing by exactly the caller's undated pending tasks. */
  lemma StatsAsWrittenCountsUndated(docs: seq<TaskDoc>, userId: ObjectId, now: int)
    ensures StatsAsWritten(docs, userId, now).overdue
         == GetTaskStats(docs, userId, now).overdue + Count(docs, UndatedPending(userId))
  {
    CountPartition(docs, OverdueFor(userId, now), UndatedPending(userId), WrittenOverdueFor(userId, now));
  }

  /** One pending task with no due date: reported overdue by the statistics, absent from the overdue list. */
  lemma StatsOverdueCounterexample(now: int)
    ensures var t := TaskDoc("0123456789abcdef01234567", "Write report", None, false, Medium, None,
                             "89abcdef0123456789abcdef", [], None, [], 0, 0);
      && !IsOverdue(t, now)
      && GetOverdueTasks([t], t.userId, now) == []
      && StatsAsWritten([t], t.userId, now).overdue == 1
      && GetTaskStats([t], t.userId, now).overdue == 0
  {
    var t := TaskDoc("0123456789abcdef01234567", "Write report", None, false, Medium, None,
                     "89abcdef0123456789abcdef", [], None, [], 0, 0);
    StatsAsWrittenCountsUndated([t], t.userId, now);
  }

  /**
   * With `sortBy = 'toString'` the as-written sort names a key no document
   * has, so the server may return the caller's tasks in any order, oldest
   * first included; the intended fallback admits newest first only.
   */
  lemma SortFallbackCounterexample()
    ensures var older := TaskDoc("0123456789abcdef01234567", "First", None, false, Medium, None,
                                 "89abcdef0123456789abcdef", [], None, [], 1, 1);
            var newer := older.(id := "0123456789abcdef01234568", title := "Second", createdAt := 2, updatedAt := 2);
      && SortFieldAsWritten("toString") == NoSuchField("toString")
      && SortFieldOf("toString") == CreatedAt
      && SortedBy([older, newer], ByField(SortFieldAsWritten("toString")), false)
      && !SortedBy([older, newer], ByField(SortFieldOf("toString")), false)
      && Sort([older, newer], ByField(SortFieldOf("toString")), false) == [newer, older]
  {
    var older := TaskDoc("0123456789abcdef01234567", "First", None, false, Medium, None,
                         "89abcdef0123456789abcdef", [], None, [], 1, 1);
    var newer := older.(id := "0123456789abcdef01234568", title := "Second", createdAt := 2, updatedAt := 2);
    MissingKeyAdmitsEveryOrder([older, newer], "toString", false);
    var byAge := ByField(CreatedAt);
    assert !Precedes(byAge, false, older, newer);
    assert [older, newer][1..] == [newer];
    assert Insert(older, [newer], byAge, false) == [newer, older] by {
      assert [newer][1..] == [];
    }
    assert SortFieldOf("toString") == CreatedAt;
    assert !SortedBy([older, newer], byAge, false) by {
      assert [older, newer][0] == older && [older, newer][1] == newer;
    }
  }

  // ---------------------------------------------------------------------------
  // The collection
  // ---------------------------------------------------------------------------

  /** The fields of `CreateTaskMongoInput` plus the other schema paths a request body may carry. */
  datatype CreateInput = CreateInput(
    title: Option<string>,
    description: Option<string>,
    priority: Option<string>,
    dueDate: Option<int>,
    category: Option<string>,
    tags: seq<string>,
    completed: Option<bool>,
    attachments: seq<AttachmentDraft>)

  /** `{ ...taskData, userId }`: the draft handed to `new Task`. */
  function DraftOf(userId: ObjectId, input: CreateInput): (d: Draft)
    ensures d.userId == Some(userId)
  {
    Draft(input.title, input.description, input.completed, input.priority, input.dueDate,
          Some(userId), input.tags, input.category, input.attachments)
  }

  /** The result of `updateTask`: the new document, null, or a thrown `ValidationError`. */
  datatype UpdateOutcome = Updated(doc: TaskDoc) | NotFound | Rejected(message: string)

  predicate Distinct(ids: seq<ObjectId>) {
    forall i, j :: 0 <= i < j < |ids| ==> ids[i] != ids[j]
  }

  function DocsOf(ids: seq<ObjectId>, m: map<ObjectId, TaskDoc>): (ds: seq<TaskDoc>)
    requires forall i :: 0 <= i < |ids| ==> ids[i] in m
    ensures |ds| == |ids| && forall i :: 0 <= i < |ids| ==> ds[i] == m[ids[i]]
  {
    if ids == [] then [] else [m[ids[0]]] + DocsOf(ids[1..], m)
  }

  function OtherThan(gone: ObjectId): ObjectId -> bool {
    (x: ObjectId) => x != gone
  }

  function NotTask(gone: ObjectId): TaskDoc -> bool {
    (t: TaskDoc) => t.id != gone
  }

  /** Every id left after removing `gone` is still a key of the map without `gone`. */
  lemma KeptIdsStayKeys(ids: seq<ObjectId>, m: map<ObjectId, TaskDoc>, gone: ObjectId)
    requires forall i :: 0 <= i < |ids| ==> ids[i] in m
    ensures forall i :: 0 <= i < |Filter(ids, OtherThan(gone))| ==> Filter(ids, OtherThan(gone))[i] in m - {gone}
  {
    var kept := Filter(ids, OtherThan(gone));
    forall i | 0 <= i < |kept| ensures kept[i] in m - {gone} {
      assert kept[i] in kept;
    }
  }

  /** Removing an id from the natural order removes its document from the listing. */
  lemma {:induction false} DocsOfWithout(ids: seq<ObjectId>, m: map<ObjectId, TaskDoc>, gone: ObjectId)
    requires forall i :: 0 <= i < |ids| ==> ids[i] in m
    requires forall id :: id in m ==> m[id].id == id
    ensures forall i :: 0 <= i < |Filter(ids, OtherThan(gone))| ==> Filter(ids, OtherThan(gone))[i] in m - {gone}
    ensures DocsOf(Filter(ids, OtherThan(gone)), m - {gone}) == Filter(DocsOf(ids, m), NotTask(gone))
  {
    KeptIdsStayKeys(ids, m, gone);
    if ids != [] {
      var id, rest := ids[0], ids[1..];
      var m' := m - {gone};
      assert ids == [id] + rest;
      DocsOfWithout(rest, m, gone);
      var later := DocsOf(rest, m);
      assert DocsOf(ids, m) == [m[id]] + later;
      FilterCons(m[id], later, NotTask(gone));
      FilterCons(id, rest, OtherThan(gone));
      if id != gone {
        var keptRest := Filter(rest, OtherThan(gone));
        DocsOfCons(id, keptRest, m');
      }
    }
  }

  lemma DocsOfCons(id: ObjectId, rest: seq<ObjectId>, m: map<ObjectId, TaskDoc>)
    requires id in m && forall i :: 0 <= i < |rest| ==> rest[i] in m
    ensures DocsOf([id] + rest, m) == [m[id]] + DocsOf(rest, m)
  {
    assert ([id] + rest)[1..] == rest;
  }

  lemma {:induction false} FilterKeepsDistinct(ids: seq<ObjectId>, gone: ObjectId)
    requires Distinct(ids)
    ensures Distinct(Filter(ids, OtherThan(gone)))
  {
    if ids != [] {
      FilterKeepsDistinct(ids[1..], gone);
      assert ids == [ids[0]] + ids[1..];
      assert ids[0] !in ids[1..];
    }
  }

  /** The collection's invariant: documents keyed by their own id in canonical form, well formed, each listed once in the natural order. */
  ghost predicate StoreInvariant(tasks: map<ObjectId, TaskDoc>, order: seq<ObjectId>) {
    && (forall id :: id in tasks ==> tasks[id].id == id && IsObjectIdKey(id))
    && (forall id :: id in tasks ==> WellFormed(tasks[id]))
    && (forall i :: 0 <= i < |order| ==> order[i] in tasks)
    && (forall id :: id in tasks ==> id in order)
    && Distinct(order)
  }

  /** Saving a new document appends it to the natural order. */
  lemma InsertKeepsInvariant(tasks: map<ObjectId, TaskDoc>, order: seq<ObjectId>, doc: TaskDoc)
    requires StoreInvariant(tasks, order)
    requires doc.id !in tasks && IsObjectIdKey(doc.id) && WellFormed(doc)
    ensures StoreInvariant(tasks[doc.id := doc], order + [doc.id])
    ensures DocsOf(order + [doc.id], tasks[doc.id := doc]) == DocsOf(order, tasks) + [doc]
  {
    InsertKeepsShape(tasks, order, doc);
    InsertAppendsDoc(tasks, order, doc);
  }

  lemma InsertKeepsShape(tasks: map<ObjectId, TaskDoc>, order: seq<ObjectId>, doc: TaskDoc)
    requires StoreInvariant(tasks, order)
    requires doc.id !in tasks && IsObjectIdKey(doc.id) && WellFormed(doc)
    ensures StoreInvariant(tasks[doc.id := doc], order + [doc.id])
  {
    var o' := order + [doc.id];
    forall i, j | 0 <= i < j < |o'| ensures o'[i] != o'[j] {
      assert o'[i] == order[i] && order[i] in tasks;
    }
  }

  lemma InsertAppendsDoc(tasks: map<ObjectId, TaskDoc>, order: seq<ObjectId>, doc: TaskDoc)
    requires forall i :: 0 <= i < |order| ==> order[i] in tasks
    requires doc.id !in tasks
    ensures DocsOf(order + [doc.id], tasks[doc.id := doc]) == DocsOf(order, tasks) + [doc]
  {
    var t' := tasks[doc.id := doc];
    var o' := order + [doc.id];
    var before := DocsOf(order, tasks);
    var after := DocsOf(o', t');
    forall i | 0 <= i < |after| ensures after[i] == (before + [doc])[i] {
      if i < |order| {
        assert o'[i] == order[i];
      }
    }
  }

  /** Replacing a document by a well-formed one of the same owner keeps the invariant. */
  lemma ReplaceKeepsInvariant(tasks: map<ObjectId, TaskDoc>, order: seq<ObjectId>, doc: TaskDoc)
    requires StoreInvariant(tasks, order)
    requires doc.id in tasks && WellFormed(doc)
    ensures StoreInvariant(tasks[doc.id := doc], order)
  {
  }

  /** An accepted update of a stored document keeps the invariant. */
  lemma PatchKeepsInvariant(tasks: map<ObjectId, TaskDoc>, order: seq<ObjectId>, taskId: ObjectId, p: Patch, now: int)
    requires StoreInvariant(tasks, order)
    requires taskId in tasks && PatchAcceptable(p, now)
    ensures StoreInvariant(tasks[taskId := ApplyPatch(tasks[taskId], p, now)], order)
  {
    ApplyPatchKeepsWellFormed(tasks[taskId], p, now);
    ReplaceKeepsInvariant(tasks, order, ApplyPatch(tasks[taskId], p, now));
  }

  /** Deleting a document drops its id from the natural order. */
  lemma RemoveKeepsInvariant(tasks: map<ObjectId, TaskDoc>, order: seq<ObjectId>, gone: ObjectId)
    requires StoreInvariant(tasks, order)
    ensures StoreInvariant(tasks - {gone}, Filter(order, OtherThan(gone)))
  {
    KeptIdsStayKeys(order, tasks, gone);
    FilterKeepsDistinct(order, gone);
    var kept := Filter(order, OtherThan(gone));
    forall id | id in tasks - {gone} ensures id in kept {
      assert OtherThan(gone)(id);
    }
  }

  /** In the listing after a deletion, exactly the deleted document is missing. */
  lemma RemoveDropsFromListing(tasks: map<ObjectId, TaskDoc>, order: seq<ObjectId>, gone: ObjectId)
    requires StoreInvariant(tasks, order)
    ensures StoreInvariant(tasks - {gone}, Filter(order, OtherThan(gone)))
    ensures DocsOf(Filter(order, OtherThan(gone)), tasks - {gone}) == Filter(DocsOf(order, tasks), NotTask(gone))
  {
    RemoveKeepsInvariant(tasks, order, gone);
    DocsOfWithout(order, tasks, gone);
  }

  class TaskStore {
    /** The documents by `_id`. */
    var tasks: map<ObjectId, TaskDoc>
    /** The ids in natural (insertion) order. */
    var order: seq<ObjectId>
    /** The ids of the existing users. */
    var users: set<ObjectId>

    ghost predicate Valid()
      reads this
    {
      StoreInvariant(tasks, order)
    }

    constructor (users: set<ObjectId>)
      ensures Valid() && this.users == users && tasks == map[] && order == []
    {
      this.users := users;
      tasks := map[];
      order := [];
    }

    /** The documents in natural order. */
    function Docs(): (ds: seq<TaskDoc>)
      reads this
      requires Valid()
      ensures |ds| == |order|
      ensures forall t :: t in ds ==> WellFormed(t)
    {
      DocsOf(order, tasks)
    }

    /** `findOne({ _id, userId })` behind an `ObjectId.isValid` check; the id is cast before it is compared. */
    function GetTaskById(userId: ObjectId, taskId: string): (r: Option<TaskDoc>)
      reads this
      requires Valid()
      ensures r.Some? <==> IsValidObjectId(taskId) && IdKey(taskId) in tasks && tasks[IdKey(taskId)].userId == userId
      ensures r.Some? ==> r.value == tasks[IdKey(taskId)] && r.value in Docs()
    {
      if IsValidObjectId(taskId) && IdKey(taskId) in tasks && tasks[IdKey(taskId)].userId == userId then
        var i :| 0 <= i < |order| && order[i] == IdKey(taskId);
        assert Docs()[i] == tasks[IdKey(taskId)];
        Some(tasks[IdKey(taskId)])
      else None
    }

    /** `save()` of a new document: stored under its id and appended to the natural order. */
    method Insert(doc: TaskDoc)
      requires Valid()
      requires doc.id !in tasks && IsObjectIdKey(doc.id) && WellFormed(doc)
      modifies this
      ensures Valid() && users == old(users)
      ensures tasks == old(tasks)[doc.id := doc] && order == old(order) + [doc.id]
      ensures Docs() == old(Docs()) + [doc]
    {
      InsertKeepsInvariant(tasks, order, doc);
      tasks := tasks[doc.id := doc];
      order := order + [doc.id];
    }

    /**
     * `createTask`: 'User not found' when the owner does not exist; otherwise
     * the document is validated and saved under the fresh id `newId`, or the
     * validation error's message is thrown and nothing is stored.
     */
    method CreateTask(userId: ObjectId, input: CreateInput, newId: ObjectId, now: int) returns (r: Result<TaskDoc, string>)
      requires Valid()
      requires IsObjectIdKey(newId) && newId !in tasks
      modifies this
      ensures Valid() && users == old(users)
      ensures userId !in users ==> r == Err("User not found")
      ensures userId in users ==> match Build(DraftOf(userId, input), newId, now)
        case Ok(doc) => r == Ok(doc)
        case Err(vs) => r == Err(ValidationFailedMessage(Some(TaskModel), vs))
      ensures r.Ok? ==> r.value.userId == userId && r.value.id == newId
      ensures r.Ok? ==> tasks == old(tasks)[newId := r.value] && Docs() == old(Docs()) + [r.value]
      ensures r.Err? ==> tasks == old(tasks) && order == old(order)
    {
      if userId !in users {
        return Err("User not found");
      }
      var built := Build(DraftOf(userId, input), newId, now);
      if built.Err? {
        return Err(ValidationFailedMessage(Some(TaskModel), built.error));
      }
      var doc := built.value;
      // The pre-save hook looks the owner up again; it was found above.
      Insert(doc);
      r := Ok(doc);
    }

    /**
     * `updateTask`: null for a malformed id; otherwise the update validators
     * run on the keys present (a failure is thrown whether or not the task
     * exists), and then the caller's task, if there is one, is updated.
     */
    method UpdateTask(userId: ObjectId, taskId: string, p: Patch, now: int) returns (r: UpdateOutcome)
      requires Valid()
      modifies this
      ensures Valid() && users == old(users) && order == old(order)
      ensures !IsValidObjectId(taskId) ==> r == NotFound
      ensures IsValidObjectId(taskId) && !PatchAcceptable(p, now) ==>
        r == Rejected(ValidationFailedMessage(None, PatchViolations(p, now)))
      ensures IsValidObjectId(taskId) && PatchAcceptable(p, now) ==>
        var key := IdKey(taskId);
        if key in old(tasks) && old(tasks)[key].userId == userId then r == Updated(ApplyPatch(old(tasks)[key], p, now))
        else r == NotFound
      ensures r.Updated? ==> IsValidObjectId(taskId) && tasks == old(tasks)[IdKey(taskId) := r.doc]
      ensures !r.Updated? ==> tasks == old(tasks)
    {
      r := NotFound;
      if IsValidObjectId(taskId) {
        PatchViolationsEmptyIffAcceptable(p, now);
        var vs := PatchViolations(p, now);
        var key := IdKey(taskId);
        if vs != [] {
          r := Rejected(ValidationFailedMessage(None, vs));
        } else if key in tasks && tasks[key].userId == userId {
          var doc := ApplyPatch(tasks[key], p, now);
          PatchKeepsInvariant(tasks, order, key, p, now);
          tasks := tasks[key := doc];
          r := Updated(doc);
        }
      }
    }

    /** Removes the document `gone` and its place in the natural order. */
    method Remove(gone: ObjectId)
      requires Valid()
      modifies this
      ensures Valid() && users == old(users)
      ensures tasks == old(tasks) - {gone} && order == Filter(old(order), OtherThan(gone))
    {
      var kept := Filter(order, OtherThan(gone));
      RemoveKeepsInvariant(tasks, order, gone);
      tasks, order := tasks - {gone}, kept;
    }

    /** `deleteOne({ _id, userId })`: true exactly when the caller's task was removed. */
    method DeleteTask(userId: ObjectId, taskId: string) returns (deleted: bool)
      requires Valid()
      modifies this
      ensures Valid() && users == old(users)
      ensures deleted <==> old(GetTaskById(userId, taskId)).Some?
      ensures deleted ==>
        IsValidObjectId(taskId) && tasks == old(tasks) - {IdKey(taskId)} && order == Filter(old(order), OtherThan(IdKey(taskId)))
      ensures !deleted ==> tasks == old(tasks) && order == old(order)
    {
      if !IsValidObjectId(taskId) || IdKey(taskId) !in tasks || tasks[IdKey(taskId)].userId != userId {
        return false;
      }
      Remove(IdKey(taskId));
      deleted := true;
    }
  }

  /** Every spelling of an id finds what its cast finds, so an upper-case id finds the caller's task. */
  lemma AnySpellingFindsSameTask(store: TaskStore, userId: ObjectId, taskId: string)
    requires store.Valid() && IsValidObjectId(taskId)
    ensures store.GetTaskById(userId, taskId) == store.GetTaskById(userId, IdKey(taskId))
  {
    IdKeyIdempotent(taskId);
  }
}
