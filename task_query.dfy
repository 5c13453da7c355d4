/**
 * The translation of a task listing's query string, shared by both task
 * controllers: whether the request is paginated, the pagination options
 * with their defaults, the filters, and which listing a plain request asks
 * for. Query values are strings; `None` is a parameter that is absent.
 */
module TaskQuery {
  import opened Common
  import opened MongoStore

  /** The query parameters `getAllTasks` reads. */
  datatype ListQuery = ListQuery(
    status: Option<string>,
    priority: Option<string>,
    search: Option<string>,
    page: Option<string>,
    limit: Option<string>,
    sortBy: Option<string>,
    sortOrder: Option<string>,
    category: Option<string>)

  /**
   * The `paginationOptions` object. A `None` page or limit is the NaN that
   * `parseInt` returns for a value without leading digits.
   */
  datatype PageRequest = PageRequest(page: Option<int>, limit: Option<int>, sortBy: string, sortOrder: string)

  /** Which service call a listing request turns into. */
  datatype ListPlan =
    | Paginated(request: PageRequest, filters: TaskFilters)
    | ByStatus(completed: bool)
    | ByPriority(priority: Priority)
    | ByCategory(category: string)
    | AllTasks

  /** `page || limit`: a non-empty page or limit switches to paginated mode. */
  predicate IsPaginated(q: ListQuery) {
    Truthy(q.page) || Truthy(q.limit)
  }

  /** `v ? parseInt(v) : fallback`. */
  function NumberOr(v: Option<string>, fallback: int): (r: Option<int>)
    ensures !Truthy(v) ==> r == Some(fallback)
    ensures Truthy(v) ==> r == ParseInt(v.value)
  {
    if Truthy(v) then ParseInt(v.value) else Some(fallback)
  }

  /** `v || fallback` on a string parameter. */
  function TextOr(v: Option<string>, fallback: string): (r: string)
    requires fallback != ""
    ensures r == fallback || (v.Some? && r == v.value)
    ensures r != ""
  {
    if Truthy(v) then v.value else fallback
  }

  /** The pagination options: page 1, limit 10, `createdAt`, `DESC` for whatever is missing. */
  function RequestOf(q: ListQuery): (r: PageRequest)
    ensures !Truthy(q.page) ==> r.page == Some(1)
    ensures !Truthy(q.limit) ==> r.limit == Some(10)
    ensures Truthy(q.page) ==> r.page == ParseInt(q.page.value)
    ensures Truthy(q.limit) ==> r.limit == ParseInt(q.limit.value)
    ensures r.sortBy == (if Truthy(q.sortBy) then q.sortBy.value else "createdAt")
    ensures r.sortOrder == (if Truthy(q.sortOrder) then q.sortOrder.value else "DESC")
  {
    PageRequest(NumberOr(q.page, 1), NumberOr(q.limit, 10), TextOr(q.sortBy, "createdAt"), TextOr(q.sortOrder, "DESC"))
  }

  /** `status === 'completed'` / `'pending'`; any other status sets no condition. */
  function StatusFilter(status: Option<string>): (r: Option<bool>)
    ensures r == Some(true) <==> status == Some("completed")
    ensures r == Some(false) <==> status == Some("pending")
  {
    if status == Some("completed") then Some(true)
    else if status == Some("pending") then Some(false)
    else None
  }

  /** A priority is used only when it is one of 'low', 'medium', 'high'. */
  function PriorityFilter(priority: Option<string>): (r: Option<Priority>)
    ensures r.Some? <==> priority.Some? && priority.value in {"low", "medium", "high"}
    ensures r.Some? ==> PriorityName(r.value) == priority.value
  {
    if Truthy(priority) then
      ParsePriority(priority.value)
    else None
  }

  /** The `filters` object of paginated mode. */
  function Filters(q: ListQuery): (f: TaskFilters)
    ensures f.completed == StatusFilter(q.status) && f.priority == PriorityFilter(q.priority)
    ensures f.search.Some? <==> Truthy(q.search)
    ensures f.search.Some? ==> f.search == q.search
  {
    TaskFilters(StatusFilter(q.status), PriorityFilter(q.priority), if Truthy(q.search) then q.search else None)
  }

  /**
   * The plan of a request: paginated when a page or limit is given;
   * otherwise status wins over priority, priority over category (which only
   * the document controller reads, `withCategory`), and the rest lists all.
   */
  function Plan(q: ListQuery, withCategory: bool): (p: ListPlan)
    ensures p.Paginated? <==> IsPaginated(q)
    ensures p.Paginated? ==> p.request == RequestOf(q) && p.filters == Filters(q)
    ensures !IsPaginated(q) ==>
      if StatusFilter(q.status).Some? then p == ByStatus(StatusFilter(q.status).value)
      else if PriorityFilter(q.priority).Some? then p == ByPriority(PriorityFilter(q.priority).value)
      else if withCategory && Truthy(q.category) then p == ByCategory(q.category.value)
      else p == AllTasks
  {
    if IsPaginated(q) then Paginated(RequestOf(q), Filters(q))
    else
      var completed := StatusFilter(q.status);
      var priority := PriorityFilter(q.priority);
      if completed.Some? then ByStatus(completed.value)
      else if priority.Some? then ByPriority(priority.value)
      else if withCategory && Truthy(q.category) then ByCategory(q.category.value)
      else AllTasks
  }

  /**
   * The options handed to the document service, when they are in its
   * domain: a page and a limit that are numbers of at least 1.
   */
  function OptionsOf(r: PageRequest): (o: Option<PaginationOptions>)
    ensures o.Some? <==> r.page.Some? && r.page.value >= 1 && r.limit.Some? && r.limit.value >= 1
    ensures o.Some? ==> PageArgumentsInRange(o.value)
    ensures o.Some? ==> o.value == PaginationOptions(r.page, r.limit, Some(r.sortBy), Some(r.sortOrder))
  {
    if r.page.Some? && r.page.value >= 1 && r.limit.Some? && r.limit.value >= 1 then
      Some(PaginationOptions(r.page, r.limit, Some(r.sortBy), Some(r.sortOrder)))
    else None
  }

  /** A request that names no page or limit is never paginated, whatever else it carries. */
  lemma UnpaginatedWithoutPageOrLimit(q: ListQuery, withCategory: bool)
    requires q.page.None? && q.limit.None?
    ensures !Plan(q, withCategory).Paginated?
  {
  }

  /** Given only a limit, the page defaults to 1 and the limit is the number it starts with. */
  lemma LimitAlonePaginates(q: ListQuery, n: nat)
    requires q.page.None? && q.limit == Some(NatToDecimal(n))
    ensures Plan(q, false) == Paginated(PageRequest(Some(1), Some(n), RequestOf(q).sortBy, RequestOf(q).sortOrder), Filters(q))
  {
    ParseIntOfDecimal(n);
  }

  /** In paginated mode the category is read but plays no part. */
  lemma PaginatedIgnoresCategory(q: ListQuery, c: Option<string>)
    requires IsPaginated(q)
    ensures Plan(q.(category := c), true) == Plan(q, true)
  {
  }

  /** Without a category the two controllers translate a request the same way. */
  lemma ControllersAgreeWithoutCategory(q: ListQuery)
    requires !Truthy(q.category)
    ensures Plan(q, true) == Plan(q, false)
  {
  }

  /** An unknown status or priority is ignored rather than rejected. */
  lemma UnknownValuesIgnored(q: ListQuery)
    requires !IsPaginated(q) && !Truthy(q.category)
    requires q.status.Some? && q.status.value !in {"completed", "pending"}
    requires q.priority.Some? && q.priority.value !in {"low", "medium", "high"}
    ensures Plan(q, true) == AllTasks
  {
  }
}
