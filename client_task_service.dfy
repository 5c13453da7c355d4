/**
 * The browser client's task service: the query parameters a listing sends,
 * and the local cache of tasks (`tasksSubject`) with its loading flag
 * (`loadingSubject`), which each request updates from the server's reply.
 * The HTTP call itself is a parameter: each request method receives what
 * the call delivered, or the failure it raised.
 */
module ClientTaskService {
  import opened Common
  import opened ClientHttp

  /** A task as the client holds it; `docId` is the document `_id`. */
  datatype ClientTask = ClientTask(id: Option<string>, docId: Option<string>, title: string, completed: bool, priority: Priority)

  /** A value of the filters object. */
  datatype FilterValue = Undefined | Null | Text(text: string) | Number(n: int)

  /** One `[key, value]` pair of `Object.entries(filters)`. */
  datatype Entry = Entry(key: string, value: FilterValue)

  /** One query parameter of an `HttpParams`. */
  datatype Param = Param(name: string, value: string)

  /** The reply to a listing, and the reply that carries one task. */
  datatype TasksReply = TasksReply(status: string, data: seq<ClientTask>)
  datatype TaskReply = TaskReply(status: string, data: Option<ClientTask>)

  /** Which request `toggleTaskStatus` makes, with the id it puts in the URL. */
  datatype ToggleCall = CompleteCall(key: Option<string>) | UncompleteCall(key: Option<string>)

  const UnexpectedError := "Ocorreu um erro inesperado"

  // ---------------------------------------------------------------------------
  // Query parameters of `getTasks`
  // ---------------------------------------------------------------------------

  /** Only values that are not undefined, not null and not '' are sent. */
  predicate Sent(v: FilterValue) {
    v != Undefined && v != Null && v != Text("")
  }

  /** `value.toString()` of a sent value. */
  function Render(v: FilterValue): string {
    match v
    case Text(s) => s
    case Number(n) => IntToDecimal(n)
    case _ => ""
  }

  function Keys(entries: seq<Entry>): set<string> {
    set e | e in entries :: e.key
  }

  /**
   * `params.set(name, value)`: a parameter already present keeps its place
   * and takes the new value; a new one goes last.
   */
  function SetParam(params: seq<Param>, name: string, value: string): (r: seq<Param>)
    ensures Param(name, value) in r
    ensures (forall p :: p in params ==> p.name != name) ==> r == params + [Param(name, value)]
    ensures forall p :: p in r ==> p in params || p == Param(name, value)
  {
    if params == [] then [Param(name, value)]
    else if params[0].name == name then
      assert params == [params[0]] + params[1..];
      [Param(name, value)] + params[1..]
    else
      assert params == [params[0]] + params[1..];
      [params[0]] + SetParam(params[1..], name, value)
  }

  /** The parameters after visiting the entries in order, setting each sent one. */
  function SentParams(entries: seq<Entry>): seq<Param>
    decreases |entries|
  {
    if entries == [] then []
    else
      var last := entries[|entries| - 1];
      var before := SentParams(entries[..|entries| - 1]);
      if Sent(last.value) then SetParam(before, last.key, Render(last.value)) else before
  }

  /** The sent entries, in order, each rendered as a parameter. */
  function RenderedEntries(entries: seq<Entry>): seq<Param>
    decreases |entries|
  {
    if entries == [] then []
    else
      var last := entries[|entries| - 1];
      RenderedEntries(entries[..|entries| - 1]) + (if Sent(last.value) then [Param(last.key, Render(last.value))] else [])
  }

  /** The keys of an object's entries are distinct. */
  predicate DistinctKeys(entries: seq<Entry>) {
    forall i, j :: 0 <= i < j < |entries| ==> entries[i].key != entries[j].key
  }

  /**
   * `getTasks`' parameter loop: no filters object sends nothing; otherwise
   * each entry is visited in order and the sent ones are set.
   */
  method BuildParams(filters: Option<seq<Entry>>) returns (params: seq<Param>)
    ensures filters.None? ==> params == []
    ensures filters.Some? ==> params == SentParams(filters.value)
  {
    params := [];
    if filters.Some? {
      var entries := filters.value;
      var i := 0;
      while i < |entries|
        invariant 0 <= i <= |entries|
        invariant params == SentParams(entries[..i])
      {
        assert entries[..i + 1][..i] == entries[..i];
        var e := entries[i];
        if Sent(e.value) {
          params := SetParam(params, e.key, Render(e.value));
        }
        i := i + 1;
      }
      assert entries[..|entries|] == entries;
    }
  }

  lemma {:induction false} RenderedNames(entries: seq<Entry>)
    ensures forall p :: p in RenderedEntries(entries) ==> p.name in Keys(entries)
    decreases |entries|
  {
    if entries != [] {
      var init := entries[..|entries| - 1];
      RenderedNames(init);
      assert forall e :: e in init ==> e in entries;
      assert entries[|entries| - 1] in entries;
    }
  }

  /**
   * For the entries of an object (distinct keys) the parameters sent are
   * exactly the sent entries, in entry order, each with its rendered value.
   */
  lemma {:induction false} SentParamsAreRenderedEntries(entries: seq<Entry>)
    requires DistinctKeys(entries)
    ensures SentParams(entries) == RenderedEntries(entries)
    decreases |entries|
  {
    if entries != [] {
      var n := |entries| - 1;
      var init := entries[..n];
      assert DistinctKeys(init);
      SentParamsAreRenderedEntries(init);
      RenderedNames(init);
      forall e | e in init
        ensures e.key != entries[n].key
      {
        var i :| 0 <= i < |init| && init[i] == e;
        assert entries[i] == e;
      }
      assert entries[n].key !in Keys(init);
    }
  }

  /** No parameter is ever sent with an empty value. */
  lemma {:induction false} SentValuesNonEmpty(entries: seq<Entry>)
    ensures forall p :: p in SentParams(entries) ==> p.value != ""
    decreases |entries|
  {
    if entries != [] {
      SentValuesNonEmpty(entries[..|entries| - 1]);
      var last := entries[|entries| - 1];
      if Sent(last.value) {
        assert Render(last.value) != "";
      }
    }
  }

  // ---------------------------------------------------------------------------
  // The local cache
  // ---------------------------------------------------------------------------

  /** `task.id || task._id`. */
  function KeyOf(t: ClientTask): Option<string> {
    if Truthy(t.id) then t.id else t.docId
  }

  /** `task.id === key || task._id === key`; two undefined ids are equal. */
  predicate Matches(t: ClientTask, key: Option<string>) {
    t.id == key || t.docId == key
  }

  /** A task always matches its own key. */
  lemma MatchesOwnKey(t: ClientTask)
    ensures Matches(t, KeyOf(t))
  {
  }

  /** `updateTaskInLocal`'s map: every entry matching the updated task's key becomes it. */
  function Replaced(tasks: seq<ClientTask>, updated: ClientTask): (r: seq<ClientTask>)
    ensures |r| == |tasks|
    ensures forall i :: 0 <= i < |tasks| ==>
      r[i] == if Matches(tasks[i], KeyOf(updated)) then updated else tasks[i]
  {
    if tasks == [] then []
    else [if Matches(tasks[0], KeyOf(updated)) then updated else tasks[0]] + Replaced(tasks[1..], updated)
  }

  /** Replacing with the same task twice is replacing once. */
  lemma ReplacedIdempotent(tasks: seq<ClientTask>, updated: ClientTask)
    ensures Replaced(Replaced(tasks, updated), updated) == Replaced(tasks, updated)
  {
    MatchesOwnKey(updated);
  }

  /** A cache without an entry for the key is left as it is. */
  lemma ReplacedWithoutMatch(tasks: seq<ClientTask>, updated: ClientTask)
    requires forall t :: t in tasks ==> !Matches(t, KeyOf(updated))
    ensures Replaced(tasks, updated) == tasks
  {
    assert forall i :: 0 <= i < |tasks| ==> tasks[i] in tasks;
  }

  function Keeps(id: string): ClientTask -> bool {
    (t: ClientTask) => t.id != Some(id) && t.docId != Some(id)
  }

  /** `removeTaskFromLocal`'s filter: the entries whose `id` and `_id` both differ from the id. */
  function Removed(tasks: seq<ClientTask>, id: string): (r: seq<ClientTask>)
    ensures |r| <= |tasks|
    ensures forall t :: t in r <==> t in tasks && t.id != Some(id) && t.docId != Some(id)
  {
    Filter(tasks, Keeps(id))
  }

  /** Removing an id twice is removing it once. */
  lemma RemovedIdempotent(tasks: seq<ClientTask>, id: string)
    ensures Removed(Removed(tasks, id), id) == Removed(tasks, id)
  {
    FilterIdempotent(tasks, Keeps(id));
  }

  /** `toggleTaskStatus`: uncomplete a completed task, complete any other, by its `id || _id`. */
  function ToggleTaskStatus(t: ClientTask): (c: ToggleCall)
    ensures c.UncompleteCall? <==> t.completed
    ensures c.key == KeyOf(t)
  {
    if t.completed then UncompleteCall(KeyOf(t)) else CompleteCall(KeyOf(t))
  }

  /**
   * When the server answers a toggle with the task flipped, the cached entry
   * of that task is flipped in place and nothing moves.
   */
  lemma ToggleReplyFlipsEntry(tasks: seq<ClientTask>, i: int)
    requires 0 <= i < |tasks|
    ensures var flipped := tasks[i].(completed := !tasks[i].completed);
      && |Replaced(tasks, flipped)| == |tasks|
      && Replaced(tasks, flipped)[i] == flipped
      && KeyOf(flipped) == ToggleTaskStatus(tasks[i]).key
  {
    MatchesOwnKey(tasks[i]);
  }

  /** `handleError`'s message: the server's message, else the error's own, else the default. */
  function ErrorMessage(e: HttpFailure): (m: string)
    ensures m != ""
    ensures Truthy(BodyMessage(e)) ==> m == BodyMessage(e).value
    ensures !Truthy(BodyMessage(e)) && Truthy(e.message) ==> m == e.message.value
    ensures !Truthy(BodyMessage(e)) && !Truthy(e.message) ==> m == UnexpectedError
  {
    if Truthy(BodyMessage(e)) then BodyMessage(e).value
    else if Truthy(e.message) then e.message.value
    else UnexpectedError
  }

  /** `handleError`: the error rethrown with its message. */
  function HandleError(e: HttpFailure): (u: UserError)
    ensures u.error == e && u.userMessage == ErrorMessage(e)
  {
    UserError(e, ErrorMessage(e))
  }

  /**
   * The service's state: the cached tasks and the loading flag. Each request
   * sets the flag, and clears it once the reply or the failure is in.
   */
  class TaskCache {
    var tasks: seq<ClientTask>
    var loading: bool

    constructor()
      ensures tasks == [] && !loading
    {
      tasks := [];
      loading := false;
    }

    /** `clearTasks`. */
    method ClearTasks()
      modifies this
      ensures tasks == [] && loading == old(loading)
    {
      tasks := [];
    }

    /** `addTaskToLocal`: the new task goes first. */
    method AddTaskToLocal(t: ClientTask)
      modifies this
      ensures tasks == [t] + old(tasks) && loading == old(loading)
    {
      tasks := [t] + tasks;
    }

    /** `updateTaskInLocal`. */
    method UpdateTaskInLocal(updated: ClientTask)
      modifies this
      ensures tasks == Replaced(old(tasks), updated) && loading == old(loading)
    {
      tasks := Replaced(tasks, updated);
    }

    /** `removeTaskFromLocal`. */
    method RemoveTaskFromLocal(id: string)
      modifies this
      ensures tasks == Removed(old(tasks), id) && loading == old(loading)
    {
      tasks := Removed(tasks, id);
    }

    /** `getTasks`: a successful listing replaces the cache; a failure leaves it. */
    method GetTasks(filters: Option<seq<Entry>>, outcome: Outcome<TasksReply>) returns (params: seq<Param>, error: Option<UserError>)
      modifies this
      ensures filters.Some? ==> params == SentParams(filters.value)
      ensures filters.None? ==> params == []
      ensures !loading
      ensures outcome.Delivered? && outcome.reply.status == "success" ==> tasks == outcome.reply.data
      ensures !(outcome.Delivered? && outcome.reply.status == "success") ==> tasks == old(tasks)
      ensures error == if outcome.Failed? then Some(HandleError(outcome.failure)) else None
    {
      loading := true;
      params := BuildParams(filters);
      error := None;
      match outcome
      case Delivered(reply) =>
        if reply.status == "success" {
          tasks := reply.data;
        }
        loading := false;
      case Failed(failure) =>
        loading := false;
        error := Some(HandleError(failure));
    }

    /** `createTask`: a successful reply with a task puts it first in the cache. */
    method CreateTask(outcome: Outcome<TaskReply>) returns (error: Option<UserError>)
      modifies this
      ensures !loading
      ensures outcome.Delivered? && outcome.reply.status == "success" && outcome.reply.data.Some? ==>
        tasks == [outcome.reply.data.value] + old(tasks)
      ensures !(outcome.Delivered? && outcome.reply.status == "success" && outcome.reply.data.Some?) ==> tasks == old(tasks)
      ensures error == if outcome.Failed? then Some(HandleError(outcome.failure)) else None
    {
      loading := true;
      error := None;
      match outcome
      case Delivered(reply) =>
        if reply.status == "success" && reply.data.Some? {
          AddTaskToLocal(reply.data.value);
        }
        loading := false;
      case Failed(failure) =>
        loading := false;
        error := Some(HandleError(failure));
    }

    /**
     * `updateTask`, `completeTask` and `uncompleteTask`, which handle their
     * replies alike: a successful reply with a task replaces its entries.
     */
    method UpdateTask(outcome: Outcome<TaskReply>) returns (error: Option<UserError>)
      modifies this
      ensures !loading
      ensures outcome.Delivered? && outcome.reply.status == "success" && outcome.reply.data.Some? ==>
        tasks == Replaced(old(tasks), outcome.reply.data.value)
      ensures !(outcome.Delivered? && outcome.reply.status == "success" && outcome.reply.data.Some?) ==> tasks == old(tasks)
      ensures error == if outcome.Failed? then Some(HandleError(outcome.failure)) else None
    {
      loading := true;
      error := None;
      match outcome
      case Delivered(reply) =>
        if reply.status == "success" && reply.data.Some? {
          UpdateTaskInLocal(reply.data.value);
        }
        loading := false;
      case Failed(failure) =>
        loading := false;
        error := Some(HandleError(failure));
    }

    /** `deleteTask(id)`: a successful reply removes the id from the cache. */
    method DeleteTask(id: string, outcome: Outcome<string>) returns (error: Option<UserError>)
      modifies this
      ensures !loading
      ensures outcome.Delivered? && outcome.reply == "success" ==> tasks == Removed(old(tasks), id)
      ensures !(outcome.Delivered? && outcome.reply == "success") ==> tasks == old(tasks)
      ensures error == if outcome.Failed? then Some(HandleError(outcome.failure)) else None
    {
      loading := true;
      error := None;
      match outcome
      case Delivered(status) =>
        if status == "success" {
          RemoveTaskFromLocal(id);
        }
        loading := false;
      case Failed(failure) =>
        loading := false;
        error := Some(HandleError(failure));
    }
  }
}
