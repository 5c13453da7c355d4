/**
 * The relational task service: one `tasks` table without owners, rows keyed
 * by an auto-increment id. Create inserts with column defaults, a partial
 * update writes only the fields the input defines, delete reports whether a
 * row went away, and the listings filter and sort newest first.
 */
module SqlStore {
  import opened Common
  import opened Ordering

  /** A row of `tasks` as the SELECTs return it. */
  datatype Row = Row(
    id: int,
    title: string,
    description: Option<string>,
    completed: bool,
    priority: Priority,
    dueDate: Option<string>,
    /** Milliseconds, whole seconds as the `TIMESTAMP` columns keep them. */
    createdAt: int,
    updatedAt: int)

  /** `CreateTaskInput`: only the title is required. */
  datatype CreateInput = CreateInput(
    title: string,
    description: Option<string>,
    priority: Option<Priority>,
    dueDate: Option<string>)

  /** `UpdateTaskInput`: `None` is a key left undefined. */
  datatype UpdateInput = UpdateInput(
    title: Option<string>,
    description: Option<string>,
    completed: Option<bool>,
    priority: Option<Priority>,
    dueDate: Option<string>)

  // ---------------------------------------------------------------------------
  // The UPDATE statement
  // ---------------------------------------------------------------------------

  /** A column the update may set. */
  datatype Column = TitleColumn | DescriptionColumn | CompletedColumn | PriorityColumn | DueDateColumn

  /** A value bound to a `?` placeholder. */
  datatype SqlValue = Str(s: string) | Flag(b: bool) | Level(p: Priority) | Key(id: int)

  function ColumnIndex(c: Column): nat {
    match c
    case TitleColumn => 0
    case DescriptionColumn => 1
    case CompletedColumn => 2
    case PriorityColumn => 3
    case DueDateColumn => 4
  }

  /** The value the input defines for a column, if it defines one. */
  function Given(u: UpdateInput, c: Column): Option<SqlValue> {
    match c
    case TitleColumn => if u.title.Some? then Some(Str(u.title.value)) else None
    case DescriptionColumn => if u.description.Some? then Some(Str(u.description.value)) else None
    case CompletedColumn => if u.completed.Some? then Some(Flag(u.completed.value)) else None
    case PriorityColumn => if u.priority.Some? then Some(Level(u.priority.value)) else None
    case DueDateColumn => if u.dueDate.Some? then Some(Str(u.dueDate.value)) else None
  }

  function Once(u: UpdateInput, c: Column): seq<Column> {
    if Given(u, c).Some? then [c] else []
  }

  function ValueOnce(u: UpdateInput, c: Column): seq<SqlValue> {
    if Given(u, c).Some? then [Given(u, c).value] else []
  }

  /** The columns the statement sets: the defined ones, title to due date. */
  function SetColumns(u: UpdateInput): seq<Column> {
    Once(u, TitleColumn) + Once(u, DescriptionColumn) + Once(u, CompletedColumn)
      + Once(u, PriorityColumn) + Once(u, DueDateColumn)
  }

  /** The values bound to the SET list, in the same order. */
  function SetValues(u: UpdateInput): (vs: seq<SqlValue>)
    ensures |vs| == |SetColumns(u)|
  {
    ValueOnce(u, TitleColumn) + ValueOnce(u, DescriptionColumn) + ValueOnce(u, CompletedColumn)
      + ValueOnce(u, PriorityColumn) + ValueOnce(u, DueDateColumn)
  }

  /** No field of the input is defined. */
  predicate NothingGiven(u: UpdateInput) {
    u.title.None? && u.description.None? && u.completed.None? && u.priority.None? && u.dueDate.None?
  }

  lemma NoColumnsIffNothingGiven(u: UpdateInput)
    ensures SetColumns(u) == [] <==> NothingGiven(u)
  {
  }

  predicate InColumnOrder(cs: seq<Column>) {
    forall i, j :: 0 <= i < j < |cs| ==> ColumnIndex(cs[i]) < ColumnIndex(cs[j])
  }

  /** The SET list names exactly the defined fields, each once, in the fixed order, and binds each its own value. */
  lemma SetColumnsShape(u: UpdateInput)
    ensures forall c :: c in SetColumns(u) <==> Given(u, c).Some?
    ensures InColumnOrder(SetColumns(u))
    ensures forall i :: 0 <= i < |SetColumns(u)| ==> Some(SetValues(u)[i]) == Given(u, SetColumns(u)[i])
    ensures SetColumns(u) == [] <==> NothingGiven(u)
  {
    var cs := SetColumns(u);
    forall i, j | 0 <= i < j < |cs| ensures ColumnIndex(cs[i]) < ColumnIndex(cs[j]) {
      OrderedAppend(u, i, j);
    }
    forall i | 0 <= i < |cs| ensures Some(SetValues(u)[i]) == Given(u, cs[i]) {
      ValueAt(u, i);
    }
  }

  lemma OrderedAppend(u: UpdateInput, i: int, j: int)
    requires 0 <= i < j < |SetColumns(u)|
    ensures ColumnIndex(SetColumns(u)[i]) < ColumnIndex(SetColumns(u)[j])
  {
    var a := Once(u, TitleColumn);
    var b := Once(u, DescriptionColumn);
    var c := Once(u, CompletedColumn);
    var d := Once(u, PriorityColumn);
    var e := Once(u, DueDateColumn);
    var cs := SetColumns(u);
    assert cs == a + b + c + d + e;
    // The position of an entry determines which block it came from.
    assert forall k :: 0 <= k < |cs| ==>
      ColumnIndex(cs[k]) == if k < |a| then 0 else if k < |a + b| then 1 else if k < |a + b + c| then 2
                           else if k < |a + b + c + d| then 3 else 4;
  }

  lemma ValueAt(u: UpdateInput, i: int)
    requires 0 <= i < |SetColumns(u)|
    ensures Some(SetValues(u)[i]) == Given(u, SetColumns(u)[i])
  {
    var cs := SetColumns(u);
    var vs := SetValues(u);
    assert cs == Once(u, TitleColumn) + Once(u, DescriptionColumn) + Once(u, CompletedColumn)
      + Once(u, PriorityColumn) + Once(u, DueDateColumn);
  }

  /**
   * One `if (updates.<field> !== undefined)` step of the statement builder:
   * the column's fragment and its value are pushed when the input defines it.
   */
  method PushIfGiven(fields: seq<Column>, values: seq<SqlValue>, u: UpdateInput, c: Column)
    returns (fields': seq<Column>, values': seq<SqlValue>)
    ensures fields' == fields + Once(u, c) && values' == values + ValueOnce(u, c)
  {
    fields', values' := fields, values;
    var given := Given(u, c);
    if given.Some? {
      fields' := fields' + [c];
      values' := values' + [given.value];
    }
  }

  /** The effect of one `column = value` assignment on a row. */
  function Assign(row: Row, c: Column, v: SqlValue): Row {
    match (c, v)
    case (TitleColumn, Str(s)) => row.(title := s)
    case (DescriptionColumn, Str(s)) => row.(description := Some(s))
    case (CompletedColumn, Flag(b)) => row.(completed := b)
    case (PriorityColumn, Level(p)) => row.(priority := p)
    case (DueDateColumn, Str(s)) => row.(dueDate := Some(s))
    case _ => row
  }

  /** The SET list applied left to right. */
  function AssignAll(row: Row, cs: seq<Column>, vs: seq<SqlValue>): (r: Row)
    requires |vs| == |cs|
    ensures r.id == row.id && r.createdAt == row.createdAt && r.updatedAt == row.updatedAt
    decreases cs
  {
    if cs == [] then row else AssignAll(Assign(row, cs[0], vs[0]), cs[1..], vs[1..])
  }

  /**
   * `UPDATE tasks SET <fields> WHERE id = ?`: the last bound value is the key,
   * the ones before it go to the SET list; every row with that key is changed.
   */
  function ExecuteUpdate(rows: seq<Row>, cs: seq<Column>, vs: seq<SqlValue>): (r: seq<Row>)
    requires |vs| == |cs| + 1 && vs[|cs|].Key?
    ensures |r| == |rows|
    ensures forall i :: 0 <= i < |rows| ==> r[i] == if rows[i].id == vs[|cs|].id then AssignAll(rows[i], cs, vs[..|cs|]) else rows[i]
  {
    if rows == [] then []
    else
      var row := if rows[0].id == vs[|cs|].id then AssignAll(rows[0], cs, vs[..|cs|]) else rows[0];
      [row] + ExecuteUpdate(rows[1..], cs, vs)
  }

  /** The row after a partial update: each defined field replaced, every other column kept. */
  function Merge(row: Row, u: UpdateInput): Row {
    Row(row.id,
        if u.title.Some? then u.title.value else row.title,
        if u.description.Some? then u.description else row.description,
        if u.completed.Some? then u.completed.value else row.completed,
        if u.priority.Some? then u.priority.value else row.priority,
        if u.dueDate.Some? then u.dueDate else row.dueDate,
        row.createdAt, row.updatedAt)
  }

  /** A SET list split in two runs as its first part followed by its second. */
  lemma {:induction false} AssignAllAppend(row: Row, a: seq<Column>, va: seq<SqlValue>, b: seq<Column>, vb: seq<SqlValue>)
    requires |va| == |a| && |vb| == |b|
    ensures AssignAll(row, a + b, va + vb) == AssignAll(AssignAll(row, a, va), b, vb)
    decreases a
  {
    if a != [] {
      assert (a + b)[1..] == a[1..] + b;
      assert (va + vb)[1..] == va[1..] + vb;
      AssignAllAppend(Assign(row, a[0], va[0]), a[1..], va[1..], b, vb);
    } else {
      assert a + b == b && va + vb == vb;
    }
  }

  /** One optional assignment of the SET list. */
  lemma AssignOnce(row: Row, u: UpdateInput, c: Column)
    ensures AssignAll(row, Once(u, c), ValueOnce(u, c)) == if Given(u, c).Some? then Assign(row, c, Given(u, c).value) else row
  {
    if Given(u, c).Some? {
      assert Once(u, c)[1..] == [];
    }
  }

  /** The part of the SET list that one column contributes, applied to a row. */
  function Block(row: Row, u: UpdateInput, c: Column): Row {
    AssignAll(row, Once(u, c), ValueOnce(u, c))
  }

  /** The SET list runs as its five blocks, one after the other. */
  lemma SetListRunsInBlocks(row: Row, u: UpdateInput)
    ensures AssignAll(row, SetColumns(u), SetValues(u)) ==
      Block(Block(Block(Block(Block(row, u, TitleColumn), u, DescriptionColumn), u, CompletedColumn), u, PriorityColumn), u, DueDateColumn)
  {
    var a, va := Once(u, TitleColumn), ValueOnce(u, TitleColumn);
    var b, vb := Once(u, DescriptionColumn), ValueOnce(u, DescriptionColumn);
    var c, vc := Once(u, CompletedColumn), ValueOnce(u, CompletedColumn);
    var d, vd := Once(u, PriorityColumn), ValueOnce(u, PriorityColumn);
    var e, ve := Once(u, DueDateColumn), ValueOnce(u, DueDateColumn);
    AssignAllAppend(row, a + b + c + d, va + vb + vc + vd, e, ve);
    AssignAllAppend(row, a + b + c, va + vb + vc, d, vd);
    AssignAllAppend(row, a + b, va + vb, c, vc);
    AssignAllAppend(row, a, va, b, vb);
  }

  /** The five blocks together write exactly the defined fields. */
  lemma BlocksMerge(row: Row, u: UpdateInput)
    ensures Block(Block(Block(Block(Block(row, u, TitleColumn), u, DescriptionColumn), u, CompletedColumn), u, PriorityColumn), u, DueDateColumn)
      == Merge(row, u)
  {
    AssignOnce(row, u, TitleColumn);
    var r1 := Block(row, u, TitleColumn);
    AssignOnce(r1, u, DescriptionColumn);
    var r2 := Block(r1, u, DescriptionColumn);
    AssignOnce(r2, u, CompletedColumn);
    var r3 := Block(r2, u, CompletedColumn);
    AssignOnce(r3, u, PriorityColumn);
    var r4 := Block(r3, u, PriorityColumn);
    AssignOnce(r4, u, DueDateColumn);
  }

  /** Running the SET list built from an input writes exactly the defined fields. */
  lemma AssignSetListMerges(row: Row, u: UpdateInput)
    ensures AssignAll(row, SetColumns(u), SetValues(u)) == Merge(row, u)
  {
    SetListRunsInBlocks(row, u);
    BlocksMerge(row, u);
  }

  // ---------------------------------------------------------------------------
  // Listing order
  // ---------------------------------------------------------------------------

  /** `ORDER BY created_at`. */
  function CreatedKey(): Row -> SortKey {
    (r: Row) => Date(r.createdAt)
  }

  function HasId(id: int): Row -> bool {
    (r: Row) => r.id == id
  }

  function OtherId(id: int): Row -> bool {
    (r: Row) => r.id != id
  }

  function WithStatus(completed: bool): Row -> bool {
    (r: Row) => r.completed == completed
  }

  function WithPriority(priority: Priority): Row -> bool {
    (r: Row) => r.priority == priority
  }

  /** The first row with the id, as `WHERE id = ?` on a primary key returns it. */
  function Find(rows: seq<Row>, id: int): (r: Option<Row>)
    ensures r.Some? <==> exists i :: 0 <= i < |rows| && rows[i].id == id
    ensures r.Some? ==> r.value in rows && r.value.id == id
  {
    if rows == [] then None
    else if rows[0].id == id then Some(rows[0])
    else
      var r := Find(rows[1..], id);
      assert forall i :: 1 <= i < |rows| ==> rows[i] == rows[1..][i - 1];
      r
  }

  predicate UniqueIds(rows: seq<Row>) {
    forall i, j :: 0 <= i < j < |rows| ==> rows[i].id != rows[j].id
  }

  /** In a table with unique keys, the row found is the one at the key's position. */
  lemma FindUnique(rows: seq<Row>, i: int)
    requires UniqueIds(rows) && 0 <= i < |rows|
    ensures Find(rows, rows[i].id) == Some(rows[i])
  {
    var r := Find(rows, rows[i].id);
    var k :| 0 <= k < |rows| && rows[k] == r.value;
  }

  // ---------------------------------------------------------------------------
  // The table
  // ---------------------------------------------------------------------------

  /**
   * The value a `TIMESTAMP` column without fractional seconds keeps for the
   * instant `now` (in milliseconds): the start of its second.
   */
  function WholeSecond(now: int): (t: int)
    ensures t % 1000 == 0 && t <= now < t + 1000
  {
    now / 1000 * 1000
  }

  /** Two instants are stored alike exactly when they fall in the same second. */
  lemma WholeSecondTiesSameSecond(a: int, b: int)
    ensures WholeSecond(a) == WholeSecond(b) <==> a / 1000 == b / 1000
  {
    if WholeSecond(a) == WholeSecond(b) {
      assert a / 1000 * 1000 == b / 1000 * 1000;
    }
  }

  /**
   * The row `INSERT INTO tasks (title, description, priority, due_date)`
   * creates under `id` at `now`: description and due date null unless
   * given, priority 'medium' unless given, not completed, both timestamps
   * `CURRENT_TIMESTAMP`, the second `now` falls in.
   */
  function NewRow(input: CreateInput, id: int, now: int): (r: Row)
    ensures r.id == id && r.title == input.title
    ensures r.description == input.description && r.dueDate == input.dueDate
    ensures r.priority == (if input.priority.Some? then input.priority.value else Medium)
    ensures !r.completed && r.createdAt == r.updatedAt
    ensures r.createdAt % 1000 == 0 && r.createdAt <= now < r.createdAt + 1000
  {
    Row(id, input.title, input.description, false, if input.priority.Some? then input.priority.value else Medium,
        input.dueDate, WholeSecond(now), WholeSecond(now))
  }

  class TaskTable {
    /** The rows in insertion order. */
    var rows: seq<Row>
    /** The next AUTO_INCREMENT value. */
    var nextId: int

    ghost predicate Valid()
      reads this
    {
      TableInvariant(rows, nextId)
    }

    constructor ()
      ensures Valid() && rows == [] && nextId == 1
    {
      rows := [];
      nextId := 1;
    }

    /** `getTaskById`: the row with the id, or null. */
    function GetTaskById(id: int): (r: Option<Row>)
      reads this
      ensures r.Some? <==> exists i :: 0 <= i < |rows| && rows[i].id == id
      ensures r.Some? ==> r.value in rows && r.value.id == id
    {
      Find(rows, id)
    }

    /**
     * `createTask`: inserts the title with description and due date null and
     * priority 'medium' unless given; `completed` takes the column default,
     * false; the row is read back by its new id.
     */
    method CreateTask(input: CreateInput, now: int) returns (task: Row)
      requires Valid()
      modifies this
      ensures Valid()
      ensures task == NewRow(input, old(nextId), now) && nextId == old(nextId) + 1
      ensures rows == old(rows) + [task]
      ensures GetTaskById(task.id) == Some(task)
    {
      var row := NewRow(input, nextId, now);
      rows := rows + [row];
      nextId := nextId + 1;
      FindUnique(rows, |rows| - 1);
      var created := GetTaskById(row.id);
      task := created.value;
    }

    /**
     * The `updateFields` / `updateValues` pushes: one fragment and one value
     * per defined field, title, description, completed, priority, due date in
     * that order, then the id for the WHERE clause.
     */
    method BuildUpdateStatement(id: int, u: UpdateInput) returns (fields: seq<Column>, values: seq<SqlValue>)
      ensures fields == SetColumns(u)
      ensures values == SetValues(u) + [Key(id)]
      ensures |values| == |fields| + 1 && values[|fields|] == Key(id)
    {
      fields, values := PushIfGiven([], [], u, TitleColumn);
      fields, values := PushIfGiven(fields, values, u, DescriptionColumn);
      fields, values := PushIfGiven(fields, values, u, CompletedColumn);
      fields, values := PushIfGiven(fields, values, u, PriorityColumn);
      fields, values := PushIfGiven(fields, values, u, DueDateColumn);
      values := values + [Key(id)];
    }

    /**
     * `updateTask`: null when the id has no row; the current row, with no
     * write, when nothing is defined; otherwise the UPDATE runs and the row
     * is read back.
     */
    method UpdateTask(id: int, u: UpdateInput) returns (r: Option<Row>)
      requires Valid()
      modifies this
      ensures Valid() && nextId == old(nextId)
      ensures old(GetTaskById(id)).None? ==> r.None? && rows == old(rows)
      ensures NothingGiven(u) ==> rows == old(rows)
      ensures old(GetTaskById(id)).Some? ==> r == Some(Merge(old(GetTaskById(id)).value, u)) && rows == MergeWhere(old(rows), id, u)
    {
      var task := GetTaskById(id);
      r := None;
      if task.Some? {
        var fields, values := BuildUpdateStatement(id, u);
        UpdateStatementEffect(rows, nextId, id, u, task.value);
        if |fields| == 0 {
          r := task;
        } else {
          rows := ExecuteUpdate(rows, fields, values);
          r := GetTaskById(id);
        }
      }
    }

    /** `deleteTask`: true exactly when `affectedRows > 0`, that is, a row had the id. */
    method DeleteTask(id: int) returns (deleted: bool)
      requires Valid()
      modifies this
      ensures Valid() && nextId == old(nextId)
      ensures deleted <==> old(GetTaskById(id)).Some?
      ensures rows == Filter(old(rows), OtherId(id))
      ensures !deleted ==> rows == old(rows)
    {
      var affectedRows := Count(rows, HasId(id));
      DeleteKeepsInvariant(rows, nextId, id);
      rows := Filter(rows, OtherId(id));
      deleted := affectedRows > 0;
    }

    /** `getAllTasks`: every row, newest created first. */
    function GetAllTasks(): (r: seq<Row>)
      reads this
      ensures multiset(r) == multiset(rows)
      ensures SortedBy(r, CreatedKey(), false)
    {
      Sort(rows, CreatedKey(), false)
    }

    /** `getTasksByStatus`: the rows with that `completed` value, newest first. */
    function GetTasksByStatus(completed: bool): (r: seq<Row>)
      reads this
      ensures forall t :: t in r <==> t in rows && t.completed == completed
      ensures multiset(r) == multiset(Filter(rows, WithStatus(completed)))
      ensures SortedBy(r, CreatedKey(), false)
    {
      Sort(Filter(rows, WithStatus(completed)), CreatedKey(), false)
    }

    /** `getTasksByPriority`: the rows with that priority, newest first. */
    function GetTasksByPriority(priority: Priority): (r: seq<Row>)
      reads this
      ensures forall t :: t in r <==> t in rows && t.priority == priority
      ensures multiset(r) == multiset(Filter(rows, WithPriority(priority)))
      ensures SortedBy(r, CreatedKey(), false)
    {
      Sort(Filter(rows, WithPriority(priority)), CreatedKey(), false)
    }
  }

  /** Ids are positive, below the next AUTO_INCREMENT value, and unique. */
  ghost predicate TableInvariant(rows: seq<Row>, nextId: int) {
    && nextId >= 1
    && (forall i :: 0 <= i < |rows| ==> 1 <= rows[i].id < nextId)
    && UniqueIds(rows)
  }

  /** The table after a partial update of the rows with key `id`. */
  function MergeWhere(rows: seq<Row>, id: int, u: UpdateInput): (r: seq<Row>)
    ensures |r| == |rows|
    ensures forall i :: 0 <= i < |rows| ==> r[i] == if rows[i].id == id then Merge(rows[i], u) else rows[i]
  {
    if rows == [] then []
    else [if rows[0].id == id then Merge(rows[0], u) else rows[0]] + MergeWhere(rows[1..], id, u)
  }

  /** The statement built for an input and a key performs exactly the partial update. */
  lemma ExecuteMerges(rows: seq<Row>, id: int, u: UpdateInput)
    ensures ExecuteUpdate(rows, SetColumns(u), SetValues(u) + [Key(id)]) == MergeWhere(rows, id, u)
  {
    var cs := SetColumns(u);
    var vs := SetValues(u) + [Key(id)];
    assert vs[..|cs|] == SetValues(u);
    var after := ExecuteUpdate(rows, cs, vs);
    forall i | 0 <= i < |rows| ensures after[i] == MergeWhere(rows, id, u)[i] {
      AssignSetListMerges(rows[i], u);
    }
  }

  /** A partial update keeps the invariant, and reading the key back gives the merged row; an empty one changes nothing. */
  lemma MergeWhereKeeps(rows: seq<Row>, nextId: int, id: int, u: UpdateInput, t: Row)
    requires TableInvariant(rows, nextId) && Find(rows, id) == Some(t)
    ensures TableInvariant(MergeWhere(rows, id, u), nextId)
    ensures Find(MergeWhere(rows, id, u), id) == Some(Merge(t, u))
    ensures NothingGiven(u) ==> MergeWhere(rows, id, u) == rows && Merge(t, u) == t
  {
    var m := MergeWhere(rows, id, u);
    MergeWhereKeepsInvariant(rows, nextId, id, u);
    var k :| 0 <= k < |rows| && rows[k] == t;
    assert m[k] == Merge(t, u);
    FindUnique(m, k);
    if NothingGiven(u) {
      MergeNothing(rows, id, u);
    }
  }

  /**
   * What running the statement built for `u` does to a table holding `t`
   * under the key: nothing when `u` defines nothing, and otherwise the
   * partial update, which keeps the invariant and reads back merged.
   */
  lemma UpdateStatementEffect(rows: seq<Row>, nextId: int, id: int, u: UpdateInput, t: Row)
    requires TableInvariant(rows, nextId) && Find(rows, id) == Some(t)
    ensures SetColumns(u) == [] <==> NothingGiven(u)
    ensures NothingGiven(u) ==> MergeWhere(rows, id, u) == rows && Merge(t, u) == t
    ensures ExecuteUpdate(rows, SetColumns(u), SetValues(u) + [Key(id)]) == MergeWhere(rows, id, u)
    ensures TableInvariant(MergeWhere(rows, id, u), nextId)
    ensures Find(MergeWhere(rows, id, u), id) == Some(Merge(t, u))
  {
    NoColumnsIffNothingGiven(u);
    MergeWhereKeeps(rows, nextId, id, u, t);
    ExecuteMerges(rows, id, u);
  }

  lemma MergeWhereKeepsIds(rows: seq<Row>, id: int, u: UpdateInput)
    ensures forall i :: 0 <= i < |rows| ==> MergeWhere(rows, id, u)[i].id == rows[i].id
  {
  }

  lemma MergeWhereKeepsInvariant(rows: seq<Row>, nextId: int, id: int, u: UpdateInput)
    requires TableInvariant(rows, nextId)
    ensures TableInvariant(MergeWhere(rows, id, u), nextId)
  {
    MergeWhereKeepsIds(rows, id, u);
  }

  /** An update that defines no field leaves every row as it was. */
  lemma MergeNothing(rows: seq<Row>, id: int, u: UpdateInput)
    requires NothingGiven(u)
    ensures MergeWhere(rows, id, u) == rows
  {
    var m := MergeWhere(rows, id, u);
    forall i | 0 <= i < |rows| ensures m[i] == rows[i] {
    }
  }

  /** Deleting by key keeps the invariant; when no row has the key nothing changes. */
  lemma DeleteKeepsInvariant(rows: seq<Row>, nextId: int, id: int)
    requires TableInvariant(rows, nextId)
    ensures TableInvariant(Filter(rows, OtherId(id)), nextId)
    ensures Count(rows, HasId(id)) > 0 <==> Find(rows, id).Some?
    ensures Find(rows, id).None? ==> Filter(rows, OtherId(id)) == rows
  {
    CountFinds(rows, id);
    FilterKeepsUnique(rows, id);
    var kept := Filter(rows, OtherId(id));
    forall i | 0 <= i < |kept| ensures 1 <= kept[i].id < nextId {
      assert kept[i] in rows;
    }
    if Find(rows, id).None? {
      FilterKeepsAll(rows, OtherId(id));
    }
  }

  /** `affectedRows` is positive exactly when a row has the id. */
  lemma {:induction false} CountFinds(rows: seq<Row>, id: int)
    ensures Count(rows, HasId(id)) > 0 <==> Find(rows, id).Some?
  {
    if rows != [] {
      CountFinds(rows[1..], id);
    }
  }

  lemma {:induction false} FilterKeepsUnique(rows: seq<Row>, id: int)
    requires UniqueIds(rows)
    ensures UniqueIds(Filter(rows, OtherId(id)))
  {
    if rows != [] {
      FilterKeepsUnique(rows[1..], id);
      assert rows == [rows[0]] + rows[1..];
      assert forall r :: r in rows[1..] ==> r.id != rows[0].id;
      assert forall r :: r in Filter(rows[1..], OtherId(id)) ==> r in rows[1..];
    }
  }
}
