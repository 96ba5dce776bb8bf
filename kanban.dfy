// The kanban task store (src/features/kanban/utils/store.ts): tasks and
// columns replaced by each action once its remote call succeeds, and left
// as they were when the call throws. The outcome of each remote call is a
// parameter; so is the fresh task id the store draws.

module Kanban {
  import opened Common
  import opened Strings

  datatype Task = Task(id: string, title: string, description: Option<string>, status: string)

  datatype Column = Column(id: string, title: string)

  /** What `addTask` sends to be created. */
  datatype TaskData = TaskData(id: string, title: string, description: Option<string>, status: string,
                               columnId: string, position: nat)

  /** What `addCol` sends to be created. */
  datatype ColumnData = ColumnData(id: string, title: string, position: nat)

  const InitialTasks: seq<Task> := [
    Task("task1", "Project initiation and planning", None, "TODO"),
    Task("task2", "Gather requirements from stakeholders", None, "TODO")
  ]

  const DefaultColumns: seq<Column> := [Column("TODO", "Todo")]

  // ---------------------------------------------------------------------
  // The list updates the actions apply
  // ---------------------------------------------------------------------

  /** `tasks.filter(task => task.id !== id)` */
  function TasksWithout(ts: seq<Task>, id: string): (r: seq<Task>)
    ensures |r| <= |ts|
  {
    if ts == [] then []
    else TasksWithout(ts[..|ts| - 1], id) + (if ts[|ts| - 1].id != id then [ts[|ts| - 1]] else [])
  }

  /** `tasks.filter(task => task.status !== status)` */
  function TasksNotIn(ts: seq<Task>, status: string): (r: seq<Task>)
    ensures |r| <= |ts|
  {
    if ts == [] then []
    else TasksNotIn(ts[..|ts| - 1], status) + (if ts[|ts| - 1].status != status then [ts[|ts| - 1]] else [])
  }

  /** `tasks.map(task => task.id === id ? { ...task, status } : task)` */
  function Restatus(ts: seq<Task>, id: string, status: string): (r: seq<Task>)
    ensures |r| == |ts|
    ensures forall i :: 0 <= i < |ts| ==> r[i] == if ts[i].id == id then ts[i].(status := status) else ts[i]
  {
    seq(|ts|, i requires 0 <= i < |ts| => if ts[i].id == id then ts[i].(status := status) else ts[i])
  }

  /** `columns.filter(col => col.id !== id)` */
  function ColumnsWithout(cs: seq<Column>, id: string): (r: seq<Column>)
    ensures |r| <= |cs|
  {
    if cs == [] then []
    else ColumnsWithout(cs[..|cs| - 1], id) + (if cs[|cs| - 1].id != id then [cs[|cs| - 1]] else [])
  }

  /** `columns.map(col => col.id === id ? { ...col, title } : col)` */
  function Retitle(cs: seq<Column>, id: string, title: string): (r: seq<Column>)
    ensures |r| == |cs|
    ensures forall i :: 0 <= i < |cs| ==> r[i] == if cs[i].id == id then cs[i].(title := title) else cs[i]
  {
    seq(|cs|, i requires 0 <= i < |cs| => if cs[i].id == id then cs[i].(title := title) else cs[i])
  }

  /** `removeTask` keeps exactly those tasks with another id. */
  lemma {:induction false} TasksWithoutMembers(ts: seq<Task>, id: string)
    ensures forall t :: t in TasksWithout(ts, id) <==> t in ts && t.id != id
    decreases |ts|
  {
    if ts != [] {
      TasksWithoutMembers(ts[..|ts| - 1], id);
      assert ts == ts[..|ts| - 1] + [ts[|ts| - 1]];
    }
  }

  /** Removing distributes over concatenation, so the kept tasks stay in their order. */
  lemma {:induction false} TasksWithoutAppend(a: seq<Task>, b: seq<Task>, id: string)
    ensures TasksWithout(a + b, id) == TasksWithout(a, id) + TasksWithout(b, id)
    decreases |b|
  {
    if b != [] {
      var b' := b[..|b| - 1];
      assert (a + b)[..|a + b| - 1] == a + b';
      assert (a + b)[|a + b| - 1] == b[|b| - 1];
      var x := b[|b| - 1];
      assert TasksWithout(a + b, id) == TasksWithout(a + b', id) + (if x.id != id then [x] else []);
      TasksWithoutAppend(a, b', id);
    } else {
      assert a + b == a;
    }
  }

  /** Removing an id no task has changes nothing, and removing twice is removing once. */
  lemma {:induction false} TasksWithoutAbsent(ts: seq<Task>, id: string)
    requires forall i :: 0 <= i < |ts| ==> ts[i].id != id
    ensures TasksWithout(ts, id) == ts
    decreases |ts|
  {
    if ts != [] {
      TasksWithoutAbsent(ts[..|ts| - 1], id);
    }
  }

  lemma TasksWithoutIdempotent(ts: seq<Task>, id: string)
    ensures TasksWithout(TasksWithout(ts, id), id) == TasksWithout(ts, id)
  {
    var r := TasksWithout(ts, id);
    TasksWithoutMembers(ts, id);
    forall i | 0 <= i < |r| ensures r[i].id != id {
      assert r[i] in r;
    }
    TasksWithoutAbsent(r, id);
  }

  /** `removeCol` keeps exactly those tasks in other columns. */
  lemma {:induction false} TasksNotInMembers(ts: seq<Task>, status: string)
    ensures forall t :: t in TasksNotIn(ts, status) <==> t in ts && t.status != status
    decreases |ts|
  {
    if ts != [] {
      TasksNotInMembers(ts[..|ts| - 1], status);
      assert ts == ts[..|ts| - 1] + [ts[|ts| - 1]];
    }
  }

  lemma {:induction false} TasksNotInAppend(a: seq<Task>, b: seq<Task>, status: string)
    ensures TasksNotIn(a + b, status) == TasksNotIn(a, status) + TasksNotIn(b, status)
    decreases |b|
  {
    if b != [] {
      var b' := b[..|b| - 1];
      assert (a + b)[..|a + b| - 1] == a + b';
      assert (a + b)[|a + b| - 1] == b[|b| - 1];
      var x := b[|b| - 1];
      assert TasksNotIn(a + b, status) == TasksNotIn(a + b', status) + (if x.status != status then [x] else []);
      TasksNotInAppend(a, b', status);
    } else {
      assert a + b == a;
    }
  }

  /** `removeCol` keeps exactly the other columns, in their order. */
  lemma {:induction false} ColumnsWithoutMembers(cs: seq<Column>, id: string)
    ensures forall c :: c in ColumnsWithout(cs, id) <==> c in cs && c.id != id
    decreases |cs|
  {
    if cs != [] {
      ColumnsWithoutMembers(cs[..|cs| - 1], id);
      assert cs == cs[..|cs| - 1] + [cs[|cs| - 1]];
    }
  }

  lemma {:induction false} ColumnsWithoutAppend(a: seq<Column>, b: seq<Column>, id: string)
    ensures ColumnsWithout(a + b, id) == ColumnsWithout(a, id) + ColumnsWithout(b, id)
    decreases |b|
  {
    if b != [] {
      var b' := b[..|b| - 1];
      assert (a + b)[..|a + b| - 1] == a + b';
      assert (a + b)[|a + b| - 1] == b[|b| - 1];
      var x := b[|b| - 1];
      assert ColumnsWithout(a + b, id) == ColumnsWithout(a + b', id) + (if x.id != id then [x] else []);
      ColumnsWithoutAppend(a, b', id);
    } else {
      assert a + b == a;
    }
  }

  /**
   * A status update touches only the status of the matching tasks: ids,
   * titles, descriptions, length and order stay, and the matching tasks
   * all end with the new status.
   */
  lemma RestatusFacts(ts: seq<Task>, id: string, status: string)
    ensures var r := Restatus(ts, id, status);
      |r| == |ts|
      && (forall i :: 0 <= i < |ts| ==>
            r[i].id == ts[i].id && r[i].title == ts[i].title && r[i].description == ts[i].description
            && (ts[i].id == id ==> r[i].status == status)
            && (ts[i].id != id ==> r[i] == ts[i]))
      && Restatus(r, id, status) == r
  {
  }

  /** A rename touches only the title of the matching columns. */
  lemma RetitleFacts(cs: seq<Column>, id: string, title: string)
    ensures var r := Retitle(cs, id, title);
      |r| == |cs|
      && (forall i :: 0 <= i < |cs| ==>
            r[i].id == cs[i].id && (cs[i].id == id ==> r[i].title == title) && (cs[i].id != id ==> r[i] == cs[i]))
      && Retitle(r, id, title) == r
  {
  }

  /** After removing a column neither that column nor a task with its status is left; everything else is. */
  lemma RemoveColumnFacts(cs: seq<Column>, ts: seq<Task>, id: string)
    ensures forall c :: c in ColumnsWithout(cs, id) <==> c in cs && c.id != id
    ensures forall t :: t in TasksNotIn(ts, id) <==> t in ts && t.status != id
  {
    ColumnsWithoutMembers(cs, id);
    TasksNotInMembers(ts, id);
  }

  /** What `addTask` sends: a fresh id, status and column `TODO`, placed after the current tasks. */
  function NewTaskData(id: string, title: string, description: Option<string>, count: nat): (d: TaskData)
    ensures d.status == "TODO" && d.columnId == "TODO" && d.position == count && d.id == id && d.title == title
  {
    TaskData(id, title, description, "TODO", "TODO", count)
  }

  /** The column `addCol` sends: its title in upper case as id, placed after the current columns. */
  function NewColumnData(title: string, count: nat): (d: ColumnData)
    ensures d.id == ToUpper(title) && d.title == title && d.position == count
  {
    ColumnData(ToUpper(title), title, count)
  }

  /** The upper-cased id has no lower-case ASCII letter, so adding a column twice asks for the same id. */
  lemma {:induction false} ToUpperNoLower(s: string)
    ensures forall i :: 0 <= i < |ToUpper(s)| ==> !('a' <= ToUpper(s)[i] <= 'z')
    ensures ToUpper(ToUpper(s)) == ToUpper(s)
    decreases |s|
  {
    if s != [] {
      ToUpperNoLower(s[1..]);
    }
  }

  // ---------------------------------------------------------------------
  // The store
  // ---------------------------------------------------------------------

  /** `useTaskStore`: the state and its actions. */
  class TaskStore {
    var tasks: seq<Task>
    var columns: seq<Column>
    var draggedTask: Option<string>

    constructor()
      ensures tasks == InitialTasks && columns == DefaultColumns && draggedTask == None
    {
      tasks := InitialTasks;
      columns := DefaultColumns;
      draggedTask := None;
    }

    /** `loadTasks()`: the fetched tasks replace the list. */
    method LoadTasks(fetched: Outcome<seq<Task>>)
      modifies this
      ensures tasks == (if fetched.Ok? then fetched.value else old(tasks))
      ensures columns == old(columns) && draggedTask == old(draggedTask)
    {
      if fetched.Ok? {
        tasks := fetched.value;
      }
    }

    /** `loadColumns()`: the fetched columns replace the list unless there are none. */
    method LoadColumns(fetched: Outcome<seq<Column>>)
      modifies this
      ensures columns == (if fetched.Ok? && |fetched.value| > 0 then fetched.value else old(columns))
      ensures tasks == old(tasks) && draggedTask == old(draggedTask)
    {
      if fetched.Ok? && |fetched.value| > 0 {
        columns := fetched.value;
      }
    }

    /**
     * `addTask(title, description)`; `id` is the fresh uuid and
     * `createTask` the remote call.
     */
    method AddTask(title: string, description: Option<string>, id: string, createTask: TaskData -> Outcome<Task>)
      returns (sent: TaskData)
      modifies this
      ensures sent == NewTaskData(id, title, description, |old(tasks)|)
      ensures tasks == (if createTask(sent).Ok? then old(tasks) + [createTask(sent).value] else old(tasks))
      ensures columns == old(columns) && draggedTask == old(draggedTask)
    {
      sent := NewTaskData(id, title, description, |tasks|);
      var created := createTask(sent);
      if created.Ok? {
        tasks := tasks + [created.value];
      }
    }

    /** `removeTask(id)`; `deleted` is the remote call's outcome. */
    method RemoveTask(id: string, deleted: Outcome<()>)
      modifies this
      ensures tasks == (if deleted.Ok? then TasksWithout(old(tasks), id) else old(tasks))
      ensures columns == old(columns) && draggedTask == old(draggedTask)
    {
      if deleted.Ok? {
        tasks := TasksWithout(tasks, id);
      }
    }

    /** `updateTaskStatus(id, newStatus, columnId)`; `updated` is the remote call's outcome. */
    method UpdateTaskStatus(id: string, newStatus: string, columnId: string, updated: Outcome<()>)
      modifies this
      ensures tasks == (if updated.Ok? then Restatus(old(tasks), id, newStatus) else old(tasks))
      ensures columns == old(columns) && draggedTask == old(draggedTask)
    {
      if updated.Ok? {
        tasks := Restatus(tasks, id, newStatus);
      }
    }

    /** `addCol(title)`; `createColumn` is the remote call. */
    method AddCol(title: string, createColumn: ColumnData -> Outcome<Column>) returns (sent: ColumnData)
      modifies this
      ensures sent == NewColumnData(title, |old(columns)|)
      ensures columns == (if createColumn(sent).Ok? then old(columns) + [createColumn(sent).value] else old(columns))
      ensures tasks == old(tasks) && draggedTask == old(draggedTask)
    {
      sent := NewColumnData(title, |columns|);
      var created := createColumn(sent);
      if created.Ok? {
        columns := columns + [created.value];
      }
    }

    /** `updateCol(id, newName)`; `updated` is the remote call's outcome. */
    method UpdateCol(id: string, newName: string, updated: Outcome<()>)
      modifies this
      ensures columns == (if updated.Ok? then Retitle(old(columns), id, newName) else old(columns))
      ensures tasks == old(tasks) && draggedTask == old(draggedTask)
    {
      if updated.Ok? {
        columns := Retitle(columns, id, newName);
      }
    }

    /** `removeCol(id)`: the column goes, and so does every task whose status is its id. */
    method RemoveCol(id: string, deleted: Outcome<()>)
      modifies this
      ensures columns == (if deleted.Ok? then ColumnsWithout(old(columns), id) else old(columns))
      ensures tasks == (if deleted.Ok? then TasksNotIn(old(tasks), id) else old(tasks))
      ensures draggedTask == old(draggedTask)
    {
      if deleted.Ok? {
        columns := ColumnsWithout(columns, id);
        tasks := TasksNotIn(tasks, id);
      }
    }

    /** `dragTask(id)` */
    method DragTask(id: Option<string>)
      modifies this
      ensures draggedTask == id && tasks == old(tasks) && columns == old(columns)
    {
      draggedTask := id;
    }

    /** `setTasks(newTasks)` */
    method SetTasks(newTasks: seq<Task>)
      modifies this
      ensures tasks == newTasks && columns == old(columns) && draggedTask == old(draggedTask)
    {
      tasks := newTasks;
    }

    /** `setCols(newCols)` */
    method SetCols(newCols: seq<Column>)
      modifies this
      ensures columns == newCols && tasks == old(tasks) && draggedTask == old(draggedTask)
    {
      columns := newCols;
    }
  }
}
