/** The Kanban board of the client: three columns of tasks and the handlers
    that create, edit, duplicate, move, delete and archive tasks, plus the
    drag-tracking state. Each column transform maps over the columns by id. */
module KanbanBoard {
  import opened Api
  import Seqs
  import Strings

  datatype Assignee = Assignee(name: string, avatar: string, initials: string)

  datatype Document = Document(name: string, url: string, docType: string)

  datatype Task = Task(
    id: string,
    title: string,
    description: string,
    assignee: Assignee,
    priority: string,
    dueDate: string,
    comments: int,
    attachments: int,
    labels: seq<string>,
    documents: seq<Document>)

  datatype Column = Column(id: string, title: string, tasks: seq<Task>)

  /** What the task dialog submits. */
  datatype TaskData = TaskData(
    title: string,
    description: string,
    email: string,
    status: string,
    priority: string,
    dueDate: string,
    attachments: seq<Document>)

  /** The task being edited and the column it was opened from. */
  datatype Editing = Editing(task: Task, columnId: string)

  const ColumnIds: seq<string> := ["todo", "in-progress", "completed"]

  predicate UniqueColumnIds(cs: seq<Column>) {
    forall i, j :: 0 <= i < j < |cs| ==> cs[i].id != cs[j].id
  }

  /** The number of tasks on the board. */
  function Total(cs: seq<Column>): nat {
    if cs == [] then 0 else |cs[0].tasks| + Total(cs[1..])
  }

  /** Changing one column by `d` tasks changes the total by `d`. */
  lemma {:induction false} TotalOneChange(a: seq<Column>, b: seq<Column>, j: nat, d: int)
    requires |a| == |b| && j < |a|
    requires forall k :: 0 <= k < |a| && k != j ==> |a[k].tasks| == |b[k].tasks|
    requires |b[j].tasks| == |a[j].tasks| + d
    ensures Total(b) == Total(a) + d
  {
    if j > 0 {
      TotalOneChange(a[1..], b[1..], j - 1, d);
    } else {
      TotalSame(a[1..], b[1..]);
    }
  }

  lemma {:induction false} TotalSame(a: seq<Column>, b: seq<Column>)
    requires |a| == |b|
    requires forall k :: 0 <= k < |a| ==> |a[k].tasks| == |b[k].tasks|
    ensures Total(a) == Total(b)
  {
    if a != [] {
      TotalSame(a[1..], b[1..]);
    }
  }

  /** How often an id occurs in a list of tasks. */
  function CountId(tasks: seq<Task>, id: string): nat {
    if tasks == [] then 0 else (if tasks[0].id == id then 1 else 0) + CountId(tasks[1..], id)
  }

  /** `tasks.filter(task => task.id !== id)`. */
  function WithoutId(tasks: seq<Task>, id: string): (r: seq<Task>)
    ensures forall k :: 0 <= k < |r| ==> r[k] in tasks && r[k].id != id
    ensures forall k :: 0 <= k < |tasks| && tasks[k].id != id ==> tasks[k] in r
  {
    Seqs.Filter(tasks, (t: Task) => t.id != id)
  }

  /** The filter drops exactly the occurrences of the id. */
  lemma {:induction false} WithoutIdLength(tasks: seq<Task>, id: string)
    ensures |WithoutId(tasks, id)| == |tasks| - CountId(tasks, id)
  {
    if tasks != [] {
      WithoutIdLength(tasks[1..], id);
    }
  }

  /** `columns.map(column => column.id === columnId ? { ...column, tasks: [t, ...column.tasks] } : column)`. */
  function PrependTo(cs: seq<Column>, columnId: string, t: Task): (r: seq<Column>)
    ensures |r| == |cs|
    ensures forall k :: 0 <= k < |cs| ==> r[k].id == cs[k].id && r[k].title == cs[k].title
    ensures forall k :: 0 <= k < |cs| && cs[k].id == columnId ==> r[k] == cs[k].(tasks := [t] + cs[k].tasks)
    ensures forall k :: 0 <= k < |cs| && cs[k].id != columnId ==> r[k] == cs[k]
  {
    seq(|cs|, k requires 0 <= k < |cs| => if cs[k].id == columnId then cs[k].(tasks := [t] + cs[k].tasks) else cs[k])
  }

  /** The column a status puts a task in: `todo` and `in-progress` name
      their columns, anything else is `completed`. */
  function TargetColumn(status: string): (r: string)
    ensures r in ColumnIds
    ensures status in ColumnIds ==> r == status
  {
    if status == "todo" then "todo"
    else if status == "in-progress" then "in-progress"
    else "completed"
  }

  /** The assignee built from the form's email: the part before the first
      `@` is the name ("Unknown" when empty), and its first two characters,
      upper-cased, are the initials ("UN" when empty). */
  function AssigneeOf(email: string): (r: Assignee)
    ensures var local := Strings.BeforeFirst(email, '@');
      && (local == "" ==> r.name == "Unknown" && r.initials == "UN")
      && (local != "" ==> r.name == local && r.initials == Strings.ToUpper(Strings.Take(local, 2)))
    ensures |r.initials| <= 2
    ensures r.avatar == ""
  {
    var local := Strings.BeforeFirst(email, '@');
    Assignee(if local == "" then "Unknown" else local, "",
             Strings.ToUpper(Strings.Take(if local == "" then "UN" else local, 2)))
  }

  /** `AssigneeOf` recovers a name without `@` from `name@example.com`. */
  lemma AssigneeRoundTrip(name: string)
    requires name != "" && '@' !in name
    ensures AssigneeOf(name + "@example.com").name == name
  {
    var s := name + "@example.com";
    assert s[..|name|] == name;
    assert s[|name|] == '@';
  }

  /** The task `handleCreateTask` builds; `newId` stands for
      `Date.now().toString()`. */
  function NewTask(data: TaskData, newId: string): Task {
    Task(newId, data.title, data.description, AssigneeOf(data.email), data.priority, data.dueDate,
         0, |data.attachments|, [], data.attachments)
  }

  /** `handleCreateTask`: the new task heads the column its status selects;
      every other column is unchanged. */
  function CreateTask(cs: seq<Column>, data: TaskData, newId: string): (r: seq<Column>)
    ensures |r| == |cs|
    ensures forall k :: 0 <= k < |cs| && cs[k].id == TargetColumn(data.status) ==>
      r[k] == cs[k].(tasks := [NewTask(data, newId)] + cs[k].tasks)
    ensures forall k :: 0 <= k < |cs| && cs[k].id != TargetColumn(data.status) ==> r[k] == cs[k]
  {
    PrependTo(cs, TargetColumn(data.status), NewTask(data, newId))
  }

  /** `handleDeleteTask`: the id leaves the given column only. */
  function DeleteTask(cs: seq<Column>, taskId: string, columnId: string): (r: seq<Column>)
    ensures |r| == |cs|
    ensures forall k :: 0 <= k < |cs| && cs[k].id == columnId ==>
      r[k] == cs[k].(tasks := WithoutId(cs[k].tasks, taskId))
    ensures forall k :: 0 <= k < |cs| && cs[k].id != columnId ==> r[k] == cs[k]
  {
    seq(|cs|, k requires 0 <= k < |cs| =>
      if cs[k].id == columnId then cs[k].(tasks := WithoutId(cs[k].tasks, taskId)) else cs[k])
  }

  /** Deleting a task just created, from the column it went to, restores the
      board when the new id was not in that column. */
  lemma CreateThenDelete(cs: seq<Column>, data: TaskData, newId: string)
    requires forall k :: 0 <= k < |cs| && cs[k].id == TargetColumn(data.status) ==> CountId(cs[k].tasks, newId) == 0
    ensures DeleteTask(CreateTask(cs, data, newId), newId, TargetColumn(data.status)) == cs
  {
    var r := DeleteTask(CreateTask(cs, data, newId), newId, TargetColumn(data.status));
    forall k | 0 <= k < |cs| ensures r[k] == cs[k] {
      if cs[k].id == TargetColumn(data.status) {
        WithoutIdAbsent(cs[k].tasks, newId);
        assert ([NewTask(data, newId)] + cs[k].tasks)[1..] == cs[k].tasks;
      }
    }
  }

  lemma {:induction false} WithoutIdAbsent(tasks: seq<Task>, id: string)
    requires CountId(tasks, id) == 0
    ensures WithoutId(tasks, id) == tasks
  {
    if tasks != [] {
      WithoutIdAbsent(tasks[1..], id);
      assert tasks == [tasks[0]] + tasks[1..];
    }
  }

  /** Creating a task adds one task to a board with one column of each id. */
  lemma CreateAddsOne(cs: seq<Column>, data: TaskData, newId: string, j: nat)
    requires UniqueColumnIds(cs) && j < |cs| && cs[j].id == TargetColumn(data.status)
    ensures Total(CreateTask(cs, data, newId)) == Total(cs) + 1
  {
    TotalOneChange(cs, CreateTask(cs, data, newId), j, 1);
  }

  /** `handleEditTask`: the edited task keeps its id and its documents and
      count follow the form. */
  function EditedTask(old_: Task, data: TaskData): (r: Task)
    ensures r.id == old_.id && r.comments == old_.comments && r.labels == old_.labels
    ensures r.attachments == |data.attachments| && r.documents == data.attachments
  {
    old_.(title := data.title, description := data.description, assignee := AssigneeOf(data.email),
          priority := data.priority, dueDate := data.dueDate,
          attachments := |data.attachments|, documents := data.attachments)
  }

  /** `handleEditTask`: nothing without a task being edited; otherwise the
      id is removed from every column and the updated task heads the column
      its new status selects. */
  function EditTask(cs: seq<Column>, editing: Option<Editing>, data: TaskData): (r: seq<Column>)
    ensures editing.None? ==> r == cs
    ensures |r| == |cs|
    ensures editing.Some? ==> forall k :: 0 <= k < |cs| ==>
      && r[k].id == cs[k].id && r[k].title == cs[k].title
      && r[k].tasks == (if cs[k].id == TargetColumn(data.status) then [EditedTask(editing.value.task, data)] else [])
                       + WithoutId(cs[k].tasks, editing.value.task.id)
  {
    match editing
    case None => cs
    case Some(e) =>
      var without := seq(|cs|, k requires 0 <= k < |cs| => cs[k].(tasks := WithoutId(cs[k].tasks, e.task.id)));
      PrependTo(without, TargetColumn(data.status), EditedTask(e.task, data))
  }

  /** After an edit the task's id is in no column but the new one, where it
      occurs once, at the head. */
  lemma EditMovesTask(cs: seq<Column>, e: Editing, data: TaskData)
    ensures var r := EditTask(cs, Some(e), data);
      forall k :: 0 <= k < |cs| ==>
        && r[k].id == cs[k].id
        && (cs[k].id != TargetColumn(data.status) ==> CountId(r[k].tasks, e.task.id) == 0)
        && (cs[k].id == TargetColumn(data.status) ==>
              r[k].tasks != [] && r[k].tasks[0] == EditedTask(e.task, data) && CountId(r[k].tasks, e.task.id) == 1)
  {
    var r := EditTask(cs, Some(e), data);
    forall k | 0 <= k < |cs|
      ensures CountId(WithoutId(cs[k].tasks, e.task.id), e.task.id) == 0
    {
      WithoutIdCount(cs[k].tasks, e.task.id);
    }
    forall k | 0 <= k < |cs| && cs[k].id == TargetColumn(data.status)
      ensures CountId(r[k].tasks, e.task.id) == 1
    {
      var w := WithoutId(cs[k].tasks, e.task.id);
      assert r[k].tasks == [EditedTask(e.task, data)] + w;
      assert ([EditedTask(e.task, data)] + w)[1..] == w;
    }
  }

  lemma {:induction false} WithoutIdCount(tasks: seq<Task>, id: string)
    ensures CountId(WithoutId(tasks, id), id) == 0
  {
    if tasks != [] {
      WithoutIdCount(tasks[1..], id);
    }
  }

  /** `handleDuplicateTask`: a copy with a new id and " (Copy)" appended to
      its title heads the given column. */
  function DuplicateTask(cs: seq<Column>, task: Task, columnId: string, newId: string): (r: seq<Column>)
    ensures |r| == |cs|
    ensures forall k :: 0 <= k < |cs| && cs[k].id == columnId ==>
      r[k] == cs[k].(tasks := [task.(id := newId, title := task.title + " (Copy)")] + cs[k].tasks)
    ensures forall k :: 0 <= k < |cs| && cs[k].id != columnId ==> r[k] == cs[k]
  {
    PrependTo(cs, columnId, task.(id := newId, title := task.title + " (Copy)"))
  }

  /** The priority a drop gives: low in completed, medium in progress, high
      anywhere else. */
  function DropPriority(targetColumnId: string): (r: string)
    ensures r in ["low", "medium", "high"]
  {
    if targetColumnId == "completed" then "low"
    else if targetColumnId == "in-progress" then "medium"
    else "high"
  }

  /** The column transform of `handleDrop` once a move is decided: the id
      leaves the source column and the task, with its new priority, heads the
      target. */
  function MoveBetween(cs: seq<Column>, t: Task, fromId: string, targetColumnId: string): (r: seq<Column>)
    requires fromId != targetColumnId
    ensures |r| == |cs|
    ensures forall k :: 0 <= k < |cs| ==> r[k].id == cs[k].id
    ensures forall k :: 0 <= k < |cs| && cs[k].id == fromId ==> r[k] == cs[k].(tasks := WithoutId(cs[k].tasks, t.id))
    ensures forall k :: 0 <= k < |cs| && cs[k].id == targetColumnId ==>
      r[k] == cs[k].(tasks := [t.(priority := DropPriority(targetColumnId))] + cs[k].tasks)
    ensures forall k :: 0 <= k < |cs| && cs[k].id != fromId && cs[k].id != targetColumnId ==> r[k] == cs[k]
  {
    seq(|cs|, k requires 0 <= k < |cs| =>
      if cs[k].id == fromId then cs[k].(tasks := WithoutId(cs[k].tasks, t.id))
      else if cs[k].id == targetColumnId then cs[k].(tasks := [t.(priority := DropPriority(targetColumnId))] + cs[k].tasks)
      else cs[k])
  }

  /** `handleDrop` on the columns: nothing without a dragged task and its
      column, or onto the column it came from; otherwise the move. */
  function Drop(cs: seq<Column>, draggedTask: Option<Task>, draggedFrom: Option<string>,
                targetColumnId: string): (r: seq<Column>)
    ensures draggedTask.None? || !Truthy(draggedFrom) ==> r == cs
    ensures Truthy(draggedFrom) && draggedFrom.value == targetColumnId ==> r == cs
    ensures draggedTask.Some? && Truthy(draggedFrom) && draggedFrom.value != targetColumnId ==>
      r == MoveBetween(cs, draggedTask.value, draggedFrom.value, targetColumnId)
  {
    if draggedTask.None? || !Truthy(draggedFrom) then cs
    else if draggedFrom.value == targetColumnId then cs
    else MoveBetween(cs, draggedTask.value, draggedFrom.value, targetColumnId)
  }

  /** Taking one task from column `i` and adding one to column `j` keeps
      the total. */
  lemma TotalShift(a: seq<Column>, b: seq<Column>, i: nat, j: nat)
    requires |a| == |b| && i < |a| && j < |a| && i != j
    requires forall k :: 0 <= k < |a| && k != i && k != j ==> |a[k].tasks| == |b[k].tasks|
    requires |b[i].tasks| + 1 == |a[i].tasks| && |b[j].tasks| == |a[j].tasks| + 1
    ensures Total(b) == Total(a)
  {
    var m := a[i := b[i]];
    TotalOneChange(a, m, i, -1);
    TotalOneChange(m, b, j, 1);
  }

  /** A drop between two columns of the board keeps the task count when the
      dragged id occurs once in its source column. */
  lemma DropKeepsTotal(cs: seq<Column>, t: Task, i: nat, j: nat)
    requires UniqueColumnIds(cs) && i < |cs| && j < |cs| && i != j
    requires cs[i].id != "" && CountId(cs[i].tasks, t.id) == 1
    ensures Total(Drop(cs, Some(t), Some(cs[i].id), cs[j].id)) == Total(cs)
  {
    var r := MoveBetween(cs, t, cs[i].id, cs[j].id);
    WithoutIdLength(cs[i].tasks, t.id);
    forall k | 0 <= k < |cs| && k != i && k != j
      ensures |cs[k].tasks| == |r[k].tasks|
    {
      assert cs[k].id != cs[i].id && cs[k].id != cs[j].id;
    }
    TotalShift(cs, r, i, j);
  }

  /** `handleArchiveCompleted`: the completed column is emptied. */
  function ArchiveCompleted(cs: seq<Column>): (r: seq<Column>)
    ensures |r| == |cs|
    ensures forall k :: 0 <= k < |cs| && cs[k].id == "completed" ==> r[k] == cs[k].(tasks := [])
    ensures forall k :: 0 <= k < |cs| && cs[k].id != "completed" ==> r[k] == cs[k]
  {
    seq(|cs|, k requires 0 <= k < |cs| => if cs[k].id == "completed" then cs[k].(tasks := []) else cs[k])
  }

  /** Archiving removes exactly the completed tasks from the count. */
  lemma ArchiveRemovesCompleted(cs: seq<Column>, j: nat)
    requires UniqueColumnIds(cs) && j < |cs| && cs[j].id == "completed"
    ensures Total(ArchiveCompleted(cs)) == Total(cs) - |cs[j].tasks|
  {
    TotalOneChange(cs, ArchiveCompleted(cs), j, -|cs[j].tasks|);
  }

  /** The board component's state: the columns and the drag and dialog
      state. */
  class Board {
    var columns: seq<Column>
    var draggedTask: Option<Task>
    var draggedFromColumn: Option<string>
    var dragOverColumn: Option<string>
    var editingTask: Option<Editing>
    var isTaskDialogOpen: bool
    var defaultStatus: string

    constructor (initial: seq<Column>)
      ensures columns == initial
      ensures draggedTask == None && draggedFromColumn == None && dragOverColumn == None
      ensures editingTask == None && !isTaskDialogOpen && defaultStatus == "todo"
    {
      columns := initial;
      draggedTask := None;
      draggedFromColumn := None;
      dragOverColumn := None;
      editingTask := None;
      isTaskDialogOpen := false;
      defaultStatus := "todo";
    }

    method HandleDragStart(task: Task, columnId: string)
      modifies this`draggedTask, this`draggedFromColumn
      ensures draggedTask == Some(task) && draggedFromColumn == Some(columnId)
    {
      draggedTask := Some(task);
      draggedFromColumn := Some(columnId);
    }

    method HandleDragOver(columnId: string)
      modifies this`dragOverColumn
      ensures dragOverColumn == Some(columnId)
    {
      dragOverColumn := Some(columnId);
    }

    method HandleDragLeave()
      modifies this`dragOverColumn
      ensures dragOverColumn == None
    {
      dragOverColumn := None;
    }

    /** `handleDrop`: the hover state is cleared; the drag state is cleared
        too unless the drop was ignored for want of a dragged task. */
    method HandleDrop(targetColumnId: string)
      modifies this`columns, this`draggedTask, this`draggedFromColumn, this`dragOverColumn
      ensures columns == Drop(old(columns), old(draggedTask), old(draggedFromColumn), targetColumnId)
      ensures dragOverColumn == None
      ensures old(draggedTask).None? || !Truthy(old(draggedFromColumn)) ==>
        draggedTask == old(draggedTask) && draggedFromColumn == old(draggedFromColumn)
      ensures old(draggedTask).Some? && Truthy(old(draggedFromColumn)) ==>
        draggedTask == None && draggedFromColumn == None
    {
      dragOverColumn := None;
      if draggedTask.None? || !Truthy(draggedFromColumn) {
        return;
      }
      if draggedFromColumn.value == targetColumnId {
        draggedTask := None;
        draggedFromColumn := None;
        return;
      }
      columns := Drop(columns, draggedTask, draggedFromColumn, targetColumnId);
      draggedTask := None;
      draggedFromColumn := None;
    }

    method HandleCreateTask(data: TaskData, newId: string)
      modifies this`columns
      ensures columns == CreateTask(old(columns), data, newId)
    {
      columns := CreateTask(columns, data, newId);
    }

    method HandleEditTask(data: TaskData)
      modifies this`columns, this`editingTask
      ensures columns == EditTask(old(columns), old(editingTask), data)
      ensures editingTask == None
    {
      if editingTask.None? {
        return;
      }
      columns := EditTask(columns, editingTask, data);
      editingTask := None;
    }

    method HandleDuplicateTask(task: Task, columnId: string, newId: string)
      modifies this`columns
      ensures columns == DuplicateTask(old(columns), task, columnId, newId)
    {
      columns := DuplicateTask(columns, task, columnId, newId);
    }

    method HandleDeleteTask(taskId: string, columnId: string)
      modifies this`columns
      ensures columns == DeleteTask(old(columns), taskId, columnId)
    {
      columns := DeleteTask(columns, taskId, columnId);
    }

    method HandleArchiveCompleted()
      modifies this`columns
      ensures columns == ArchiveCompleted(old(columns))
    {
      columns := ArchiveCompleted(columns);
    }

    method OpenEditDialog(task: Task, columnId: string)
      modifies this`editingTask, this`isTaskDialogOpen
      ensures editingTask == Some(Editing(task, columnId)) && isTaskDialogOpen
    {
      editingTask := Some(Editing(task, columnId));
      isTaskDialogOpen := true;
    }

    /** `openAddTaskDialog(columnId)`: `columnId || 'todo'`. */
    method OpenAddTaskDialog(columnId: Option<string>)
      modifies this`defaultStatus, this`editingTask, this`isTaskDialogOpen
      ensures defaultStatus == (if Truthy(columnId) then columnId.value else "todo")
      ensures editingTask == None && isTaskDialogOpen
    {
      defaultStatus := if Truthy(columnId) then columnId.value else "todo";
      editingTask := None;
      isTaskDialogOpen := true;
    }

    method CloseTaskDialog()
      modifies this`isTaskDialogOpen, this`editingTask, this`defaultStatus
      ensures !isTaskDialogOpen && editingTask == None && defaultStatus == "todo"
    {
      isTaskDialogOpen := false;
      editingTask := None;
      defaultStatus := "todo";
    }
  }
}
