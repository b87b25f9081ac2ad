/** The project detail page: filtering its task list by status and by the
    "high-priority" and "overdue" task filters, changing a member's role,
    and deleting and duplicating notes. */
module ProjectDetail {
  import opened Api
  import Strings
  import Seqs

  /** A task of the list tab. `dueDate` is `new Date(task.dueDate)` as a
      time value, `None` when the text does not parse (an Invalid Date). */
  datatype ProjectTask = ProjectTask(
    id: int,
    title: string,
    assignee: string,
    priority: string,
    dueDate: Option<int>,
    status: string)

  /** `status.toLowerCase().replace(" ", "-")`: only the first space is
      replaced, since the pattern is a string and not a global regex. */
  function NormaliseStatus(status: string): (r: string)
    ensures |r| == |status|
    ensures ' ' !in status ==> r == Strings.ToLower(status)
  {
    var lower := Strings.ToLower(status);
    if ' ' !in status then
      assert ' ' !in lower by {
        forall k | 0 <= k < |lower| ensures lower[k] != ' ' {
          assert status[k] != ' ';
        }
      }
      Strings.ReplaceFirstWithoutOccurrence(lower, ' ', '-');
      Strings.ReplaceFirst(lower, ' ', '-')
    else
      Strings.ReplaceFirst(lower, ' ', '-')
  }

  /** The statuses of the sample tasks reach the values of the status
      select. */
  lemma ToDoReached()
    ensures NormaliseStatus("To Do") == "to-do"
  {
    var a := Strings.ToLower("To Do");
    assert a == "to do" by {
      assert a[0] == 't' && a[1] == 'o' && a[2] == ' ' && a[3] == 'd' && a[4] == 'o';
    }
    assert a[..2] == "to" && a[3..] == "do";
    Strings.ReplaceFirstChangesFirstOccurrence(a, ' ', '-', 2);
    assert a[..2] + ['-'] + a[3..] == "to-do";
  }

  lemma InProgressReached()
    ensures NormaliseStatus("In Progress") == "in-progress"
  {
    var b := Strings.ToLower("In Progress");
    assert b == "in progress" by {
      assert b[0] == 'i' && b[1] == 'n' && b[2] == ' ' && b[3] == 'p' && b[4] == 'r' && b[5] == 'o';
      assert b[6] == 'g' && b[7] == 'r' && b[8] == 'e' && b[9] == 's' && b[10] == 's';
    }
    assert b[..2] == "in" && b[3..] == "progress";
    Strings.ReplaceFirstChangesFirstOccurrence(b, ' ', '-', 2);
    assert b[..2] + ['-'] + b[3..] == "in-progress";
  }

  lemma CompletedReached()
    ensures NormaliseStatus("Completed") == "completed"
  {
    var c := Strings.ToLower("Completed");
    assert c == "completed" by {
      assert c[0] == 'c' && c[1] == 'o' && c[2] == 'm' && c[3] == 'p' && c[4] == 'l';
      assert c[5] == 'e' && c[6] == 't' && c[7] == 'e' && c[8] == 'd';
    }
  }

  /** A status with two spaces keeps its second one, so it matches no
      option of the select. */
  lemma SecondSpaceKept()
    ensures NormaliseStatus("on hold now") == "on-hold now"
  {
    var a := "on hold now";
    Strings.ToLowerUnchanged(a);
    assert a[..2] == "on" && a[3..] == "hold now";
    Strings.ReplaceFirstChangesFirstOccurrence(a, ' ', '-', 2);
    assert a[..2] + ['-'] + a[3..] == "on-hold now";
  }

  /** A task whose due date is today or later. An Invalid Date compares
      false with everything, so it never counts as not yet due. */
  predicate NotYetDue(t: ProjectTask, today: int) {
    t.dueDate.Some? && t.dueDate.value >= today
  }

  /** The predicate of `filteredTasks`; a task filter other than
      "high-priority" and "overdue" restricts nothing. */
  predicate KeepTask(t: ProjectTask, statusFilter: string, taskFilter: string, today: int) {
    && (statusFilter == "all" || NormaliseStatus(t.status) == statusFilter)
    && (taskFilter == "high-priority" ==> t.priority == "high")
    && (taskFilter == "overdue" ==> !NotYetDue(t, today))
  }

  function Keeps(statusFilter: string, taskFilter: string, today: int): ProjectTask -> bool {
    (t: ProjectTask) => KeepTask(t, statusFilter, taskFilter, today)
  }

  /** `filteredTasks`: the tasks the two selects leave, in their order.
      `today` stands for `new Date()`. */
  function FilteredTasks(tasks: seq<ProjectTask>, statusFilter: string, taskFilter: string, today: int): (r: seq<ProjectTask>)
    ensures |r| <= |tasks|
    ensures forall k :: 0 <= k < |r| ==> r[k] in tasks && KeepTask(r[k], statusFilter, taskFilter, today)
    ensures forall k :: 0 <= k < |tasks| && KeepTask(tasks[k], statusFilter, taskFilter, today) ==> tasks[k] in r
  {
    Seqs.Filter(tasks, Keeps(statusFilter, taskFilter, today))
  }

  /** With both selects on "all" every task is listed. */
  lemma AllShowsEverything(tasks: seq<ProjectTask>, today: int)
    ensures FilteredTasks(tasks, "all", "all", today) == tasks
  {
    Seqs.FilterAll(tasks, Keeps("all", "all", today));
  }

  predicate IsHigh(t: ProjectTask) {
    t.priority == "high"
  }

  /** The "high-priority" filter narrows the status-filtered list to its
      high-priority tasks, keeping their order. */
  lemma {:induction false} HighPriorityNarrows(tasks: seq<ProjectTask>, statusFilter: string, today: int)
    ensures FilteredTasks(tasks, statusFilter, "high-priority", today)
         == Seqs.Filter(FilteredTasks(tasks, statusFilter, "all", today), IsHigh)
  {
    if tasks != [] {
      HighPriorityNarrows(tasks[1..], statusFilter, today);
    }
  }

  /** The "overdue" filter keeps exactly the tasks due before today and
      those whose date does not parse. */
  lemma OverdueKeeps(t: ProjectTask, today: int)
    ensures KeepTask(t, "all", "overdue", today) <==> t.dueDate.None? || t.dueDate.value < today
  {
  }

  /** A member row of the members tab. */
  datatype Member = Member(id: string, name: string, email: string, role: string)

  /** `handleUpdateRole(memberId, newRole)`: every member with that id gets
      the new role; nothing else changes, order included. */
  function UpdateRole(members: seq<Member>, memberId: string, newRole: string): (r: seq<Member>)
    ensures |r| == |members|
    ensures forall k :: 0 <= k < |r| ==> r[k].(role := members[k].role) == members[k]
    ensures forall k :: 0 <= k < |r| ==> r[k].role == if members[k].id == memberId then newRole else members[k].role
  {
    seq(|members|, k requires 0 <= k < |members| =>
      if members[k].id == memberId then members[k].(role := newRole) else members[k])
  }

  /** Setting a role the member already has changes nothing, and giving
      back the previous role undoes an update. */
  lemma UpdateRoleUndo(members: seq<Member>, memberId: string, newRole: string, oldRole: string)
    requires forall k :: 0 <= k < |members| && members[k].id == memberId ==> members[k].role == oldRole
    ensures UpdateRole(members, memberId, oldRole) == members
    ensures UpdateRole(UpdateRole(members, memberId, newRole), memberId, oldRole) == members
  {
    var once := UpdateRole(members, memberId, oldRole);
    assert forall k :: 0 <= k < |members| ==> once[k] == members[k];
    var back := UpdateRole(UpdateRole(members, memberId, newRole), memberId, oldRole);
    assert forall k :: 0 <= k < |members| ==> back[k] == members[k];
  }

  /** The later of two updates of the same member wins. */
  lemma UpdateRoleLastWins(members: seq<Member>, memberId: string, first: string, second: string)
    ensures UpdateRole(UpdateRole(members, memberId, first), memberId, second) == UpdateRole(members, memberId, second)
  {
    var a := UpdateRole(UpdateRole(members, memberId, first), memberId, second);
    var b := UpdateRole(members, memberId, second);
    assert forall k :: 0 <= k < |members| ==> a[k] == b[k];
  }

  /** A project note as the note store holds it. */
  datatype Note = Note(
    id: string,
    title: string,
    project: string,
    createdBy: string,
    content: string,
    createdAt: string,
    updatedAt: string)

  /** The predicate `note => note._id !== noteId`. */
  function OtherId(noteId: string): Note -> bool {
    (n: Note) => n.id != noteId
  }

  /** The predicate `note => note._id === noteId`. */
  function SameId(noteId: string): Note -> bool {
    (n: Note) => n.id == noteId
  }

  /** The "delete" action: every note with that id goes, the others stay in
      order. */
  function DeleteNote(notes: seq<Note>, noteId: string): (r: seq<Note>)
    ensures |r| <= |notes|
    ensures forall k :: 0 <= k < |r| ==> r[k] in notes && r[k].id != noteId
    ensures forall k :: 0 <= k < |notes| && notes[k].id != noteId ==> notes[k] in r
  {
    Seqs.Filter(notes, OtherId(noteId))
  }

  /** The copy the "duplicate" action makes: `newId` stands for
      `` `${Date.now()}` `` and `now` for `new Date().toISOString()`. */
  function CopyOf(original: Note, newId: string, now: string): (r: Note)
    ensures r.id == newId && r.title == original.title + " (Copy)" && r.createdAt == now
    ensures r.(id := original.id, title := original.title, createdAt := original.createdAt) == original
  {
    original.(id := newId, title := original.title + " (Copy)", createdAt := now)
  }

  /** The "duplicate" action: when a note has that id, a copy of the first
      such note goes to the front; otherwise the list is unchanged. */
  function DuplicateNote(notes: seq<Note>, noteId: string, newId: string, now: string): (r: seq<Note>)
    ensures (forall k :: 0 <= k < |notes| ==> notes[k].id != noteId) ==> r == notes
    ensures (exists k :: 0 <= k < |notes| && notes[k].id == noteId) ==>
      |r| == |notes| + 1 && r[1..] == notes
      && exists k :: 0 <= k < |notes| && notes[k].id == noteId && r[0] == CopyOf(notes[k], newId, now)
                     && forall j :: 0 <= j < k ==> notes[j].id != noteId
  {
    var i := Seqs.FirstIndex(notes, SameId(noteId));
    if i == -1 then notes
    else [CopyOf(notes[i], newId, now)] + notes
  }

  /** Deleting the copy by its fresh id gives back the notes before the
      duplication. */
  lemma DuplicateThenDeleteCopy(notes: seq<Note>, noteId: string, newId: string, now: string)
    requires forall k :: 0 <= k < |notes| ==> notes[k].id != newId
    ensures DeleteNote(DuplicateNote(notes, noteId, newId, now), newId) == notes
  {
    Seqs.FilterAll(notes, OtherId(newId));
    var d := DuplicateNote(notes, noteId, newId, now);
    if d != notes {
      assert d == [d[0]] + notes;
      assert !OtherId(newId)(d[0]);
    }
  }

  /** Deleting the original after duplicating it keeps the copy at the
      front. */
  lemma DeleteOriginalKeepsCopy(notes: seq<Note>, noteId: string, newId: string, now: string)
    requires newId != noteId
    requires exists k :: 0 <= k < |notes| && notes[k].id == noteId
    ensures var d := DuplicateNote(notes, noteId, newId, now);
      DeleteNote(d, noteId) == [d[0]] + DeleteNote(notes, noteId)
  {
    var d := DuplicateNote(notes, noteId, newId, now);
    assert d == [d[0]] + notes;
    assert OtherId(noteId)(d[0]);
  }

  /** `handleNoteAction(noteId, action)`: "delete" and "duplicate" change
      the notes; "edit", "share", "pin" and any other action only toast. */
  function NoteAction(notes: seq<Note>, noteId: string, action: string, newId: string, now: string): (r: seq<Note>)
    ensures action == "delete" ==> r == DeleteNote(notes, noteId)
    ensures action == "duplicate" ==> r == DuplicateNote(notes, noteId, newId, now)
    ensures action != "delete" && action != "duplicate" ==> r == notes
  {
    if action == "delete" then DeleteNote(notes, noteId)
    else if action == "duplicate" then DuplicateNote(notes, noteId, newId, now)
    else notes
  }
}
