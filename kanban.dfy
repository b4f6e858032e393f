/**
 * The Kanban board (`Kanban.js`): three fixed columns built from the six
 * assignment lists the board endpoint returns, and the drag-and-drop handler
 * that reorders a column or moves a task to another column, sends the new
 * status, and rolls the two columns back when the server refuses it.
 */
module Kanban {
  import opened Base
  import opened Js
  import opened Effects

  // ----------------------------------------------------------------- data

  datatype CourseModule = CourseModule(color: string)

  datatype ProjectRef = ProjectRef(courseModule: Option<CourseModule>)

  /** One fetched assignment, personal or belonging to a team project. */
  datatype Assignment = Assignment(
    id: int, title: string, description: string, dueDate: string,
    courseModule: Option<CourseModule>, project: Option<ProjectRef>,
    teamId: Option<int>, projectId: Option<int>)

  /** The six lists of the board endpoint, in the order they are processed. */
  datatype BoardData = BoardData(
    todo: seq<Assignment>, inProgress: seq<Assignment>, done: seq<Assignment>,
    todoProject: seq<Assignment>, inProgressProject: seq<Assignment>, doneProject: seq<Assignment>)

  /** A card on the board; `tag` is the list it came from (`type` in the client). */
  datatype Task = Task(
    id: string, content: string, description: string, dueDate: string,
    tag: string, moduleColor: string, teamId: Option<int>, projectId: Option<int>)

  datatype Column = Column(id: string, title: string, taskIds: seq<string>)

  /** The REST call a cross-column drop makes. */
  datatype StatusUpdate =
    | UpdateAssignmentStatus(taskId: Option<string>, status: string)
    | UpdateProjectAssignmentStatus(teamId: Option<int>, projectId: Option<int>, taskId: Option<string>, status: string)

  /** Where a drag started or ended: a column id and a position in it. */
  datatype Location = Location(droppableId: string, index: int)

  /** What the drag-and-drop library reports when a drag ends. */
  datatype DropResult = DropResult(draggableId: string, source: Location, destination: Option<Location>)

  const Tags: seq<string> := ["todo", "in_progress", "done", "todo_project", "in_progress_project", "done_project"]
  const ProjectTags: set<string> := {"todo_project", "in_progress_project", "done_project"}
  const ColumnOrder: seq<string> := ["column-1", "column-2", "column-3"]

  // ------------------------------------------------------- building the board

  /** The card id `${type}-${assignment.id}`. */
  function TaskKey(tag: string, id: int): string
  {
    tag + "-" + IntToString(id)
  }

  /** The assignment's module colour, else its project's module colour, else white. */
  function ModuleColor(a: Assignment): string
  {
    if a.courseModule.Some? then a.courseModule.value.color
    else if a.project.Some? && a.project.value.courseModule.Some? then a.project.value.courseModule.value.color
    else "#FFFFFF"
  }

  function MakeTask(a: Assignment, tag: string): Task
  {
    Task(TaskKey(tag, a.id), a.title, a.description, a.dueDate, tag, ModuleColor(a), a.teamId, a.projectId)
  }

  /** `list.map(a => `${tag}-${a.id}`)`. */
  function Keys(list: seq<Assignment>, tag: string): seq<string>
  {
    seq(|list|, i requires 0 <= i < |list| => TaskKey(tag, list[i].id))
  }

  /** The entries `processAssignments(list, tag)` writes, a later duplicate id overwriting an earlier one. */
  function TaskMap(list: seq<Assignment>, tag: string): map<string, Task>
  {
    if list == [] then map[]
    else
      var last := list[|list| - 1];
      TaskMap(list[..|list| - 1], tag)[TaskKey(tag, last.id) := MakeTask(last, tag)]
  }

  /** The `tasks` dictionary once all six lists are processed, in order, into an empty one. */
  function InitialTasks(d: BoardData): map<string, Task>
  {
    map[] + TaskMap(d.todo, "todo") + TaskMap(d.inProgress, "in_progress") + TaskMap(d.done, "done")
    + TaskMap(d.todoProject, "todo_project") + TaskMap(d.inProgressProject, "in_progress_project")
    + TaskMap(d.doneProject, "done_project")
  }

  function InitialColumns(d: BoardData): map<string, Column>
  {
    map[
      "column-1" := Column("column-1", "To Do", Keys(d.todo, "todo") + Keys(d.todoProject, "todo_project")),
      "column-2" := Column("column-2", "In Progress", Keys(d.inProgress, "in_progress") + Keys(d.inProgressProject, "in_progress_project")),
      "column-3" := Column("column-3", "Done", Keys(d.done, "done") + Keys(d.doneProject, "done_project"))
    ]
  }

  lemma UnionUpdate(a: map<string, Task>, b: map<string, Task>, k: string, v: Task)
    ensures (a + b)[k := v] == a + b[k := v]
  {
  }

  /** `processAssignments`: writes one card per assignment into `tasks`. */
  method ProcessAssignments(tasks: map<string, Task>, list: seq<Assignment>, tag: string)
    returns (r: map<string, Task>)
    ensures r == tasks + TaskMap(list, tag)
  {
    r := tasks;
    var i := 0;
    while i < |list|
      invariant 0 <= i <= |list|
      invariant r == tasks + TaskMap(list[..i], tag)
    {
      assert list[..i + 1][..i] == list[..i];
      UnionUpdate(tasks, TaskMap(list[..i], tag), TaskKey(tag, list[i].id), MakeTask(list[i], tag));
      r := r[TaskKey(tag, list[i].id) := MakeTask(list[i], tag)];
      i := i + 1;
    }
    assert list[..|list|] == list;
  }

  // ------------------------------------------------------------------ ids

  lemma TagsHaveNoDash()
    ensures forall t :: t in Tags ==> '-' !in t
  {
  }

  /** The part of a card id before its first `-` is its tag, whatever the assignment id. */
  lemma TaskKeyTag(tag: string, id: int)
    requires '-' !in tag
    ensures Split(TaskKey(tag, id), '-')[0] == tag
  {
    assert TaskKey(tag, id) == tag + ['-'] + IntToString(id);
    SplitAtFirstSeparator(tag, IntToString(id), '-');
  }

  /**
   * `draggableId.split('-')[1]` gives back the assignment id's decimal
   * spelling, for every tag and every non-negative id.
   */
  lemma TaskKeyRecoversId(tag: string, id: int)
    requires tag in Tags && id >= 0
    ensures SplitPart(TaskKey(tag, id), '-', 1) == Some(IntToString(id))
  {
    TagsHaveNoDash();
    var digits := IntToString(id);
    assert '-' !in digits by {
      assert forall c :: c in digits ==> IsDigit(c);
    }
    assert TaskKey(tag, id) == tag + ['-'] + digits;
    SplitAtFirstSeparator(tag, digits, '-');
    SplitWithoutSeparator(digits, '-');
  }

  /** Card ids never collide: the id determines both the tag and the assignment id. */
  lemma TaskKeyInjective(t1: string, i1: int, t2: string, i2: int)
    requires '-' !in t1 && '-' !in t2
    requires TaskKey(t1, i1) == TaskKey(t2, i2)
    ensures t1 == t2 && i1 == i2
  {
    TaskKeyTag(t1, i1);
    TaskKeyTag(t2, i2);
    var p := t1 + "-";
    assert TaskKey(t1, i1)[|p|..] == IntToString(i1);
    assert TaskKey(t2, i2)[|p|..] == IntToString(i2);
    IntToStringInjective(i1, i2);
  }

  /** The keys `processAssignments` writes are exactly the ids the column lists, each with its tag. */
  lemma {:induction false} TaskMapDomain(list: seq<Assignment>, tag: string)
    ensures forall k :: k in TaskMap(list, tag) <==> k in Keys(list, tag)
    ensures forall k :: k in TaskMap(list, tag) ==> TaskMap(list, tag)[k].tag == tag
  {
    if list != [] {
      var init := list[..|list| - 1];
      TaskMapDomain(init, tag);
      assert Keys(list, tag) == Keys(init, tag) + [TaskKey(tag, list[|list| - 1].id)];
    }
  }

  /** Every card `processAssignments` writes carries its list's tag, which is also its id's prefix. */
  lemma TaskMapTagged(list: seq<Assignment>, tag: string)
    requires '-' !in tag
    ensures forall k :: k in TaskMap(list, tag) ==> TaskMap(list, tag)[k].tag == tag && Split(k, '-')[0] == tag
  {
    TaskMapDomain(list, tag);
    forall k | k in TaskMap(list, tag) ensures Split(k, '-')[0] == tag {
      var i :| 0 <= i < |list| && Keys(list, tag)[i] == k;
      TaskKeyTag(tag, list[i].id);
    }
  }

  /**
   * No card is overwritten by a card of another list: in the initial
   * `tasks`, the card stored under an id is of the tag that id starts with.
   */
  lemma InitialTasksTagged(d: BoardData)
    ensures forall k :: k in InitialTasks(d) ==> InitialTasks(d)[k].tag == Split(k, '-')[0]
  {
    TagsHaveNoDash();
    TaskMapTagged(d.todo, "todo");
    TaskMapTagged(d.inProgress, "in_progress");
    TaskMapTagged(d.done, "done");
    TaskMapTagged(d.todoProject, "todo_project");
    TaskMapTagged(d.inProgressProject, "in_progress_project");
    TaskMapTagged(d.doneProject, "done_project");
  }

  /** Every column key of the board. */
  predicate WellKeyed(cols: map<string, Column>)
  {
    forall k :: k in cols ==> cols[k].id == k
  }

  /** The tags whose cards start in a column. */
  function ColumnTags(k: string): set<string>
  {
    if k == "column-1" then {"todo", "todo_project"}
    else if k == "column-2" then {"in_progress", "in_progress_project"}
    else {"done", "done_project"}
  }

  /** An id a list contributes to a column has a card of that list's tag. */
  lemma ListedCard(d: BoardData, list: seq<Assignment>, tag: string, id: string)
    requires '-' !in tag && id in Keys(list, tag)
    requires TaskMap(list, tag).Keys <= InitialTasks(d).Keys
    ensures id in InitialTasks(d) && InitialTasks(d)[id].tag == tag
  {
    var i :| 0 <= i < |list| && Keys(list, tag)[i] == id;
    TaskKeyTag(tag, list[i].id);
    TaskMapDomain(list, tag);
    InitialTasksTagged(d);
  }

  /** An id listed in a column of the initial board has a card, of one of that column's tags. */
  lemma InitialColumnCard(d: BoardData, k: string, id: string)
    requires k in InitialColumns(d) && id in InitialColumns(d)[k].taskIds
    ensures id in InitialTasks(d) && InitialTasks(d)[id].tag in ColumnTags(k)
  {
    TagsHaveNoDash();
    if k == "column-1" {
      if id in Keys(d.todo, "todo") {
        ListedCard(d, d.todo, "todo", id);
      } else {
        ListedCard(d, d.todoProject, "todo_project", id);
      }
    } else if k == "column-2" {
      if id in Keys(d.inProgress, "in_progress") {
        ListedCard(d, d.inProgress, "in_progress", id);
      } else {
        ListedCard(d, d.inProgressProject, "in_progress_project", id);
      }
    } else {
      if id in Keys(d.done, "done") {
        ListedCard(d, d.done, "done", id);
      } else {
        ListedCard(d, d.doneProject, "done_project", id);
      }
    }
  }

  /**
   * The initial board has the three columns, each keyed by its own id and
   * titled To Do / In Progress / Done.
   */
  lemma InitialColumnsShape(d: BoardData)
    ensures InitialColumns(d).Keys == {"column-1", "column-2", "column-3"} && WellKeyed(InitialColumns(d))
    ensures InitialColumns(d)["column-1"].title == "To Do"
    ensures InitialColumns(d)["column-2"].title == "In Progress"
    ensures InitialColumns(d)["column-3"].title == "Done"
  {
  }

  /** Every id a column lists has a card in `tasks`, so rendering a column never reads a missing card. */
  predicate Listed(tasks: map<string, Task>, cols: map<string, Column>)
  {
    forall k, id :: k in cols && id in cols[k].taskIds ==> id in tasks
  }

  /** Every card a column lists came from one of that column's two lists. */
  predicate InOwnColumn(tasks: map<string, Task>, cols: map<string, Column>)
  {
    forall k, id :: k in cols && id in cols[k].taskIds && id in tasks ==> tasks[id].tag in ColumnTags(k)
  }

  /** The initial board lists only ids that have cards. */
  lemma InitialBoardListed(d: BoardData)
    ensures Listed(InitialTasks(d), InitialColumns(d))
  {
    var tasks, cols := InitialTasks(d), InitialColumns(d);
    forall k, id | k in cols && id in cols[k].taskIds
      ensures id in tasks
    {
      InitialColumnCard(d, k, id);
    }
  }

  /** On the initial board each card sits in the column of its list's status. */
  lemma InitialBoardInOwnColumn(d: BoardData)
    ensures InOwnColumn(InitialTasks(d), InitialColumns(d))
  {
    var tasks, cols := InitialTasks(d), InitialColumns(d);
    forall k, id | k in cols && id in cols[k].taskIds && id in tasks
      ensures tasks[id].tag in ColumnTags(k)
    {
      InitialColumnCard(d, k, id);
    }
  }

  // ------------------------------------------------------------ splicing

  /** Where `splice(i, ...)` starts on a list of length `n` (negative counts from the end). */
  function SpliceStart(i: int, n: nat): (k: nat)
    ensures k <= n
    ensures 0 <= i <= n ==> k == i
  {
    if i < 0 then (if n + i < 0 then 0 else n + i) else if i > n then n else i
  }

  /** A copy of `s` after `splice(i, 1)`. */
  function RemoveAt(s: seq<string>, i: int): seq<string>
  {
    var k := SpliceStart(i, |s|);
    if k < |s| then s[..k] + s[k + 1..] else s
  }

  /** A copy of `s` after `splice(i, 0, x)`. */
  function InsertAt(s: seq<string>, i: int, x: string): seq<string>
  {
    var k := SpliceStart(i, |s|);
    s[..k] + [x] + s[k..]
  }

  /** Removing the element at a valid index takes exactly that element out. */
  lemma RemoveAtTakesOut(s: seq<string>, i: int)
    requires 0 <= i < |s|
    ensures |RemoveAt(s, i)| == |s| - 1
    ensures multiset(RemoveAt(s, i)) + multiset{s[i]} == multiset(s)
  {
    assert s == s[..i] + [s[i]] + s[i + 1..];
  }

  /** Inserting adds exactly one occurrence of `x`, and it lands at the requested index. */
  lemma InsertAtPuts(s: seq<string>, i: int, x: string)
    ensures |InsertAt(s, i, x)| == |s| + 1
    ensures multiset(InsertAt(s, i, x)) == multiset(s) + multiset{x}
    ensures 0 <= i <= |s| ==> InsertAt(s, i, x)[i] == x
  {
    var k := SpliceStart(i, |s|);
    assert s == s[..k] + s[k..];
  }

  /** Splicing never brings in anything but the inserted element. */
  lemma SpliceMembers(s: seq<string>, i: int, j: int, x: string)
    ensures forall y :: y in RemoveAt(s, i) ==> y in s
    ensures forall y :: y in InsertAt(s, j, x) ==> y in s || y == x
  {
    var k := SpliceStart(i, |s|);
    if k < |s| {
      assert s == s[..k] + s[k..];
      assert s[k..] == [s[k]] + s[k + 1..];
    }
    var m := SpliceStart(j, |s|);
    assert s == s[..m] + s[m..];
  }

  // ---------------------------------------------------------- onDragEnd

  /** The drop leaves the board alone: no destination, same place, or a column that does not exist. */
  predicate Ignored(cols: map<string, Column>, r: DropResult)
  {
    || r.destination.None?
    || (r.destination.value.droppableId == r.source.droppableId && r.destination.value.index == r.source.index)
    || r.source.droppableId !in cols
    || r.destination.value.droppableId !in cols
  }

  predicate CrossColumn(cols: map<string, Column>, r: DropResult)
  {
    !Ignored(cols, r) && r.source.droppableId != r.destination.value.droppableId
  }

  /** The columns after the optimistic `setState` of `onDragEnd`. */
  function AfterDrop(cols: map<string, Column>, r: DropResult): map<string, Column>
  {
    if Ignored(cols, r) then cols
    else
      var start := cols[r.source.droppableId];
      var finish := cols[r.destination.value.droppableId];
      if r.source.droppableId == r.destination.value.droppableId then
        var ids := InsertAt(RemoveAt(start.taskIds, r.source.index), r.destination.value.index, r.draggableId);
        cols[start.id := start.(taskIds := ids)]
      else
        var newStart := start.(taskIds := RemoveAt(start.taskIds, r.source.index));
        var newFinish := finish.(taskIds := InsertAt(finish.taskIds, r.destination.value.index, r.draggableId));
        cols[newStart.id := newStart][newFinish.id := newFinish]
  }

  /** The rollback in the `catch`: both touched columns get their pre-drag values back. */
  function Revert(cols: map<string, Column>, start: Column, finish: Column): map<string, Column>
  {
    cols[start.id := start][finish.id := finish]
  }

  /** The status update for a card dropped into a column titled `status`. */
  function StatusRequest(task: Task, draggableId: string, status: string): StatusUpdate
  {
    var taskId := SplitPart(draggableId, '-', 1);
    if Includes(task.tag, "project") then UpdateProjectAssignmentStatus(task.teamId, task.projectId, taskId, status)
    else UpdateAssignmentStatus(taskId, status)
  }

  /** A drop that is ignored leaves every column as it was. */
  lemma IgnoredDropChangesNothing(cols: map<string, Column>, r: DropResult)
    requires Ignored(cols, r)
    ensures AfterDrop(cols, r) == cols
  {
  }

  /**
   * A move inside one column of a well-formed board: the column keeps the same
   * ids (a permutation), the dragged id is at the destination index, and every
   * other column is untouched.
   */
  lemma WithinColumnMove(cols: map<string, Column>, r: DropResult)
    requires WellKeyed(cols) && !Ignored(cols, r) && !CrossColumn(cols, r)
    requires 0 <= r.source.index < |cols[r.source.droppableId].taskIds|
    requires cols[r.source.droppableId].taskIds[r.source.index] == r.draggableId
    ensures var after := AfterDrop(cols, r); var c := r.source.droppableId;
      && after.Keys == cols.Keys && WellKeyed(after)
      && multiset(after[c].taskIds) == multiset(cols[c].taskIds)
      && (0 <= r.destination.value.index < |cols[c].taskIds| ==> after[c].taskIds[r.destination.value.index] == r.draggableId)
      && after[c].title == cols[c].title
      && forall k :: k in cols && k != c ==> after[k] == cols[k]
  {
    var c := r.source.droppableId;
    var ids := cols[c].taskIds;
    RemoveAtTakesOut(ids, r.source.index);
    InsertAtPuts(RemoveAt(ids, r.source.index), r.destination.value.index, r.draggableId);
  }

  /**
   * A move across columns of a well-formed board: the dragged id leaves the
   * start column and enters the finish column at the destination index, the
   * two columns together hold the same ids as before, and every other column
   * (on this board, the third one) is untouched.
   */
  lemma CrossColumnMove(cols: map<string, Column>, r: DropResult)
    requires WellKeyed(cols) && CrossColumn(cols, r)
    requires 0 <= r.source.index < |cols[r.source.droppableId].taskIds|
    requires cols[r.source.droppableId].taskIds[r.source.index] == r.draggableId
    ensures var after := AfterDrop(cols, r); var s := r.source.droppableId; var f := r.destination.value.droppableId;
      && after.Keys == cols.Keys && WellKeyed(after)
      && multiset(after[s].taskIds) + multiset(after[f].taskIds) == multiset(cols[s].taskIds) + multiset(cols[f].taskIds)
      && r.draggableId in after[f].taskIds
      && (0 <= r.destination.value.index <= |cols[f].taskIds| ==> after[f].taskIds[r.destination.value.index] == r.draggableId)
      && forall k :: k in cols && k != s && k != f ==> after[k] == cols[k]
  {
    var s := r.source.droppableId;
    var f := r.destination.value.droppableId;
    RemoveAtTakesOut(cols[s].taskIds, r.source.index);
    InsertAtPuts(cols[f].taskIds, r.destination.value.index, r.draggableId);
    assert r.draggableId in multiset(AfterDrop(cols, r)[f].taskIds);
  }

  /** Dragging a card the board knows keeps every listed id backed by a card. */
  lemma DropKeepsListed(tasks: map<string, Task>, cols: map<string, Column>, r: DropResult)
    requires WellKeyed(cols) && Listed(tasks, cols) && r.draggableId in tasks
    ensures Listed(tasks, AfterDrop(cols, r))
  {
    if !Ignored(cols, r) {
      var s := cols[r.source.droppableId].taskIds;
      var f := cols[r.destination.value.droppableId].taskIds;
      SpliceMembers(s, r.source.index, r.destination.value.index, r.draggableId);
      SpliceMembers(RemoveAt(s, r.source.index), 0, r.destination.value.index, r.draggableId);
      SpliceMembers(f, 0, r.destination.value.index, r.draggableId);
    }
  }

  /** After a failed status update the columns are exactly those before the drag. */
  lemma RevertRestores(cols: map<string, Column>, r: DropResult)
    requires WellKeyed(cols) && CrossColumn(cols, r)
    ensures Revert(AfterDrop(cols, r), cols[r.source.droppableId], cols[r.destination.value.droppableId]) == cols
  {
  }

  /** The project endpoint is used exactly for cards from the three project lists. */
  lemma RoutesByTag(task: Task, draggableId: string, status: string)
    requires task.tag in Tags
    ensures StatusRequest(task, draggableId, status).UpdateProjectAssignmentStatus? <==> task.tag in ProjectTags
    ensures StatusRequest(task, draggableId, status).status == status
  {
    var t := task.tag;
    if t == "todo_project" || t == "done_project" {
      IncludesAt(t, "project", 5);
    } else if t == "in_progress_project" {
      IncludesAt(t, "project", 12);
    } else {
      MissingCharNotIncluded(t, "project", 'j');
    }
  }

  /** A card made from an assignment with a non-negative id sends that id, spelled in decimal. */
  lemma RequestCarriesAssignmentId(a: Assignment, tag: string, status: string)
    requires tag in Tags && a.id >= 0
    ensures StatusRequest(MakeTask(a, tag), TaskKey(tag, a.id), status).taskId == Some(IntToString(a.id))
  {
    TaskKeyRecoversId(tag, a.id);
  }

  // ----------------------------------------------------------------- state

  /** The component's `state` record and what it has sent. */
  class Board {
    var tasks: map<string, Task>
    var columns: map<string, Column>
    var columnOrder: seq<string>
    var outbox: seq<Effect<StatusUpdate>>

    ghost predicate Valid()
      reads this
    {
      WellKeyed(columns)
    }

    constructor ()
      ensures Valid()
      ensures tasks == map[] && columns == map[] && columnOrder == [] && outbox == []
    {
      tasks := map[];
      columns := map[];
      columnOrder := [];
      outbox := [];
    }

    /** The fetch effect: builds every card, then the three columns. */
    method Load(d: BoardData)
      modifies this`tasks, this`columns, this`columnOrder
      ensures Valid()
      ensures tasks == InitialTasks(d) && columns == InitialColumns(d) && columnOrder == ColumnOrder
    {
      var t: map<string, Task> := map[];
      t := ProcessAssignments(t, d.todo, "todo");
      t := ProcessAssignments(t, d.inProgress, "in_progress");
      t := ProcessAssignments(t, d.done, "done");
      t := ProcessAssignments(t, d.todoProject, "todo_project");
      t := ProcessAssignments(t, d.inProgressProject, "in_progress_project");
      t := ProcessAssignments(t, d.doneProject, "done_project");
      tasks := t;
      columns := InitialColumns(d);
      columnOrder := ColumnOrder;
    }

    /**
     * `onDragEnd`: the optimistic column update, then, for a move across
     * columns whose card is known, one status update; if it fails, the two
     * columns are restored.
     */
    method OnDragEnd(r: DropResult, updateOk: bool)
      requires Valid()
      modifies this`columns, this`outbox
      ensures Valid()
      ensures !(CrossColumn(old(columns), r) && r.draggableId in tasks) ==>
        columns == AfterDrop(old(columns), r) && outbox == old(outbox)
      ensures CrossColumn(old(columns), r) && r.draggableId in tasks ==>
        var start := old(columns)[r.source.droppableId];
        var finish := old(columns)[r.destination.value.droppableId];
        && outbox == old(outbox) + [Request(StatusRequest(tasks[r.draggableId], r.draggableId, finish.title))]
        && columns == if updateOk then AfterDrop(old(columns), r) else Revert(AfterDrop(old(columns), r), start, finish)
      ensures Listed(tasks, old(columns)) && r.draggableId in tasks ==> Listed(tasks, columns)
    {
      if Listed(tasks, columns) && r.draggableId in tasks {
        DropKeepsListed(tasks, columns, r);
        if CrossColumn(columns, r) {
          RevertRestores(columns, r);
        }
      }
      if r.destination.None? {
        return;
      }
      var dest := r.destination.value;
      if dest.droppableId == r.source.droppableId && dest.index == r.source.index {
        return;
      }
      if r.source.droppableId !in columns || dest.droppableId !in columns {
        return;  // reading `taskIds` of a missing column throws before any update
      }
      var start := columns[r.source.droppableId];
      var finish := columns[dest.droppableId];
      if r.source.droppableId == dest.droppableId {
        var newTaskIds := RemoveAt(start.taskIds, r.source.index);
        newTaskIds := InsertAt(newTaskIds, dest.index, r.draggableId);
        columns := columns[start.id := start.(taskIds := newTaskIds)];
        return;
      }
      var newStart := start.(taskIds := RemoveAt(start.taskIds, r.source.index));
      var newFinish := finish.(taskIds := InsertAt(finish.taskIds, dest.index, r.draggableId));
      columns := columns[newStart.id := newStart][newFinish.id := newFinish];
      if r.draggableId !in tasks {
        return;  // destructuring `teamId` and `projectId` out of a missing card throws after the update, before the `try`
      }
      var task := tasks[r.draggableId];
      outbox := outbox + [Request(StatusRequest(task, r.draggableId, finish.title))];
      if !updateOk {
        columns := columns[newStart.id := start][newFinish.id := finish];
      }
    }
  }
}
