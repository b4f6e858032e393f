/**
 * The personal assignments page (`Assignments.js`): the top-level
 * assignments painted in their module's colour, a form that creates or
 * edits one, and a delete that first marks the entry for its animation and
 * removes it when the timer fires.
 */
module Assignments {
  import opened Base
  import opened Js
  import opened Effects
  import EntityLists
  import Modules

  /** An assignment; dates are timestamps; a sub-assignment has a `parentId`. */
  datatype Assignment = Assignment(
    id: int, title: string, description: string, dueDate: int, givenDate: int,
    status: string, priority: string, gradeWeight: string,
    courseModuleId: Option<int>, parentId: Option<int>)

  function AssignmentId(a: Assignment): int { a.id }

  /** The form's fields (`newAssignment`). */
  datatype Draft = Draft(
    title: string, description: string, dueDate: int, givenDate: int,
    status: string, priority: string, gradeWeight: string,
    courseModuleId: Option<int>, parentId: Option<int>)

  /** The fresh form, both dates at `now`: status "To Do", no module, no parent. */
  function DefaultDraft(now: int): (r: Draft)
    ensures r.status == "To Do" && r.parentId == None && r.courseModuleId == None
    ensures r.title == "" && r.description == "" && r.priority == "" && r.gradeWeight == ""
    ensures r.dueDate == now && r.givenDate == now
  {
    Draft("", "", now, now, "To Do", "", "", None, None)
  }

  /** The form filled from an assignment. */
  function DraftOf(a: Assignment): Draft
  {
    Draft(a.title, a.description, a.dueDate, a.givenDate, a.status, a.priority, a.gradeWeight, a.courseModuleId, a.parentId)
  }

  /** The server calls of the page. */
  datatype Call =
    | FetchAssignments
    | FetchModules
    | CreateAssignment(courseModuleId: Option<int>, draft: Draft)
    | UpdateAssignment(id: int, draft: Draft)
    | DeleteAssignment(id: int)

  /** `assignments.filter(a => !a.parent_id)`: the top-level assignments. */
  function TopLevel(s: seq<Assignment>): (r: seq<Assignment>)
    ensures |r| <= |s|
  {
    if s == [] then []
    else TopLevel(s[..|s| - 1]) + (if TruthyId(s[|s| - 1].parentId) then [] else [s[|s| - 1]])
  }

  /** Exactly the assignments without a parent are listed. */
  lemma {:induction false} TopLevelMembers(s: seq<Assignment>)
    ensures forall a :: a in TopLevel(s) <==> a in s && !TruthyId(a.parentId)
  {
    if s != [] {
      TopLevelMembers(s[..|s| - 1]);
      assert s == s[..|s| - 1] + [s[|s| - 1]];
    }
  }

  /** Creating a top-level assignment lists it last; creating a sub-assignment lists nothing new. */
  lemma TopLevelAppend(s: seq<Assignment>, a: Assignment)
    ensures TopLevel(s + [a]) == TopLevel(s) + (if TruthyId(a.parentId) then [] else [a])
  {
    assert (s + [a])[..|s + [a]| - 1] == s;
  }

  class Page {
    var assignments: seq<Assignment>
    var modules: seq<Modules.CourseModule>
    var loading: bool
    var error: Option<string>
    /** The id whose entry is playing its delete animation. */
    var deleting: Option<int>
    var showForm: bool
    var showDetails: bool
    var selectedAssignment: Option<Assignment>
    var isEditing: bool
    var newAssignment: Draft
    var outbox: seq<Effect<Call>>

    constructor (now: int)
      ensures assignments == [] && modules == [] && loading && error == None && deleting == None
      ensures !showForm && !showDetails && selectedAssignment == None && !isEditing
      ensures newAssignment == DefaultDraft(now) && outbox == []
    {
      assignments := [];
      modules := [];
      loading := true;
      error := None;
      deleting := None;
      showForm := false;
      showDetails := false;
      selectedAssignment := None;
      isEditing := false;
      newAssignment := DefaultDraft(now);
      outbox := [];
    }

    /**
     * `loadAssignments`: the assignments, then the modules. A failure of
     * either sets the error (the modules are not asked for after a failed
     * assignments fetch); loading ends either way.
     */
    method Load(assignmentsReply: Reply<seq<Assignment>>, modulesReply: Reply<seq<Modules.CourseModule>>)
      modifies this`assignments, this`modules, this`error, this`loading, this`outbox
      ensures !loading
      ensures assignmentsReply.Failed? ==>
        outbox == old(outbox) + [Request(FetchAssignments)] && assignments == old(assignments)
        && modules == old(modules) && error == Some("Error fetching assignments")
      ensures assignmentsReply.Ok? ==>
        outbox == old(outbox) + [Request(FetchAssignments), Request(FetchModules)] && assignments == assignmentsReply.value
        && modules == (if modulesReply.Ok? then modulesReply.value else old(modules))
        && error == (if modulesReply.Ok? then old(error) else Some("Error fetching assignments"))
    {
      outbox := outbox + [Request(FetchAssignments)];
      if assignmentsReply.Failed? {
        error := Some("Error fetching assignments");
        loading := false;
        return;
      }
      assignments := assignmentsReply.value;
      outbox := outbox + [Request(FetchModules)];
      if modulesReply.Failed? {
        error := Some("Error fetching assignments");
      } else {
        modules := modulesReply.value;
      }
      loading := false;
    }

    /** `getModuleColor(moduleId)`. */
    function ModuleColor(moduleId: Option<int>): (r: string)
      reads this
      ensures (forall m :: m in modules ==> moduleId != Some(m.id)) ==> r == "#ffffff"
    {
      Modules.ColorFor(modules, moduleId)
    }

    /** `handleCreate`: the created assignment is appended and the form reset and closed. */
    method Create(reply: Reply<Assignment>, now: int)
      modifies this`assignments, this`newAssignment, this`showForm, this`error, this`outbox
      ensures outbox == old(outbox) + [Request(CreateAssignment(old(newAssignment).courseModuleId, old(newAssignment)))]
      ensures reply.Ok? ==>
        assignments == old(assignments) + [reply.value] && newAssignment == DefaultDraft(now) && !showForm && error == old(error)
      ensures reply.Failed? ==>
        assignments == old(assignments) && newAssignment == old(newAssignment) && showForm == old(showForm)
        && error == Some("Error creating assignment")
    {
      outbox := outbox + [Request(CreateAssignment(newAssignment.courseModuleId, newAssignment))];
      if reply.Failed? {
        error := Some("Error creating assignment");
        return;
      }
      assignments := assignments + [reply.value];
      newAssignment := DefaultDraft(now);
      showForm := false;
    }

    /**
     * `handleUpdate`: the returned assignment replaces the one with its id,
     * the form is reset and closed. A failure, or nothing selected (the
     * handler throws inside its `try`), sets the error.
     */
    method Update(reply: Reply<Assignment>, now: int)
      modifies this`assignments, this`newAssignment, this`isEditing, this`showForm, this`error, this`outbox
      ensures old(selectedAssignment).Some? ==>
        outbox == old(outbox) + [Request(UpdateAssignment(selectedAssignment.value.id, old(newAssignment)))]
      ensures selectedAssignment.Some? && reply.Ok? ==>
        assignments == EntityLists.ReplaceWhere(old(assignments), AssignmentId, reply.value.id, reply.value)
        && newAssignment == DefaultDraft(now) && !isEditing && !showForm && error == old(error)
      ensures selectedAssignment.None? || reply.Failed? ==>
        assignments == old(assignments) && newAssignment == old(newAssignment) && isEditing == old(isEditing)
        && showForm == old(showForm) && error == Some("Error updating assignment")
      ensures selectedAssignment.None? ==> outbox == old(outbox)
    {
      if selectedAssignment.None? {
        error := Some("Error updating assignment");
        return;
      }
      outbox := outbox + [Request(UpdateAssignment(selectedAssignment.value.id, newAssignment))];
      if reply.Failed? {
        error := Some("Error updating assignment");
        return;
      }
      assignments := EntityLists.ReplaceWhere(assignments, AssignmentId, reply.value.id, reply.value);
      newAssignment := DefaultDraft(now);
      isEditing := false;
      showForm := false;
    }

    /** `handleDelete(id)`, its first step: mark the entry so it plays its animation. */
    method BeginDelete(id: int)
      modifies this`deleting
      ensures deleting == Some(id)
    {
      deleting := Some(id);
    }

    /**
     * The delete timer firing for `id`: once the server accepts, that id
     * leaves the list; on a failure the error is set. Either way nothing is
     * marked any more.
     */
    method FinishDelete(id: int, reply: Reply<()>)
      modifies this`assignments, this`deleting, this`error, this`outbox
      ensures outbox == old(outbox) + [Request(DeleteAssignment(id))]
      ensures deleting == None
      ensures reply.Ok? ==> assignments == EntityLists.RemoveWhere(old(assignments), AssignmentId, id) && error == old(error)
      ensures reply.Failed? ==> assignments == old(assignments) && error == Some("Error deleting assignment")
    {
      outbox := outbox + [Request(DeleteAssignment(id))];
      if reply.Ok? {
        assignments := EntityLists.RemoveWhere(assignments, AssignmentId, id);
      } else {
        error := Some("Error deleting assignment");
      }
      deleting := None;
    }

    /** `handleAssignmentClick(a)`: show its details. */
    method AssignmentClick(a: Assignment)
      modifies this`selectedAssignment, this`showDetails
      ensures selectedAssignment == Some(a) && showDetails
    {
      selectedAssignment := Some(a);
      showDetails := true;
    }

    /** `handleEditClick(a)`: fill the form from `a` and open it for editing. */
    method EditClick(a: Assignment)
      modifies this`selectedAssignment, this`newAssignment, this`isEditing, this`showForm
      ensures selectedAssignment == Some(a) && newAssignment == DraftOf(a) && isEditing && showForm
    {
      selectedAssignment := Some(a);
      newAssignment := DraftOf(a);
      isEditing := true;
      showForm := true;
    }

    /** The assignments the page lists. */
    function Listed(): (r: seq<Assignment>)
      reads this
      ensures forall a :: a in r <==> a in assignments && !TruthyId(a.parentId)
    {
      TopLevelMembers(assignments);
      TopLevel(assignments)
    }
  }

  /**
   * Deleting a listed assignment takes it, and every entry with its id, off
   * the list; the other listed entries stay, in order.
   */
  lemma {:induction false} DeleteFromListed(s: seq<Assignment>, id: int)
    ensures TopLevel(EntityLists.RemoveWhere(s, AssignmentId, id)) == EntityLists.RemoveWhere(TopLevel(s), AssignmentId, id)
    ensures forall a :: a in TopLevel(EntityLists.RemoveWhere(s, AssignmentId, id)) <==> a in TopLevel(s) && a.id != id
  {
    if s != [] {
      var init, last := s[..|s| - 1], s[|s| - 1];
      assert s == init + [last];
      DeleteFromListed(init, id);
      EntityLists.RemoveWhereConcat(init, [last], AssignmentId, id);
      TopLevelAppend(init, last);
      var tail := if TruthyId(last.parentId) then [] else [last];
      EntityLists.RemoveWhereConcat(TopLevel(init), tail, AssignmentId, id);
      if last.id == id {
        assert EntityLists.RemoveWhere([last], AssignmentId, id) == [];
        assert EntityLists.RemoveWhere(init, AssignmentId, id) + [] == EntityLists.RemoveWhere(init, AssignmentId, id);
        assert EntityLists.RemoveWhere(tail, AssignmentId, id) == [];
      } else {
        assert EntityLists.RemoveWhere([last], AssignmentId, id) == [last];
        TopLevelAppend(EntityLists.RemoveWhere(init, AssignmentId, id), last);
        assert EntityLists.RemoveWhere(tail, AssignmentId, id) == tail;
      }
    }
    EntityLists.RemoveWhereSound(TopLevel(s), AssignmentId, id);
  }
}
