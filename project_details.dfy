/**
 * A project's details page (`ProjectDetails.js`): the project's
 * assignments, a form that creates or edits one, deletion, and claiming an
 * unassigned assignment.
 */
module ProjectDetails {
  import opened Base
  import opened Js
  import opened Effects
  import EntityLists
  import Modules

  /** A project assignment; `userId` is the member who claimed it, if any. */
  datatype ProjectAssignment = ProjectAssignment(
    id: int, title: string, description: string, priority: string, status: string, userId: Option<int>)

  function AssignmentId(a: ProjectAssignment): int { a.id }

  /** The payload sent on create and update. */
  datatype AssignmentData = AssignmentData(title: string, description: string, priority: string, status: string, userId: Option<int>)

  /** The server calls of the page; every one is scoped by the route's team and project. */
  datatype Call =
    | FetchProject
    | FetchProjectAssignments
    | FetchModules
    | CreateProjectAssignment(data: AssignmentData)
    | UpdateProjectAssignment(id: int, data: AssignmentData)
    | DeleteProjectAssignment(id: int)
    | ClaimProjectAssignment(id: int)

  /** The claim button is offered only on an assignment nobody has claimed. */
  predicate ClaimOffered(a: ProjectAssignment)
  {
    !TruthyId(a.userId)
  }

  /** The assignments still open to claim, in list order. */
  function Claimable(s: seq<ProjectAssignment>): (r: seq<ProjectAssignment>)
    ensures forall a :: a in r <==> a in s && ClaimOffered(a)
  {
    if s == [] then []
    else
      var rest := Claimable(s[1..]);
      assert forall a :: a in s <==> a == s[0] || a in s[1..];
      if ClaimOffered(s[0]) then [s[0]] + rest else rest
  }

  class Page {
    const teamId: string
    const projectId: string
    /** The project's name, once fetched. */
    var projectName: Option<string>
    var assignments: seq<ProjectAssignment>
    var modules: seq<Modules.CourseModule>
    var showModal: bool
    var isEditing: bool
    var selectedAssignment: Option<ProjectAssignment>
    var title: string
    var description: string
    var priority: string
    var status: string
    var outbox: seq<Effect<Call>>

    ghost predicate FormCleared()
      reads this
    {
      !showModal && !isEditing && selectedAssignment == None && title == "" && description == "" && priority == "" && status == ""
    }

    constructor (teamId: string, projectId: string)
      ensures this.teamId == teamId && this.projectId == projectId && projectName == None
      ensures assignments == [] && modules == [] && FormCleared() && outbox == []
    {
      this.teamId := teamId;
      this.projectId := projectId;
      projectName := None;
      assignments := [];
      modules := [];
      showModal := false;
      isEditing := false;
      selectedAssignment := None;
      title := "";
      description := "";
      priority := "";
      status := "";
      outbox := [];
    }

    /** The three independent fetches; each failure is only logged. */
    method Load(projectReply: Reply<string>, assignmentsReply: Reply<seq<ProjectAssignment>>, modulesReply: Reply<seq<Modules.CourseModule>>)
      modifies this`projectName, this`assignments, this`modules, this`outbox
      ensures outbox == old(outbox) + [Request(FetchProject), Request(FetchProjectAssignments), Request(FetchModules)]
      ensures projectName == (if projectReply.Ok? then Some(projectReply.value) else old(projectName))
      ensures assignments == (if assignmentsReply.Ok? then assignmentsReply.value else old(assignments))
      ensures modules == if modulesReply.Ok? then modulesReply.value else old(modules)
    {
      outbox := outbox + [Request(FetchProject), Request(FetchProjectAssignments), Request(FetchModules)];
      if projectReply.Ok? {
        projectName := Some(projectReply.value);
      }
      if assignmentsReply.Ok? {
        assignments := assignmentsReply.value;
      }
      if modulesReply.Ok? {
        modules := modulesReply.value;
      }
    }

    /** `getModuleColor(moduleId)`. */
    function ModuleColor(moduleId: Option<int>): (r: string)
      reads this
      ensures (forall m :: m in modules ==> moduleId != Some(m.id)) ==> r == "#ffffff"
    {
      Modules.ColorFor(modules, moduleId)
    }

    /** `handleShowModal`. */
    method ShowModal()
      modifies this`showModal
      ensures showModal
    {
      showModal := true;
    }

    /** `handleCloseModal`: close and forget the edit, the selection and all four fields. */
    method CloseModal()
      modifies this`showModal, this`isEditing, this`selectedAssignment, this`title, this`description, this`priority, this`status
      ensures FormCleared()
    {
      showModal := false;
      isEditing := false;
      selectedAssignment := None;
      title := "";
      description := "";
      priority := "";
      status := "";
    }

    /** `handleEditClick(a)`: fill the form from `a` and open it for editing. */
    method EditClick(a: ProjectAssignment)
      modifies this`isEditing, this`selectedAssignment, this`title, this`description, this`priority, this`status, this`showModal
      ensures isEditing && showModal && selectedAssignment == Some(a)
      ensures title == a.title && description == a.description && priority == a.priority && status == a.status
    {
      isEditing := true;
      selectedAssignment := Some(a);
      title := a.title;
      description := a.description;
      priority := a.priority;
      status := a.status;
      ShowModal();
    }

    /** `handleCreateProjectAssignment`: an unclaimed assignment is created and appended; the form is cleared. */
    method Create(reply: Reply<ProjectAssignment>)
      modifies this`assignments, this`outbox, this`showModal, this`isEditing, this`selectedAssignment, this`title, this`description, this`priority, this`status
      ensures outbox == old(outbox) + [Request(CreateProjectAssignment(AssignmentData(old(title), old(description), old(priority), old(status), None)))]
      ensures reply.Ok? ==> assignments == old(assignments) + [reply.value] && FormCleared()
      ensures reply.Failed? ==> assignments == old(assignments) && unchanged(this`showModal, this`isEditing, this`selectedAssignment, this`title, this`description, this`priority, this`status)
    {
      outbox := outbox + [Request(CreateProjectAssignment(AssignmentData(title, description, priority, status, None)))];
      if reply.Ok? {
        assignments := assignments + [reply.value];
        CloseModal();
      }
    }

    /**
     * `handleUpdateProjectAssignment`: the edited fields are sent with the
     * selected assignment's own claimant, the returned assignment replaces
     * the one with its id, and the form is cleared. With nothing selected
     * the handler throws inside its `try` and nothing changes.
     */
    method Update(reply: Reply<ProjectAssignment>)
      modifies this`assignments, this`outbox, this`showModal, this`isEditing, this`selectedAssignment, this`title, this`description, this`priority, this`status
      ensures old(selectedAssignment).None? ==> assignments == old(assignments) && outbox == old(outbox) && selectedAssignment == None
      ensures old(selectedAssignment).Some? ==>
        var sel := old(selectedAssignment).value;
        outbox == old(outbox) + [Request(UpdateProjectAssignment(sel.id, AssignmentData(old(title), old(description), old(priority), old(status), sel.userId)))]
      ensures old(selectedAssignment).Some? && reply.Ok? ==>
        assignments == EntityLists.ReplaceWhere(old(assignments), AssignmentId, reply.value.id, reply.value) && FormCleared()
      ensures reply.Failed? ==> assignments == old(assignments) && selectedAssignment == old(selectedAssignment)
      ensures old(selectedAssignment).None? || reply.Failed? ==>
        unchanged(this`showModal, this`isEditing, this`title, this`description, this`priority, this`status)
    {
      if selectedAssignment.None? {
        return;
      }
      var sel := selectedAssignment.value;
      outbox := outbox + [Request(UpdateProjectAssignment(sel.id, AssignmentData(title, description, priority, status, sel.userId)))];
      if reply.Ok? {
        assignments := EntityLists.ReplaceWhere(assignments, AssignmentId, reply.value.id, reply.value);
        CloseModal();
      }
    }

    /** `handleDeleteProjectAssignment(id)`: once the server accepts, only that id leaves the list. */
    method Delete(id: int, reply: Reply<()>)
      modifies this`assignments, this`outbox
      ensures outbox == old(outbox) + [Request(DeleteProjectAssignment(id))]
      ensures assignments == if reply.Ok? then EntityLists.RemoveWhere(old(assignments), AssignmentId, id) else old(assignments)
    {
      outbox := outbox + [Request(DeleteProjectAssignment(id))];
      if reply.Ok? {
        assignments := EntityLists.RemoveWhere(assignments, AssignmentId, id);
      }
    }

    /** `handleClaimProjectAssignment(id)`: the entry with that id becomes the claimed one the server returns. */
    method Claim(id: int, reply: Reply<ProjectAssignment>)
      modifies this`assignments, this`outbox
      ensures outbox == old(outbox) + [Request(ClaimProjectAssignment(id))]
      ensures assignments == if reply.Ok? then EntityLists.ReplaceWhere(old(assignments), AssignmentId, id, reply.value) else old(assignments)
    {
      outbox := outbox + [Request(ClaimProjectAssignment(id))];
      if reply.Ok? {
        assignments := EntityLists.ReplaceWhere(assignments, AssignmentId, id, reply.value);
      }
    }
  }

  /**
   * Once the server returns an assignment as claimed by `me`, it is no
   * longer offered for claiming, and every other entry keeps its place.
   */
  lemma ClaimedNotOffered(s: seq<ProjectAssignment>, id: int, claimed: ProjectAssignment, me: int)
    requires claimed.userId == Some(me) && me != 0
    ensures |EntityLists.ReplaceWhere(s, AssignmentId, id, claimed)| == |s|
    ensures forall i :: 0 <= i < |s| && s[i].id == id ==> !ClaimOffered(EntityLists.ReplaceWhere(s, AssignmentId, id, claimed)[i])
    ensures forall i :: 0 <= i < |s| && s[i].id != id ==> EntityLists.ReplaceWhere(s, AssignmentId, id, claimed)[i] == s[i]
  {
    EntityLists.ReplaceWhereAt(s, AssignmentId, id, claimed);
  }
}
