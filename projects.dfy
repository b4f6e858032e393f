/**
 * A team's projects page (`Projects.js`): the project list, a form that
 * edits a project or creates one (then opens it), and deletion. The form
 * holds the grade weight and the module as text and converts them back
 * with `parseInt` when it submits.
 */
module Projects {
  import opened Base
  import opened Js
  import opened Effects
  import EntityLists
  import Modules

  datatype Project = Project(
    id: int, name: string, givenDate: string, dueDate: string, description: string,
    gradeWeight: int, moduleId: int)

  function ProjectId(p: Project): int { p.id }

  /** The form's fields, all text. */
  datatype Form = Form(name: string, givenDate: string, dueDate: string, description: string, gradeWeight: string, courseModule: string)

  const EmptyForm: Form := Form("", "", "", "", "", "")

  /** The payload sent on create and update; the two numbers may come out `NaN`. */
  datatype ProjectData = ProjectData(name: string, givenDate: string, dueDate: string, description: string, gradeWeight: Number, moduleId: Number)

  /** The server calls of the page. */
  datatype Call =
    | FetchProjects(teamId: string)
    | FetchModules
    | UpdateProject(teamId: string, id: int, data: ProjectData)
    | CreateProject(teamId: string, data: ProjectData)
    | DeleteProject(teamId: string, id: int)

  /** The form filled from a project: the two numbers spelled as text. */
  function FormOf(p: Project): Form
  {
    Form(p.name, p.givenDate, p.dueDate, p.description, IntToString(p.gradeWeight), IntToString(p.moduleId))
  }

  /** The payload built from the form: the two numbers read with `parseInt`. */
  function Payload(f: Form): ProjectData
  {
    ProjectData(f.name, f.givenDate, f.dueDate, f.description, ParseInt(f.gradeWeight), ParseInt(f.courseModule))
  }

  /** Opening a project and saving it untouched sends its own values back, as integers. */
  lemma PayloadOfFormOf(p: Project)
    ensures Payload(FormOf(p)) == ProjectData(p.name, p.givenDate, p.dueDate, p.description, Int(p.gradeWeight), Int(p.moduleId))
  {
    ParseIntOfString(p.gradeWeight);
    ParseIntOfString(p.moduleId);
  }

  /** An empty form sends `NaN` for both numbers. */
  lemma PayloadOfEmptyForm()
    ensures Payload(EmptyForm).gradeWeight == NaN && Payload(EmptyForm).moduleId == NaN
  {
  }

  /** The details page of project `id` of team `teamId`. */
  function ProjectPath(teamId: string, id: int): string
  {
    "/teams/" + teamId + "/projects/" + IntToString(id)
  }

  class Page {
    /** The route parameter `teamId`. */
    const teamId: string
    var projects: seq<Project>
    var courseModules: seq<Modules.CourseModule>
    var showModal: bool
    var form: Form
    /** The project being edited; a falsy id means a new project. */
    var editProjectId: Option<int>
    var error: string
    var outbox: seq<Effect<Call>>

    constructor (teamId: string)
      ensures this.teamId == teamId && projects == [] && courseModules == [] && !showModal
      ensures form == EmptyForm && editProjectId == None && error == "" && outbox == []
    {
      this.teamId := teamId;
      projects := [];
      courseModules := [];
      showModal := false;
      form := EmptyForm;
      editProjectId := None;
      error := "";
      outbox := [];
    }

    /** The initial fetches: a failed project fetch sets the error; a failed module fetch is only logged. */
    method Load(projectsReply: Reply<seq<Project>>, modulesReply: Reply<seq<Modules.CourseModule>>)
      modifies this`projects, this`courseModules, this`error, this`outbox
      ensures outbox == old(outbox) + [Request(FetchProjects(teamId)), Request(FetchModules)]
      ensures projects == (if projectsReply.Ok? then projectsReply.value else old(projects))
      ensures error == (if projectsReply.Ok? then old(error) else "Failed to fetch projects")
      ensures courseModules == if modulesReply.Ok? then modulesReply.value else old(courseModules)
    {
      outbox := outbox + [Request(FetchProjects(teamId)), Request(FetchModules)];
      if projectsReply.Ok? {
        projects := projectsReply.value;
      } else {
        error := "Failed to fetch projects";
      }
      if modulesReply.Ok? {
        courseModules := modulesReply.value;
      }
    }

    /** `handleShowModal(project)`: fill the form from a project, or clear it and the edit id. */
    method ShowModal(p: Option<Project>)
      modifies this`form, this`editProjectId, this`showModal
      ensures showModal
      ensures p.Some? ==> form == FormOf(p.value) && editProjectId == Some(p.value.id)
      ensures p.None? ==> form == EmptyForm && editProjectId == None
    {
      if p.Some? {
        form := FormOf(p.value);
        editProjectId := Some(p.value.id);
      } else {
        form := EmptyForm;
        editProjectId := None;
      }
      showModal := true;
    }

    /** `handleCloseModal`. */
    method CloseModal()
      modifies this`showModal
      ensures !showModal
    {
      showModal := false;
    }

    /**
     * `handleCreateOrUpdateProject`: with an edit id, the project with that
     * id is replaced by the server's; without one the new project is
     * appended and opened. Success closes the form; a failure changes nothing.
     */
    method Submit(reply: Reply<Project>)
      modifies this`projects, this`showModal, this`outbox
      ensures TruthyId(editProjectId) ==>
        && outbox == old(outbox) + [Request(UpdateProject(teamId, editProjectId.value, Payload(form)))]
        && projects == (if reply.Ok? then EntityLists.ReplaceWhere(old(projects), ProjectId, editProjectId.value, reply.value) else old(projects))
      ensures !TruthyId(editProjectId) && reply.Ok? ==>
        && outbox == old(outbox) + [Request(CreateProject(teamId, Payload(form))), Navigate(ProjectPath(teamId, reply.value.id))]
        && projects == old(projects) + [reply.value]
      ensures !TruthyId(editProjectId) && reply.Failed? ==>
        outbox == old(outbox) + [Request(CreateProject(teamId, Payload(form)))] && projects == old(projects)
      ensures showModal == (old(showModal) && reply.Failed?)
    {
      var data := Payload(form);
      if TruthyId(editProjectId) {
        outbox := outbox + [Request(UpdateProject(teamId, editProjectId.value, data))];
        if reply.Failed? {
          return;
        }
        projects := EntityLists.ReplaceWhere(projects, ProjectId, editProjectId.value, reply.value);
      } else {
        outbox := outbox + [Request(CreateProject(teamId, data))];
        if reply.Failed? {
          return;
        }
        projects := projects + [reply.value];
        outbox := outbox + [Navigate(ProjectPath(teamId, reply.value.id))];
      }
      CloseModal();
    }

    /** `handleDeleteProject(id)`: once the server accepts, that id leaves the list. */
    method Delete(projectId: int, reply: Reply<()>)
      modifies this`projects, this`outbox
      ensures outbox == old(outbox) + [Request(DeleteProject(teamId, projectId))]
      ensures projects == if reply.Ok? then EntityLists.RemoveWhere(old(projects), ProjectId, projectId) else old(projects)
    {
      outbox := outbox + [Request(DeleteProject(teamId, projectId))];
      if reply.Ok? {
        projects := EntityLists.RemoveWhere(projects, ProjectId, projectId);
      }
    }

    /** Clicking a project's name opens it. */
    method Open(projectId: int)
      modifies this`outbox
      ensures outbox == old(outbox) + [Navigate(ProjectPath(teamId, projectId))]
    {
      outbox := outbox + [Navigate(ProjectPath(teamId, projectId))];
    }
  }

  /**
   * Editing an existing project and saving it untouched, when the server
   * returns it unchanged, leaves the list as it was.
   */
  lemma UntouchedEditKeepsList(projects: seq<Project>, p: Project)
    requires forall q :: q in projects && q.id == p.id ==> q == p
    ensures EntityLists.ReplaceWhere(projects, ProjectId, p.id, p) == projects
  {
    EntityLists.ReplaceWhereAt(projects, ProjectId, p.id, p);
  }
}
