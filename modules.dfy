/**
 * The course modules page (`Modules.js`): the list of modules, a form that
 * creates one or updates the one being edited, and the colour lookup the
 * other screens use to paint records by their module.
 */
module Modules {
  import opened Base
  import opened Effects
  import EntityLists

  datatype CourseModule = CourseModule(id: int, name: string, description: string, color: string)

  function ModuleId(m: CourseModule): int { m.id }

  /** The form's fields. */
  datatype Draft = Draft(name: string, description: string, color: string)

  /** The pastel colours offered for a module, in menu order. */
  const Palette: seq<string> := ["#FFB3BA", "#FFDFBA", "#FFFFBA", "#BAFFC9", "#BAE1FF", "#E2C2FF", "#FFCDF3", "#C2F0FF"]

  /** The empty form: no name, no description, the first palette colour. */
  const BlankDraft: Draft := Draft("", "", "#FFB3BA")

  /** The server calls of the page. */
  datatype Call = FetchModules | CreateModule(draft: Draft) | DeleteModule(id: int) | UpdateModule(id: int, draft: Draft)

  /** `modules.find(m => m.id === moduleId)`: the first module with that id. */
  function Find(modules: seq<CourseModule>, moduleId: Option<int>): (r: Option<CourseModule>)
    ensures r.Some? ==> r.value in modules && moduleId == Some(r.value.id)
    ensures r.None? ==> forall m :: m in modules ==> moduleId != Some(m.id)
  {
    if modules == [] then None
    else if moduleId == Some(modules[0].id) then Some(modules[0])
    else Find(modules[1..], moduleId)
  }

  /** `getModuleColor(moduleId)`: the colour of the module with that id, else white. */
  function ColorFor(modules: seq<CourseModule>, moduleId: Option<int>): (r: string)
    ensures (forall m :: m in modules ==> moduleId != Some(m.id)) ==> r == "#ffffff"
  {
    var found := Find(modules, moduleId);
    if found.Some? then found.value.color else "#ffffff"
  }

  /** The colour is the one of the first module in the list that carries the id. */
  lemma {:induction false} ColorForFirstMatch(modules: seq<CourseModule>, i: nat)
    requires i < |modules| && forall j :: 0 <= j < i ==> modules[j].id != modules[i].id
    ensures ColorFor(modules, Some(modules[i].id)) == modules[i].color
  {
    if i > 0 {
      ColorForFirstMatch(modules[1..], i - 1);
    }
  }

  class Page {
    var modules: seq<CourseModule>
    var newModule: Draft
    /** The module being edited, if any. */
    var currentModule: Option<CourseModule>
    var outbox: seq<Effect<Call>>

    constructor ()
      ensures modules == [] && newModule == BlankDraft && currentModule == None && outbox == []
    {
      modules := [];
      newModule := BlankDraft;
      currentModule := None;
      outbox := [];
    }

    /** The initial fetch; a failure keeps the list. */
    method Load(reply: Reply<seq<CourseModule>>)
      modifies this`modules, this`outbox
      ensures outbox == old(outbox) + [Request(FetchModules)]
      ensures modules == if reply.Ok? then reply.value else old(modules)
    {
      outbox := outbox + [Request(FetchModules)];
      if reply.Ok? {
        modules := reply.value;
      }
    }

    /** `handleSubmit`: the created module is appended and the form is reset. */
    method Create(reply: Reply<CourseModule>)
      modifies this`modules, this`newModule, this`outbox
      ensures outbox == old(outbox) + [Request(CreateModule(old(newModule)))]
      ensures reply.Ok? ==> modules == old(modules) + [reply.value] && newModule == BlankDraft
      ensures reply.Failed? ==> modules == old(modules) && newModule == old(newModule)
    {
      outbox := outbox + [Request(CreateModule(newModule))];
      if reply.Ok? {
        modules := modules + [reply.value];
        newModule := BlankDraft;
      }
    }

    /** `handleDelete(id)`: once the server accepts, every module with that id leaves the list. */
    method Delete(moduleId: int, reply: Reply<()>)
      modifies this`modules, this`outbox
      ensures outbox == old(outbox) + [Request(DeleteModule(moduleId))]
      ensures modules == if reply.Ok? then EntityLists.RemoveWhere(old(modules), ModuleId, moduleId) else old(modules)
    {
      outbox := outbox + [Request(DeleteModule(moduleId))];
      if reply.Ok? {
        modules := EntityLists.RemoveWhere(modules, ModuleId, moduleId);
      }
    }

    /** `handleEdit(module)`, its state part: the module becomes the one edited and fills the form. */
    method Edit(m: CourseModule)
      modifies this`currentModule, this`newModule
      ensures currentModule == Some(m) && newModule == Draft(m.name, m.description, m.color)
    {
      currentModule := Some(m);
      newModule := Draft(m.name, m.description, m.color);
    }

    /**
     * `handleUpdate`: the returned module replaces the one with its id, the
     * form is reset and nothing is edited any more. Without a module being
     * edited the handler throws inside its `try` and nothing changes.
     */
    method Update(reply: Reply<CourseModule>)
      modifies this`modules, this`newModule, this`currentModule, this`outbox
      ensures old(currentModule).None? ==> modules == old(modules) && newModule == old(newModule) && currentModule == None && outbox == old(outbox)
      ensures old(currentModule).Some? ==> outbox == old(outbox) + [Request(UpdateModule(old(currentModule).value.id, old(newModule)))]
      ensures old(currentModule).Some? && reply.Ok? ==>
        modules == EntityLists.ReplaceWhere(old(modules), ModuleId, reply.value.id, reply.value)
        && newModule == BlankDraft && currentModule == None
      ensures old(currentModule).Some? && reply.Failed? ==>
        modules == old(modules) && newModule == old(newModule) && currentModule == old(currentModule)
    {
      if currentModule.None? {
        return;
      }
      outbox := outbox + [Request(UpdateModule(currentModule.value.id, newModule))];
      if reply.Ok? {
        modules := EntityLists.ReplaceWhere(modules, ModuleId, reply.value.id, reply.value);
        newModule := BlankDraft;
        currentModule := None;
      }
    }

    /** The form's `onSubmit`: an update while a module is being edited, a create otherwise. */
    method Submit(reply: Reply<CourseModule>)
      modifies this`modules, this`newModule, this`currentModule, this`outbox
      ensures old(currentModule).Some? ==> outbox == old(outbox) + [Request(UpdateModule(old(currentModule).value.id, old(newModule)))]
      ensures old(currentModule).None? ==> outbox == old(outbox) + [Request(CreateModule(old(newModule)))] && currentModule == None
      ensures reply.Failed? ==> modules == old(modules) && newModule == old(newModule)
      ensures reply.Ok? ==> newModule == BlankDraft && currentModule == None
      ensures reply.Ok? ==> modules == if old(currentModule).Some?
        then EntityLists.ReplaceWhere(old(modules), ModuleId, reply.value.id, reply.value)
        else old(modules) + [reply.value]
      ensures reply.Failed? ==> currentModule == old(currentModule)
    {
      if currentModule.Some? {
        Update(reply);
      } else {
        Create(reply);
      }
    }
  }
}
