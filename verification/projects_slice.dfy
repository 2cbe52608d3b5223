/**
 * The projects slice of the client store: the project list, the project
 * being viewed, and that project's milestones and collaborators.
 */
module ProjectsSlice {
  import opened Shared
  import opened JsObject
  import Lists

  /**
   * `updateProject` on the current project: the updates are merged into it
   * when it is set and has the id, otherwise it is kept.
   */
  function UpdateCurrent(current: Option<Object>, id: Value, updates: Object): (r: Option<Object>)
    ensures current.None? || Get(current.value, "id") != id ==> r == current
    ensures current.Some? && Get(current.value, "id") == id ==> r == Some(Spread(current.value, updates))
  {
    if current.Some? && Get(current.value, "id") == id then Some(Spread(current.value, updates)) else current
  }

  /** `deleteProject` on the current project: cleared exactly when it is the deleted one. */
  function ClearCurrent(current: Option<Object>, id: Value): (r: Option<Object>)
    ensures r.None? <==> current.None? || Get(current.value, "id") == id
    ensures r.Some? ==> r == current
  {
    if current.Some? && Get(current.value, "id") == id then None else current
  }

  /** After an update the current project and its entry in the list agree again, if they agreed before. */
  lemma UpdateKeepsCurrentInStep(projects: seq<Object>, current: Object, id: Value, updates: Object)
    requires Get(current, "id") == id
    requires var k := Lists.FirstIndex(projects, HasId(id)); k >= 0 && projects[k] == current
    ensures var k := Lists.FirstIndex(projects, HasId(id));
      Lists.UpdateFirst(projects, HasId(id), SpreadWith(updates))[k] == UpdateCurrent(Some(current), id, updates).value
  {
  }

  /** An update whose id matches no project changes neither the list nor the current project. */
  lemma UnknownUpdateIsNoop(projects: seq<Object>, current: Option<Object>, id: Value, updates: Object)
    requires forall j :: 0 <= j < |projects| ==> Get(projects[j], "id") != id
    requires current.None? || Get(current.value, "id") != id
    ensures Lists.UpdateFirst(projects, HasId(id), SpreadWith(updates)) == projects
    ensures UpdateCurrent(current, id, updates) == current
  {
    Lists.UpdateFirstNoMatch(projects, HasId(id), SpreadWith(updates));
  }

  /** Removing by id leaves no entry with that id and keeps every other entry, in order. */
  lemma RemoveById(entries: seq<Object>, id: Value)
    ensures var r := Lists.Filter(entries, NotId(id));
      (forall i :: 0 <= i < |r| ==> Get(r[i], "id") != id)
      && (forall j :: 0 <= j < |entries| && Get(entries[j], "id") != id ==> entries[j] in r)
      && multiset(r) <= multiset(entries)
  {
    Lists.FilterMultiset(entries, NotId(id));
  }

  class ProjectsState {
    var projects: seq<Object>
    var currentProject: Option<Object>
    var loading: bool
    var error: Value
    var milestones: seq<Object>
    var collaborators: seq<Object>

    constructor ()
      ensures projects == [] && currentProject.None? && !loading && error == Null
      ensures milestones == [] && collaborators == []
    {
      projects := [];
      currentProject := None;
      loading := false;
      error := Null;
      milestones := [];
      collaborators := [];
    }

    method FetchProjectsStart()
      modifies this
      ensures loading && error == Null
      ensures projects == old(projects) && currentProject == old(currentProject)
      ensures milestones == old(milestones) && collaborators == old(collaborators)
    {
      loading := true;
      error := Null;
    }

    method FetchProjectsSuccess(payload: seq<Object>)
      modifies this
      ensures !loading && projects == payload && error == old(error)
      ensures currentProject == old(currentProject) && milestones == old(milestones) && collaborators == old(collaborators)
    {
      loading := false;
      projects := payload;
    }

    method FetchProjectsFailure(payload: Value)
      modifies this
      ensures !loading && error == payload && projects == old(projects)
      ensures currentProject == old(currentProject) && milestones == old(milestones) && collaborators == old(collaborators)
    {
      loading := false;
      error := payload;
    }

    /** `setCurrentProject`: the new current project, with the previous one's milestones and collaborators dropped. */
    method SetCurrentProject(payload: Option<Object>)
      modifies this
      ensures currentProject == payload && milestones == [] && collaborators == []
      ensures projects == old(projects) && loading == old(loading) && error == old(error)
    {
      currentProject := payload;
      milestones := [];
      collaborators := [];
    }

    method AddProject(project: Object)
      modifies this
      ensures projects == old(projects) + [project]
      ensures currentProject == old(currentProject) && milestones == old(milestones) && collaborators == old(collaborators)
      ensures loading == old(loading) && error == old(error)
    {
      projects := projects + [project];
    }

    /** `updateProject`: merged into the first project with the id, and into the current project when it is that one. */
    method UpdateProject(id: Value, updates: Object)
      modifies this
      ensures projects == Lists.UpdateFirst(old(projects), HasId(id), SpreadWith(updates))
      ensures Lists.FirstIndex(old(projects), HasId(id)) >= 0 ==> currentProject == UpdateCurrent(old(currentProject), id, updates)
      ensures Lists.FirstIndex(old(projects), HasId(id)) < 0 ==> currentProject == old(currentProject)
      ensures milestones == old(milestones) && collaborators == old(collaborators)
      ensures loading == old(loading) && error == old(error)
    {
      var i := Lists.FirstIndex(projects, HasId(id));
      if i != -1 {
        projects := projects[i := Spread(projects[i], updates)];
        if currentProject.Some? && Get(currentProject.value, "id") == id {
          currentProject := Some(Spread(currentProject.value, updates));
        }
      }
    }

    /** `deleteProject`: every project with the id goes, and the current project is cleared if it was that one. */
    method DeleteProject(id: Value)
      modifies this
      ensures projects == Lists.Filter(old(projects), NotId(id))
      ensures currentProject == ClearCurrent(old(currentProject), id)
      ensures milestones == old(milestones) && collaborators == old(collaborators)
      ensures loading == old(loading) && error == old(error)
    {
      projects := Lists.Filter(projects, NotId(id));
      if currentProject.Some? && Get(currentProject.value, "id") == id {
        currentProject := None;
      }
    }

    method FetchMilestonesSuccess(payload: seq<Object>)
      modifies this
      ensures milestones == payload
      ensures projects == old(projects) && currentProject == old(currentProject) && collaborators == old(collaborators)
      ensures loading == old(loading) && error == old(error)
    {
      milestones := payload;
    }

    method AddMilestone(milestone: Object)
      modifies this
      ensures milestones == old(milestones) + [milestone]
      ensures projects == old(projects) && currentProject == old(currentProject) && collaborators == old(collaborators)
      ensures loading == old(loading) && error == old(error)
    {
      milestones := milestones + [milestone];
    }

    method UpdateMilestone(id: Value, updates: Object)
      modifies this
      ensures milestones == Lists.UpdateFirst(old(milestones), HasId(id), SpreadWith(updates))
      ensures projects == old(projects) && currentProject == old(currentProject) && collaborators == old(collaborators)
      ensures loading == old(loading) && error == old(error)
    {
      var i := Lists.FirstIndex(milestones, HasId(id));
      if i != -1 {
        milestones := milestones[i := Spread(milestones[i], updates)];
      }
    }

    method DeleteMilestone(id: Value)
      modifies this
      ensures milestones == Lists.Filter(old(milestones), NotId(id))
      ensures projects == old(projects) && currentProject == old(currentProject) && collaborators == old(collaborators)
      ensures loading == old(loading) && error == old(error)
    {
      milestones := Lists.Filter(milestones, NotId(id));
    }

    method FetchCollaboratorsSuccess(payload: seq<Object>)
      modifies this
      ensures collaborators == payload
      ensures projects == old(projects) && currentProject == old(currentProject) && milestones == old(milestones)
      ensures loading == old(loading) && error == old(error)
    {
      collaborators := payload;
    }

    method AddCollaborator(collaborator: Object)
      modifies this
      ensures collaborators == old(collaborators) + [collaborator]
      ensures projects == old(projects) && currentProject == old(currentProject) && milestones == old(milestones)
      ensures loading == old(loading) && error == old(error)
    {
      collaborators := collaborators + [collaborator];
    }

    method RemoveCollaborator(id: Value)
      modifies this
      ensures collaborators == Lists.Filter(old(collaborators), NotId(id))
      ensures projects == old(projects) && currentProject == old(currentProject) && milestones == old(milestones)
      ensures loading == old(loading) && error == old(error)
    {
      collaborators := Lists.Filter(collaborators, NotId(id));
    }
  }
}
