/**
 * The mobile projects screen: a list of projects and two inputs, a title and
 * a description. Adding needs a non-blank title and accepts any
 * description, including an empty one; a project is removed by id. The id is
 * the clock's `Date.now().toString()`, given as a parameter.
 */
module ProjectScreen {
  import JsText
  import Lists

  datatype Project = Project(id: string, title: string, description: string)

  function NotId(id: string): Project -> bool {
    (p: Project) => p.id != id
  }

  /** Removing the id of a project just added, with a fresh id, gives the list from before the add. */
  lemma RemoveUndoesAdd(projects: seq<Project>, p: Project)
    requires forall i :: 0 <= i < |projects| ==> projects[i].id != p.id
    ensures Lists.Filter(projects + [p], NotId(p.id)) == projects
  {
    Lists.FilterDropsLast(projects, p, NotId(p.id));
  }

  class ProjectScreenView {
    var projects: seq<Project>
    var title: string
    var description: string

    constructor ()
      ensures projects == [] && title == "" && description == ""
    {
      projects := [];
      title := "";
      description := "";
    }

    method SetTitle(text: string)
      modifies this
      ensures title == text && projects == old(projects) && description == old(description)
    {
      title := text;
    }

    method SetDescription(text: string)
      modifies this
      ensures description == text && projects == old(projects) && title == old(title)
    {
      description := text;
    }

    /**
     * `addProject`: a blank title adds nothing and keeps both inputs;
     * otherwise the project, with both texts as typed, goes at the end and
     * both inputs are cleared.
     */
    method AddProject(id: string)
      modifies this
      ensures JsText.AllSpace(old(title)) ==> projects == old(projects) && title == old(title) && description == old(description)
      ensures !JsText.AllSpace(old(title)) ==>
        projects == old(projects) + [Project(id, old(title), old(description))] && title == "" && description == ""
    {
      JsText.TrimEmptyIffBlank(title);
      if JsText.Trim(title) == "" {
        return;
      }
      projects := projects + [Project(id, title, description)];
      title := "";
      description := "";
    }

    /** `removeProject`: the projects with the id are gone, and the rest are kept in order. */
    method RemoveProject(id: string)
      modifies this
      ensures projects == Lists.Filter(old(projects), NotId(id))
      ensures forall i :: 0 <= i < |projects| ==> projects[i].id != id
      ensures forall i :: 0 <= i < |old(projects)| && old(projects)[i].id != id ==> old(projects)[i] in projects
      ensures title == old(title) && description == old(description)
    {
      Lists.FilterMultiset(projects, NotId(id));
      projects := Lists.Filter(projects, NotId(id));
    }
  }
}
