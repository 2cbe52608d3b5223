/**
 * The shared project-section component: a list of projects, one of them
 * active, each with milestones whose completed share is the project's
 * progress percentage. The initial mock fetch and the `alert` and
 * `window.confirm` dialogs are replaced by parameters.
 */
module ProjectSection {
  import opened Shared
  import JsText
  import Lists

  datatype Milestone = Milestone(id: string, title: string, description: string, dueDate: string, completed: bool)

  datatype Project = Project(
    id: string, title: string, description: string, startDate: string, endDate: string,
    progress: int, collaborators: seq<string>, milestones: seq<Milestone>)

  /** The new-project form; collaborators are typed as one comma-separated string. */
  datatype ProjectDraft = ProjectDraft(title: string, description: string, startDate: string, endDate: string,
                                       collaborators: string)

  datatype MilestoneDraft = MilestoneDraft(title: string, description: string, dueDate: string, completed: bool)

  const EmptyProjectDraft := ProjectDraft("", "", "", "", "")

  const EmptyMilestoneDraft := MilestoneDraft("", "", "", false)

  predicate IsCompleted(m: Milestone) {
    m.completed
  }

  /**
   * `calculateProgress`: 0 without milestones, otherwise the completed share
   * as a percentage rounded to the nearest integer, halves rounding up.
   */
  function Progress(ms: seq<Milestone>): (r: int)
    ensures 0 <= r <= 100
    ensures ms == [] ==> r == 0
    ensures ms != [] ==>
      var c, d := Lists.Count(ms, IsCompleted), 2 * |ms|;
      r * d <= 200 * c + |ms| < r * d + d
    ensures ms != [] && Lists.Count(ms, IsCompleted) == |ms| ==> r == 100
    ensures Lists.Count(ms, IsCompleted) == 0 ==> r == 0
  {
    if ms == [] then 0
    else
      var c, t := Lists.Count(ms, IsCompleted), |ms|;
      RoundBounds(c, t);
      (200 * c + t) / (2 * t)
  }

  /** `x * y` grows with `x` when `y` is not negative. */
  lemma MulMonotone(x: int, x': int, y: int)
    requires x <= x' && 0 <= y
    ensures x * y <= x' * y
  {
    var z := x' - x;
    assert x' * y == x * y + z * y;
  }

  lemma RoundBounds(c: nat, t: nat)
    requires 0 < t && c <= t
    ensures var r := (200 * c + t) / (2 * t);
      0 <= r <= 100 && r * (2 * t) <= 200 * c + t < r * (2 * t) + 2 * t
      && (c == t ==> r == 100) && (c == 0 ==> r == 0)
  {
    var a, d := 200 * c + t, 2 * t;
    var r := a / d;
    assert a == r * d + a % d && 0 <= a % d < d;
    if r > 100 {
      MulMonotone(101, r, d);
      assert false;
    }
    if r < 0 {
      MulMonotone(r, -1, d);
      assert false;
    }
    if c == t {
      assert a == 100 * d + t;
      if r < 100 {
        MulMonotone(r, 99, d);
        assert false;
      }
    }
    if c == 0 {
      if r > 0 {
        MulMonotone(1, r, d);
        assert false;
      }
    }
  }

  /** One more completed milestone never lowers the progress. */
  lemma ProgressMonotone(ms: seq<Milestone>, m: Milestone, k: int)
    requires 0 <= k < |ms| && !ms[k].completed && m.completed
    ensures Progress(ms[k := m]) >= Progress(ms)
  {
    CountReplace(ms, m, k);
    RoundMonotone(Lists.Count(ms, IsCompleted), Lists.Count(ms[k := m], IsCompleted), |ms|);
  }

  /** The rounded percentage grows with the completed count. */
  lemma RoundMonotone(c: nat, c': nat, t: nat)
    requires 0 < t && c <= c' <= t
    ensures (200 * c + t) / (2 * t) <= (200 * c' + t) / (2 * t)
  {
    RoundBounds(c, t);
    RoundBounds(c', t);
    var r, r' := (200 * c + t) / (2 * t), (200 * c' + t) / (2 * t);
    if r' < r {
      MulMonotone(r' + 1, r, 2 * t);
      assert false;
    }
  }

  /** Completing one open milestone raises the completed count by one. */
  lemma CountReplace(ms: seq<Milestone>, m: Milestone, k: int)
    requires 0 <= k < |ms| && !ms[k].completed && m.completed
    ensures Lists.Count(ms[k := m], IsCompleted) == Lists.Count(ms, IsCompleted) + 1
  {
    var ms' := ms[k := m];
    assert ms == ms[..k] + [ms[k]] + ms[k + 1..];
    assert ms' == ms[..k] + [m] + ms[k + 1..];
    Lists.CountSplit(ms[..k] + [ms[k]], ms[k + 1..], IsCompleted);
    Lists.CountSplit(ms[..k], [ms[k]], IsCompleted);
    Lists.CountSplit(ms[..k] + [m], ms[k + 1..], IsCompleted);
    Lists.CountSplit(ms[..k], [m], IsCompleted);
  }

  function MilestoneIs(id: string): Milestone -> bool {
    (m: Milestone) => m.id == id
  }

  function MilestoneIsNot(id: string): Milestone -> bool {
    (m: Milestone) => m.id != id
  }

  function FlipCompleted(m: Milestone): Milestone {
    m.(completed := !m.completed)
  }

  function ProjectIs(id: string): Project -> bool {
    (p: Project) => p.id == id
  }

  function ProjectIsNot(id: string): Project -> bool {
    (p: Project) => p.id != id
  }

  function Becomes(p: Project): Project -> Project {
    (_: Project) => p
  }

  /** The active project with new milestones, and its progress recomputed from them. */
  function WithMilestones(p: Project, ms: seq<Milestone>): (q: Project)
    ensures q.milestones == ms && q.progress == Progress(ms) && q.id == p.id
    ensures q == p.(milestones := ms, progress := q.progress)
  {
    p.(milestones := ms, progress := Progress(ms))
  }

  /** Toggling the same milestone twice restores the milestones and the progress. */
  lemma ToggleTwice(p: Project, id: string)
    requires p.progress == Progress(p.milestones)
    ensures var once := WithMilestones(p, Lists.MapWhere(p.milestones, MilestoneIs(id), FlipCompleted));
      WithMilestones(once, Lists.MapWhere(once.milestones, MilestoneIs(id), FlipCompleted)) == p
  {
    Lists.MapWhereTwice(p.milestones, MilestoneIs(id), FlipCompleted);
  }

  /** The project a valid submission creates: progress 0, no milestones, comma-split and trimmed collaborators. */
  function NewProject(draft: ProjectDraft, now: int): (p: Project)
    ensures p.id == JsText.IntToString(now) && p.title == draft.title && p.progress == 0 && p.milestones == []
    ensures draft.collaborators == "" ==> p.collaborators == []
    ensures draft.collaborators != "" ==> p.collaborators == JsText.SplitTrim(draft.collaborators, ',')
  {
    Project(JsText.IntToString(now), draft.title, draft.description, draft.startDate, draft.endDate, 0,
            if draft.collaborators != "" then JsText.SplitTrim(draft.collaborators, ',') else [], [])
  }

  /** The active project with the drafted milestone appended under the id `"m" + now`, and its progress recomputed. */
  function AddMilestone(a: Project, d: MilestoneDraft, now: int): (q: Project)
    ensures q.id == a.id && 0 <= q.progress <= 100
    ensures q.milestones == a.milestones + [Milestone("m" + JsText.IntToString(now), d.title, d.description, d.dueDate, d.completed)]
  {
    WithMilestones(a, a.milestones + [Milestone("m" + JsText.IntToString(now), d.title, d.description, d.dueDate, d.completed)])
  }

  /** `{...newProject, [name]: value}` on the five inputs of the new-project form. */
  function SetProjectField(d: ProjectDraft, name: string, value: string): (r: ProjectDraft)
    ensures name == "title" ==> r == d.(title := value)
    ensures name == "description" ==> r == d.(description := value)
    ensures name == "startDate" ==> r == d.(startDate := value)
    ensures name == "endDate" ==> r == d.(endDate := value)
    ensures name == "collaborators" ==> r == d.(collaborators := value)
    ensures name !in {"title", "description", "startDate", "endDate", "collaborators"} ==> r == d
  {
    match name
    case "title" => d.(title := value)
    case "description" => d.(description := value)
    case "startDate" => d.(startDate := value)
    case "endDate" => d.(endDate := value)
    case "collaborators" => d.(collaborators := value)
    case _ => d
  }

  /** `{...newMilestone, [name]: value}` on the text inputs of the new-milestone form. */
  function SetMilestoneField(d: MilestoneDraft, name: string, value: string): (r: MilestoneDraft)
    ensures name == "title" ==> r == d.(title := value)
    ensures name == "description" ==> r == d.(description := value)
    ensures name == "dueDate" ==> r == d.(dueDate := value)
    ensures name !in {"title", "description", "dueDate"} ==> r == d
  {
    match name
    case "title" => d.(title := value)
    case "description" => d.(description := value)
    case "dueDate" => d.(dueDate := value)
    case _ => d
  }

  /** The latest text typed into an input of either form is the one kept. */
  lemma LastInputWins(d: ProjectDraft, m: MilestoneDraft, name: string, v: string, w: string)
    ensures SetProjectField(SetProjectField(d, name, v), name, w) == SetProjectField(d, name, w)
    ensures SetMilestoneField(SetMilestoneField(m, name, v), name, w) == SetMilestoneField(m, name, w)
  {
  }

  class Section {
    var projects: seq<Project>
    var activeProject: Option<Project>
    var showNewProjectForm: bool
    var newProject: ProjectDraft
    var showNewMilestoneForm: bool
    var newMilestone: MilestoneDraft

    /** The active project is one of the listed projects, and every progress is a percentage. */
    ghost predicate Valid()
      reads this
    {
      (activeProject.Some? ==> activeProject.value in projects)
      && forall i :: 0 <= i < |projects| ==> 0 <= projects[i].progress <= 100
    }

    constructor ()
      ensures Valid() && projects == [] && activeProject.None?
      ensures newProject == EmptyProjectDraft && newMilestone == EmptyMilestoneDraft
    {
      projects := [];
      activeProject := None;
      showNewProjectForm := false;
      newProject := EmptyProjectDraft;
      showNewMilestoneForm := false;
      newMilestone := EmptyMilestoneDraft;
    }

    /** `handleProjectInputChange`: the named input of the new-project form takes the text. */
    method ProjectInputChange(name: string, value: string)
      modifies this
      ensures newProject == SetProjectField(old(newProject), name, value)
      ensures projects == old(projects) && activeProject == old(activeProject) && newMilestone == old(newMilestone)
      ensures showNewProjectForm == old(showNewProjectForm) && showNewMilestoneForm == old(showNewMilestoneForm)
    {
      newProject := SetProjectField(newProject, name, value);
    }

    /** `handleMilestoneInputChange`: the named input of the new-milestone form takes the text. */
    method MilestoneInputChange(name: string, value: string)
      modifies this
      ensures newMilestone == SetMilestoneField(old(newMilestone), name, value)
      ensures projects == old(projects) && activeProject == old(activeProject) && newProject == old(newProject)
      ensures showNewProjectForm == old(showNewProjectForm) && showNewMilestoneForm == old(showNewMilestoneForm)
    {
      newMilestone := SetMilestoneField(newMilestone, name, value);
    }

    /** Clicking a project in the list makes it the active project. */
    method SelectProject(k: nat)
      requires Valid() && k < |projects|
      modifies this
      ensures Valid() && activeProject == Some(old(projects)[k])
      ensures projects == old(projects) && newProject == old(newProject) && newMilestone == old(newMilestone)
      ensures showNewProjectForm == old(showNewProjectForm) && showNewMilestoneForm == old(showNewMilestoneForm)
    {
      activeProject := Some(projects[k]);
    }

    /** `handleProjectSubmit`: a blank title is refused; otherwise the project is appended and made active. */
    method ProjectSubmit(now: int)
      requires Valid()
      modifies this
      ensures Valid()
      ensures JsText.Trim(old(newProject.title)) == "" ==>
        projects == old(projects) && activeProject == old(activeProject) && newProject == old(newProject)
        && showNewProjectForm == old(showNewProjectForm)
      ensures JsText.Trim(old(newProject.title)) != "" ==>
        projects == old(projects) + [NewProject(old(newProject), now)]
        && activeProject == Some(NewProject(old(newProject), now))
        && newProject == EmptyProjectDraft && !showNewProjectForm
      ensures newMilestone == old(newMilestone) && showNewMilestoneForm == old(showNewMilestoneForm)
    {
      if JsText.Trim(newProject.title) == "" {
        return;
      }
      var p := NewProject(newProject, now);
      var before := projects;
      projects := before + [p];
      forall i | 0 <= i < |projects|
        ensures 0 <= projects[i].progress <= 100
      {
        if i < |before| {
          assert projects[i] == before[i];
        }
      }
      assert projects[|before|] == p;
      activeProject := Some(p);
      newProject := EmptyProjectDraft;
      showNewProjectForm := false;
    }

    /** Replace every entry with the active project's id by `updated`, which becomes the active project. */
    method ReplaceActive(updated: Project)
      requires Valid() && activeProject.Some? && updated.id == activeProject.value.id
      requires 0 <= updated.progress <= 100
      modifies this
      ensures Valid()
      ensures projects == Lists.MapWhere(old(projects), ProjectIs(updated.id), Becomes(updated))
      ensures activeProject == Some(updated)
      ensures newProject == old(newProject) && showNewProjectForm == old(showNewProjectForm)
      ensures newMilestone == old(newMilestone) && showNewMilestoneForm == old(showNewMilestoneForm)
    {
      var k :| 0 <= k < |projects| && projects[k] == activeProject.value;
      projects := Lists.MapWhere(projects, ProjectIs(updated.id), Becomes(updated));
      assert projects[k] == updated;
      activeProject := Some(updated);
    }

    /**
     * `handleMilestoneSubmit`: a blank title is refused; otherwise the
     * milestone is appended to the active project and its progress
     * recomputed. With no active project the handler throws before any
     * state changes.
     */
    method MilestoneSubmit(now: int)
      requires Valid()
      modifies this
      ensures Valid()
      ensures JsText.Trim(old(newMilestone.title)) == "" || old(activeProject).None? ==>
        projects == old(projects) && activeProject == old(activeProject) && newMilestone == old(newMilestone)
        && showNewMilestoneForm == old(showNewMilestoneForm)
      ensures JsText.Trim(old(newMilestone.title)) != "" && old(activeProject).Some? ==>
        var a := old(activeProject).value;
        var updated := AddMilestone(a, old(newMilestone), now);
        projects == Lists.MapWhere(old(projects), ProjectIs(a.id), Becomes(updated))
        && activeProject == Some(updated) && newMilestone == EmptyMilestoneDraft && !showNewMilestoneForm
      ensures newProject == old(newProject) && showNewProjectForm == old(showNewProjectForm)
    {
      if JsText.Trim(newMilestone.title) == "" || activeProject.None? {
        return;
      }
      ReplaceActive(AddMilestone(activeProject.value, newMilestone, now));
      newMilestone := EmptyMilestoneDraft;
      showNewMilestoneForm := false;
    }

    /** `toggleMilestoneComplete`: flips the milestones with the id in the active project and recomputes progress. */
    method ToggleMilestoneComplete(milestoneId: string)
      requires Valid()
      modifies this
      ensures Valid()
      ensures old(activeProject).None? ==> projects == old(projects) && activeProject.None?
      ensures old(activeProject).Some? ==>
        var a := old(activeProject).value;
        var updated := WithMilestones(a, Lists.MapWhere(a.milestones, MilestoneIs(milestoneId), FlipCompleted));
        projects == Lists.MapWhere(old(projects), ProjectIs(a.id), Becomes(updated)) && activeProject == Some(updated)
      ensures newProject == old(newProject) && showNewProjectForm == old(showNewProjectForm)
      ensures newMilestone == old(newMilestone) && showNewMilestoneForm == old(showNewMilestoneForm)
    {
      if activeProject.None? {
        return;
      }
      var a := activeProject.value;
      ReplaceActive(WithMilestones(a, Lists.MapWhere(a.milestones, MilestoneIs(milestoneId), FlipCompleted)));
    }

    /** `deleteMilestone`, once confirmed: drops the milestones with the id and recomputes progress. */
    method DeleteMilestone(milestoneId: string, confirmed: bool)
      requires Valid()
      modifies this
      ensures Valid()
      ensures !confirmed || old(activeProject).None? ==> projects == old(projects) && activeProject == old(activeProject)
      ensures confirmed && old(activeProject).Some? ==>
        var a := old(activeProject).value;
        var updated := WithMilestones(a, Lists.Filter(a.milestones, MilestoneIsNot(milestoneId)));
        projects == Lists.MapWhere(old(projects), ProjectIs(a.id), Becomes(updated)) && activeProject == Some(updated)
      ensures newProject == old(newProject) && showNewProjectForm == old(showNewProjectForm)
      ensures newMilestone == old(newMilestone) && showNewMilestoneForm == old(showNewMilestoneForm)
    {
      if !confirmed || activeProject.None? {
        return;
      }
      var a := activeProject.value;
      ReplaceActive(WithMilestones(a, Lists.Filter(a.milestones, MilestoneIsNot(milestoneId))));
    }

    /**
     * `deleteProject`, once confirmed: drops the projects with the id; if the
     * active project was deleted, the first remaining project (or none)
     * becomes active.
     */
    method DeleteProject(projectId: string, confirmed: bool)
      requires Valid()
      modifies this
      ensures Valid()
      ensures !confirmed ==> projects == old(projects) && activeProject == old(activeProject)
      ensures confirmed ==> projects == Lists.Filter(old(projects), ProjectIsNot(projectId))
      ensures confirmed && old(activeProject).Some? && old(activeProject).value.id == projectId ==>
        activeProject == if projects == [] then None else Some(projects[0])
      ensures confirmed && !(old(activeProject).Some? && old(activeProject).value.id == projectId) ==>
        activeProject == old(activeProject)
      ensures newProject == old(newProject) && showNewProjectForm == old(showNewProjectForm)
      ensures newMilestone == old(newMilestone) && showNewMilestoneForm == old(showNewMilestoneForm)
    {
      if !confirmed {
        return;
      }
      var remaining := Lists.Filter(projects, ProjectIsNot(projectId));
      RemainingProjects(projects, projectId);
      if activeProject.Some? && activeProject.value.id == projectId {
        activeProject := if remaining == [] then None else Some(remaining[0]);
      }
      projects := remaining;
    }
  }

  /** The projects left after a delete keep their percentages, and every other project stays. */
  lemma RemainingProjects(ps: seq<Project>, id: string)
    requires forall i :: 0 <= i < |ps| ==> 0 <= ps[i].progress <= 100
    ensures var r := Lists.Filter(ps, ProjectIsNot(id));
      (forall i :: 0 <= i < |r| ==> 0 <= r[i].progress <= 100)
      && forall x :: x in ps && x.id != id ==> x in r
  {
    var r := Lists.Filter(ps, ProjectIsNot(id));
    Lists.FilterMultiset(ps, ProjectIsNot(id));
    forall i | 0 <= i < |r|
      ensures 0 <= r[i].progress <= 100
    {
      assert r[i] in multiset(r);
      var k :| 0 <= k < |ps| && ps[k] == r[i];
    }
    forall x | x in ps && x.id != id
      ensures x in r
    {
      var k :| 0 <= k < |ps| && ps[k] == x;
      assert ProjectIsNot(id)(ps[k]);
    }
  }

  /** A milestone change writes the updated project over the active project's entry only: other projects are untouched. */
  lemma MilestoneChangeTouchesActiveOnly(projects: seq<Project>, updated: Project, j: int)
    requires 0 <= j < |projects| && projects[j].id != updated.id
    ensures Lists.MapWhere(projects, ProjectIs(updated.id), Becomes(updated))[j] == projects[j]
  {
    Lists.MapWhereFrame(projects, ProjectIs(updated.id), Becomes(updated), j);
  }
}
