/**
 * The web projects page: a fixed list of projects, a status filter, the
 * four counters above the list, and a new-project form whose submit only
 * closes it. The page never calls its list setter, so the list is a
 * constant given to the constructor; the canned projects themselves are
 * left out.
 */
module ProjectsPage {
  import opened Shared
  import Lists
  import ProjectSection

  datatype Task = Task(id: int, title: string, completed: bool)

  datatype Project = Project(id: int, title: string, description: string, progress: int, status: string,
                             dueDate: string, tags: seq<string>, tasks: seq<Task>)

  datatype Draft = Draft(title: string, description: string, dueDate: string)

  const EmptyDraft := Draft("", "", "")

  const Completed := "completed"
  const InProgress := "in-progress"

  function HasStatus(status: string): Project -> bool {
    (p: Project) => p.status == status
  }

  /** The filter test: 'completed' and 'in-progress' match the status exactly; 'all' and anything else keep every project. */
  function Keeps(filter: string): Project -> bool {
    (p: Project) =>
      if filter == Completed || filter == InProgress then p.status == filter else true
  }

  /** `filteredProjects`. */
  function FilteredProjects(projects: seq<Project>, filter: string): (r: seq<Project>)
    ensures filter == Completed || filter == InProgress ==> forall i :: 0 <= i < |r| ==> r[i].status == filter
    ensures forall i :: 0 <= i < |r| ==> r[i] in projects
    ensures forall i :: 0 <= i < |projects| && Keeps(filter)(projects[i]) ==> projects[i] in r
    ensures filter != Completed && filter != InProgress ==> r == projects
  {
    var r := Lists.Filter(projects, Keeps(filter));
    Lists.FilterMultiset(projects, Keeps(filter));
    if filter != Completed && filter != InProgress then
      Lists.FilterAllPass(projects, Keeps(filter));
      r
    else
      assert forall i :: 0 <= i < |r| ==> r[i] in multiset(projects);
      r
  }

  /** The 'In Progress' and 'Completed' counters: projects with exactly that status. */
  function StatusCount(projects: seq<Project>, status: string): (n: nat)
    ensures n <= |projects|
    ensures n == 0 <==> forall i :: 0 <= i < |projects| ==> projects[i].status != status
  {
    Lists.Count(projects, HasStatus(status))
  }

  /** Each status tab lists exactly as many projects as its counter shows. */
  lemma {:induction false} TabMatchesCounter(projects: seq<Project>, status: string)
    requires status == Completed || status == InProgress
    ensures |FilteredProjects(projects, status)| == StatusCount(projects, status)
  {
    if projects != [] {
      TabMatchesCounter(projects[1..], status);
    }
  }

  /** No project is counted under both statuses, so the two counters never exceed the total. */
  lemma {:induction false} CountersWithinTotal(projects: seq<Project>)
    ensures StatusCount(projects, InProgress) + StatusCount(projects, Completed) <= |projects|
  {
    if projects != [] {
      CountersWithinTotal(projects[1..]);
    }
  }

  /** `projects.reduce((acc, curr) => acc + curr.progress, 0)`. */
  function SumProgress(projects: seq<Project>): int {
    if projects == [] then 0 else SumProgress(projects[..|projects| - 1]) + projects[|projects| - 1].progress
  }

  /**
   * `Math.round(sum / projects.length)`: the mean rounded to the nearest
   * integer, halves rounding up; with no projects the division is 0 / 0,
   * NaN, shown as "NaN%" (`None`).
   */
  function AverageProgress(projects: seq<Project>): (r: Option<int>)
    ensures r.None? <==> projects == []
    ensures r.Some? ==> var n := |projects|; var sum := SumProgress(projects);
      r.value * (2 * n) <= 2 * sum + n < (r.value + 1) * (2 * n)
  {
    if projects == [] then None
    else
      var n := |projects|;
      var sum := SumProgress(projects);
      var q := (2 * sum + n) / (2 * n);
      assert 2 * sum + n == q * (2 * n) + (2 * sum + n) % (2 * n);
      Some(q)
  }

  /** With every progress a percentage, the sum lies between 0 and 100 per project. */
  lemma {:induction false} SumBounds(projects: seq<Project>)
    requires forall i :: 0 <= i < |projects| ==> 0 <= projects[i].progress <= 100
    ensures 0 <= SumProgress(projects) <= 100 * |projects|
  {
    if projects != [] {
      SumBounds(projects[..|projects| - 1]);
    }
  }

  /** With every progress a percentage, so is the average. */
  lemma AverageIsPercentage(projects: seq<Project>)
    requires projects != []
    requires forall i :: 0 <= i < |projects| ==> 0 <= projects[i].progress <= 100
    ensures 0 <= AverageProgress(projects).value <= 100
  {
    SumBounds(projects);
    var n, sum := |projects|, SumProgress(projects);
    var r := AverageProgress(projects).value;
    if r > 100 {
      ProjectSection.MulMonotone(101, r, 2 * n);
      assert false;
    }
    if r < 0 {
      ProjectSection.MulMonotone(r + 1, 0, 2 * n);
      assert false;
    }
  }

  /** When every project shows the same progress, that is the average. */
  lemma SameProgressAverage(projects: seq<Project>, v: int)
    requires projects != []
    requires forall i :: 0 <= i < |projects| ==> projects[i].progress == v
    ensures AverageProgress(projects) == Some(v)
  {
    var n := |projects|;
    SumSame(projects, v);
    var r := AverageProgress(projects).value;
    assert 2 * SumProgress(projects) + n == v * (2 * n) + n;
    if r > v {
      ProjectSection.MulMonotone(v + 1, r, 2 * n);
      assert false;
    }
    if r < v {
      ProjectSection.MulMonotone(r + 1, v, 2 * n);
      assert false;
    }
  }

  lemma {:induction false} SumSame(projects: seq<Project>, v: int)
    requires forall i :: 0 <= i < |projects| ==> projects[i].progress == v
    ensures SumProgress(projects) == v * |projects|
  {
    if projects != [] {
      var init := projects[..|projects| - 1];
      SumSame(init, v);
      assert v * |projects| == v * |init| + v;
    }
  }

  class ProjectsView {
    const projects: seq<Project>
    var filter: string
    var showNewProjectModal: bool
    var newProject: Draft

    constructor (initial: seq<Project>)
      ensures projects == initial && filter == "all" && !showNewProjectModal && newProject == EmptyDraft
    {
      projects := initial;
      filter := "all";
      showNewProjectModal := false;
      newProject := EmptyDraft;
    }

    method SetFilter(f: string)
      modifies this
      ensures filter == f && showNewProjectModal == old(showNewProjectModal) && newProject == old(newProject)
    {
      filter := f;
    }

    method OpenNewProject()
      modifies this
      ensures showNewProjectModal && filter == old(filter) && newProject == old(newProject)
    {
      showNewProjectModal := true;
    }

    method EditDraft(d: Draft)
      modifies this
      ensures newProject == d && filter == old(filter) && showNewProjectModal == old(showNewProjectModal)
    {
      newProject := d;
    }

    /** `handleAddProject`: the modal closes; the draft is kept and no project is added. */
    method AddProject()
      modifies this
      ensures !showNewProjectModal && newProject == old(newProject) && filter == old(filter)
    {
      showNewProjectModal := false;
    }
  }
}
