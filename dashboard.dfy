/**
 * The project dashboard of the web UI: the hard-coded projects, the task
 * list built from them, the search-and-filter over it and the counts on the
 * stat tiles.
 */
module Dashboard {
  import opened Wrappers
  import opened Seqs
  import opened Text

  datatype TaskStatus = Todo | InProgress | Done
  datatype Priority = Low | Medium | High
  datatype ProjectStatus = Active | Paused | Completed

  datatype Task = Task(id: string, name: string, description: string, status: TaskStatus,
                       priority: Priority, progress: int, projectId: string)

  datatype Project = Project(id: string, name: string, status: ProjectStatus, tasks: seq<Task>,
                             totalTasks: int, completedTasks: int)

  /** A filter select: `'all'` or one value. */
  datatype Choice<T> = All | Only(value: T)

  predicate Chosen<T(==)>(choice: Choice<T>, v: T) {
    choice.All? || choice.value == v
  }

  const Projects: seq<Project> := [
    Project("1", "Article-to-Flashcards", Active, [
      Task("1-1", "Create Project Repository Structure", "Set up folder structure, dependencies, and configuration files", Done, High, 100, "1"),
      Task("1-2", "Write README.md", "Project overview, features, and getting started guide", Done, High, 100, "1"),
      Task("1-3", "Document Architecture", "ARCHITECTURE.md with system overview, components, data models", Done, High, 100, "1"),
      Task("1-4", "Document Technical Decisions", "TECHNICAL-DECISIONS.md with rationale for each choice", Done, Medium, 100, "1"),
      Task("1-5", "Set Up Environment Variables", ".env.example with all required API keys and configs", Done, Medium, 100, "1"),
      Task("1-6", "Build Project Dashboard UI", "Main page showing task list, progress, and metrics", InProgress, High, 30, "1"),
      Task("1-7", "Implement Task Filtering & Search", "Filter by status, priority, search by name", Todo, Medium, 0, "1"),
      Task("1-8", "Add Progress Visualization", "Progress bars, circular charts, completion rates", Todo, Medium, 0, "1"),
      Task("1-9", "Deploy to Staging", "Deploy to Vercel staging environment", Todo, High, 0, "1"),
      Task("1-10", "Create Real Icon Files", "Design and create professional PNG icons", Todo, Medium, 0, "1"),
      Task("1-11", "Test Extension Thoroughly", "Test on real websites, verify API key handling", Todo, High, 0, "1"),
      Task("1-12", "Submit to Chrome Web Store", "Prepare for submission and launch", Todo, High, 0, "1")
    ], 12, 5),
    Project("2", "X Strategy", Active, [
      Task("2-1", "Morning Session (10am IST)", "Engage with 10 posts + post 1 trending topic", Done, High, 100, "2"),
      Task("2-2", "Afternoon Session (3pm IST)", "Engage with 10 posts on trending tech topics", InProgress, High, 50, "2"),
      Task("2-3", "Evening Session (6pm IST)", "Engage with 10 posts + post 1 trending topic", Todo, High, 0, "2"),
      Task("2-4", "Night Session (9pm IST)", "Engage with 10 posts + growth insights", Todo, Medium, 0, "2")
    ], 4, 1),
    Project("3", "Personal Blog", Paused, [
      Task("3-1", "Define Content Strategy", "Identify niche, topics, and posting schedule", Done, High, 100, "3"),
      Task("3-2", "Set Up WordPress/Ghost", "Choose platform and configure hosting", Done, High, 100, "3"),
      Task("3-3", "Design Theme", "Create custom theme or choose template", Todo, Medium, 0, "3"),
      Task("3-4", "Write First 10 Posts", "Prepare content for launch", Todo, High, 0, "3"),
      Task("3-5", "Setup SEO", "Configure sitemap, meta tags, and keywords", Todo, Medium, 0, "3")
    ], 5, 2)
  ]

  function ProjectTasks(p: Project): seq<Task> {
    p.tasks
  }

  /** `getAllTasks`: `projects.flatMap(project => project.tasks)`. */
  function AllTasks(projects: seq<Project>): seq<Task> {
    Flatten(Map(ProjectTasks, projects))
  }

  /** A task is listed exactly when some project holds it. */
  lemma AllTasksMembers(projects: seq<Project>, t: Task)
    ensures t in AllTasks(projects) <==> exists i :: 0 <= i < |projects| && t in projects[i].tasks
  {
    FlattenMembership(Map(ProjectTasks, projects), t);
  }

  /** The tasks come project by project, in project order. */
  lemma AllTasksSnoc(projects: seq<Project>, p: Project)
    ensures AllTasks(projects + [p]) == AllTasks(projects) + p.tasks
  {
    assert Map(ProjectTasks, projects + [p]) == Map(ProjectTasks, projects) + [p.tasks];
    FlattenConcat(Map(ProjectTasks, projects), [p.tasks]);
    assert Flatten([p.tasks]) == p.tasks;
  }

  /** The three tests of `filteredTasks`. */
  predicate TaskMatches(t: Task, query: string, status: Choice<TaskStatus>, priority: Choice<Priority>) {
    && (Contains(Lower(t.name), Lower(query)) || Contains(Lower(t.description), Lower(query)))
    && Chosen(status, t.status)
    && Chosen(priority, t.priority)
  }

  function TaskFilter(query: string, status: Choice<TaskStatus>, priority: Choice<Priority>): Task -> bool {
    t => TaskMatches(t, query, status, priority)
  }

  /** `filteredTasks`, as written: the filter runs over every project's tasks. */
  function FilteredTasks(projects: seq<Project>, query: string, status: Choice<TaskStatus>, priority: Choice<Priority>)
    : seq<Task>
  {
    Filter(TaskFilter(query, status, priority), AllTasks(projects))
  }

  /** `filteredTasks` keeps exactly the tasks that pass all three tests. */
  lemma FilteredTasksMembers(projects: seq<Project>, query: string, status: Choice<TaskStatus>,
                             priority: Choice<Priority>, t: Task)
    ensures t in FilteredTasks(projects, query, status, priority) <==>
      t in AllTasks(projects) && TaskMatches(t, query, status, priority)
  {
    var all := AllTasks(projects);
    if t in all && TaskMatches(t, query, status, priority) {
      var k :| 0 <= k < |all| && all[k] == t;
      assert TaskFilter(query, status, priority)(all[k]);
    }
  }

  /** Tasks keep project order: one more project adds its passing tasks at the end. */
  lemma FilteredTasksSnoc(projects: seq<Project>, p: Project, query: string, status: Choice<TaskStatus>,
                          priority: Choice<Priority>)
    ensures FilteredTasks(projects + [p], query, status, priority) ==
      FilteredTasks(projects, query, status, priority) + Filter(TaskFilter(query, status, priority), p.tasks)
  {
    AllTasksSnoc(projects, p);
    FilterConcat(TaskFilter(query, status, priority), AllTasks(projects), p.tasks);
  }

  /** An empty search with both selects on `'all'` shows every task. */
  lemma FilteredTasksUnfiltered(projects: seq<Project>)
    ensures FilteredTasks(projects, "", All, All) == AllTasks(projects)
  {
    forall t | t in AllTasks(projects) ensures TaskFilter("", All, All)(t) {
      ContainsEmpty(Lower(t.name));
      assert Lower("") == "";
    }
    FilterAll(TaskFilter("", All, All), AllTasks(projects));
  }

  /** Every task names the project that holds it. */
  predicate TasksCarryProjectIds(projects: seq<Project>) {
    forall i, j :: 0 <= i < |projects| && 0 <= j < |projects[i].tasks| ==> projects[i].tasks[j].projectId == projects[i].id
  }

  /**
   * With project 2 selected, the list shown under "filtered tasks for
   * selected project" still holds the tasks of project 1: the selection
   * does not narrow it.
   */
  lemma SelectionDoesNotNarrow()
    ensures Projects[0].tasks[0] in FilteredTasks(Projects, "", All, All)
    ensures Projects[0].tasks[0].projectId != "2"
    ensures Projects[0].tasks[0] !in FilteredTasksOfSelection(Projects, "2", "", All, All)
  {
    FilteredTasksUnfiltered(Projects);
    AllTasksMembers(Projects, Projects[0].tasks[0]);
    ProjectIdsAgree();
    FilteredTasksOfSelectionNarrows(Projects, "2", "", All, All);
  }

  /** `selectedProjectData`: every project for `'all'`, else the projects with that id. */
  function SelectedProjectData(projects: seq<Project>, selected: string): seq<Project> {
    if selected == "all" then projects else Filter((p: Project) => p.id == selected, projects)
  }

  /** The list the selected-project view evidently intends: the filter over the selected projects' tasks. */
  function FilteredTasksOfSelection(projects: seq<Project>, selected: string, query: string,
                                    status: Choice<TaskStatus>, priority: Choice<Priority>): seq<Task>
  {
    FilteredTasks(SelectedProjectData(projects, selected), query, status, priority)
  }

  /**
   * With a project selected, the list holds exactly the tasks of that
   * project that pass the filter; with `'all'` selected, it is the one
   * `filteredTasks` gives.
   */
  lemma FilteredTasksOfSelectionNarrows(projects: seq<Project>, selected: string, query: string,
                                        status: Choice<TaskStatus>, priority: Choice<Priority>)
    requires TasksCarryProjectIds(projects)
    ensures selected != "all" ==>
      forall t :: t in FilteredTasksOfSelection(projects, selected, query, status, priority) ==> t.projectId == selected
    ensures selected != "all" ==>
      forall t :: t in FilteredTasksOfSelection(projects, selected, query, status, priority) <==>
        t in AllTasks(projects) && t.projectId == selected && TaskMatches(t, query, status, priority)
    ensures selected == "all" ==>
      FilteredTasksOfSelection(projects, selected, query, status, priority) == FilteredTasks(projects, query, status, priority)
  {
    if selected != "all" {
      var chosen := SelectedProjectData(projects, selected);
      forall t | t in FilteredTasksOfSelection(projects, selected, query, status, priority)
        ensures t in AllTasks(projects) && t.projectId == selected && TaskMatches(t, query, status, priority)
      {
        FilteredTasksMembers(chosen, query, status, priority, t);
        AllTasksMembers(chosen, t);
        var i :| 0 <= i < |chosen| && t in chosen[i].tasks;
        var j :| 0 <= j < |chosen[i].tasks| && chosen[i].tasks[j] == t;
        var p :| 0 <= p < |projects| && projects[p] == chosen[i];
        assert projects[p].tasks[j].projectId == projects[p].id;
        AllTasksMembers(projects, t);
      }
      forall t | t in AllTasks(projects) && t.projectId == selected && TaskMatches(t, query, status, priority)
        ensures t in FilteredTasksOfSelection(projects, selected, query, status, priority)
      {
        AllTasksMembers(projects, t);
        var i :| 0 <= i < |projects| && t in projects[i].tasks;
        var j :| 0 <= j < |projects[i].tasks| && projects[i].tasks[j] == t;
        assert projects[i].tasks[j].projectId == projects[i].id;
        assert ((p: Project) => p.id == selected)(projects[i]);
        assert projects[i] in chosen;
        AllTasksMembers(chosen, t);
        FilteredTasksMembers(chosen, query, status, priority, t);
      }
    }
  }

  predicate IsDoneTask(t: Task) {
    t.status == Done
  }

  predicate IsActiveProject(p: Project) {
    p.status == Active
  }

  /** Index `i` holds the first project with this id. */
  predicate FirstWithId(projects: seq<Project>, id: string, i: int) {
    0 <= i < |projects| && projects[i].id == id && forall k :: 0 <= k < i ==> projects[k].id != id
  }

  /** `projects.find(p => p.id === id)`: the first project with that id, if any. */
  function FindProject(projects: seq<Project>, id: string): (r: Option<Project>)
    ensures r.Some? ==> exists i :: FirstWithId(projects, id, i) && projects[i] == r.value
    ensures r.Some? ==> r.value in projects && r.value.id == id
    ensures r.None? ==> forall i :: 0 <= i < |projects| ==> projects[i].id != id
  {
    if projects == [] then None
    else if projects[0].id == id then
      assert FirstWithId(projects, id, 0);
      Some(projects[0])
    else
      var r := FindProject(projects[1..], id);
      if r.Some? then
        var i :| FirstWithId(projects[1..], id, i) && projects[1..][i] == r.value;
        assert FirstWithId(projects, id, i + 1) by {
          forall k | 0 <= k < i + 1 ensures projects[k].id != id {
            if k > 0 {
              assert projects[k] == projects[1..][k - 1];
            }
          }
        }
        r
      else
        r
  }

  /** In every project's tasks, the task's own project can be looked up by `projectId`. */
  lemma ProjectLookupSucceeds(projects: seq<Project>, t: Task)
    requires TasksCarryProjectIds(projects)
    requires t in AllTasks(projects)
    ensures FindProject(projects, t.projectId).Some?
  {
    AllTasksMembers(projects, t);
    var i :| 0 <= i < |projects| && t in projects[i].tasks;
    var j :| 0 <= j < |projects[i].tasks| && projects[i].tasks[j] == t;
    assert projects[i].tasks[j].projectId == projects[i].id;
  }

  /** A project whose stored totals agree with its task list. */
  predicate CountsAgree(p: Project) {
    p.totalTasks == |p.tasks| && p.completedTasks == |Filter(IsDoneTask, p.tasks)|
  }

  lemma ProjectOneCounts()
    ensures CountsAgree(Projects[0])
  {
  }

  lemma ProjectTwoCounts()
    ensures CountsAgree(Projects[1])
  {
  }

  lemma ProjectThreeCounts()
    ensures CountsAgree(Projects[2])
  {
  }

  lemma ProjectIdsAgree()
    ensures TasksCarryProjectIds(Projects)
  {
  }

  /**
   * The constant data: each task names the project that holds it, so the
   * lookup of the task's project always succeeds, and each project's
   * `totalTasks` and `completedTasks` (12/5, 4/1, 5/2) match its task list.
   */
  lemma ProjectsConsistent()
    ensures TasksCarryProjectIds(Projects)
    ensures forall i :: 0 <= i < |Projects| ==> CountsAgree(Projects[i])
    ensures forall t :: t in AllTasks(Projects) ==> FindProject(Projects, t.projectId).Some?
  {
    assert |Projects| == 3;
    forall i | 0 <= i < |Projects| ensures CountsAgree(Projects[i]) {
      if i == 0 {
        ProjectOneCounts();
      } else if i == 1 {
        ProjectTwoCounts();
      } else {
        ProjectThreeCounts();
      }
    }
    ProjectIdsAgree();
    forall t | t in AllTasks(Projects) ensures FindProject(Projects, t.projectId).Some? {
      ProjectLookupSucceeds(Projects, t);
    }
  }

  lemma ActiveProjects()
    ensures |Filter(IsActiveProject, Projects)| == 2
  {
  }

  lemma AllTasksOfProjects()
    ensures AllTasks(Projects) == Projects[0].tasks + Projects[1].tasks + Projects[2].tasks
  {
    var p0, p1, p2 := Projects[0], Projects[1], Projects[2];
    assert Projects == [p0, p1] + [p2];
    AllTasksSnoc([p0, p1], p2);
    assert [p0, p1] == [p0] + [p1];
    AllTasksSnoc([p0], p1);
    assert [p0] == [] + [p0];
    AllTasksSnoc([], p0);
  }

  lemma {:induction false} DoneOfThree(a: seq<Task>, b: seq<Task>, c: seq<Task>)
    ensures |Filter(IsDoneTask, a + b + c)| == |Filter(IsDoneTask, a)| + |Filter(IsDoneTask, b)| + |Filter(IsDoneTask, c)|
  {
    FilterConcat(IsDoneTask, a + b, c);
    FilterConcat(IsDoneTask, a, b);
  }

  lemma TotalTasksTile()
    ensures |AllTasks(Projects)| == 21
  {
    AllTasksOfProjects();
  }

  lemma DoneTasksTile()
    ensures |Filter(IsDoneTask, AllTasks(Projects))| == 8
  {
    AllTasksOfProjects();
    ProjectOneCounts();
    ProjectTwoCounts();
    ProjectThreeCounts();
    DoneOfThree(Projects[0].tasks, Projects[1].tasks, Projects[2].tasks);
  }

  /** The stat tiles: two active projects, eight tasks done, twenty-one in all. */
  lemma DashboardTiles()
    ensures |Filter(IsActiveProject, Projects)| == 2
    ensures |Filter(IsDoneTask, AllTasks(Projects))| == 8
    ensures |AllTasks(Projects)| == 21
  {
    ActiveProjects();
    TotalTasksTile();
    DoneTasksTile();
  }
}
