/** The Projects page: a Kanban board and a list over an in-memory array of
    projects, a search box, drag-and-drop between status columns and a
    "New Project" form that prepends a project. */
module Projects {
  import opened Wrappers
  import opened Text
  import Lists

  datatype ProjectStatus = Planning | InProgress | OnHold | Completed | Cancelled

  datatype ProjectPriority = Low | Medium | High | Urgent

  datatype Project = Project(
    id: string,
    title: string,
    description: string,
    status: ProjectStatus,
    priority: ProjectPriority,
    client: string,
    startDate: string,
    deadline: string,
    progress: int,
    budget: int,
    team: seq<string>,
    tags: seq<string>)

  /** The create form's `Partial<Project>`: the fields that may be undefined
      and are then defaulted are options; an undefined string is "". */
  datatype ProjectDraft = ProjectDraft(
    title: string,
    description: string,
    client: string,
    status: Option<ProjectStatus>,
    priority: Option<ProjectPriority>,
    startDate: string,
    deadline: string,
    progress: Option<int>,
    budget: Option<int>,
    team: seq<string>,
    tags: seq<string>)

  /** The part of the drag-and-drop `result` the board hands to `handleDragEnd`:
      `droppableId` is the status key of a column, `index` a position inside
      that column. */
  datatype DragSource = DragSource(droppableId: ProjectStatus, index: nat)

  datatype DragResult = DragResult(source: DragSource, destination: Option<DragSource>)

  const InitialProjects: seq<Project> := [
    Project("1", "Website Redesign", "Complete redesign of the company website with modern UI/UX",
            InProgress, High, "TechCorp Solutions", "2024-01-01", "2024-02-15", 65, 15000,
            ["John Doe", "Jane Smith"], ["Web Design", "UI/UX"]),
    Project("2", "Mobile App Development", "iOS and Android app for e-commerce platform",
            Planning, Urgent, "E-commerce Plus", "2024-01-15", "2024-04-30", 15, 25000,
            ["Mike Chen", "Sarah Johnson"], ["Mobile", "E-commerce"]),
    Project("3", "Marketing Campaign", "Digital marketing campaign for product launch",
            Completed, Medium, "Marketing Masters", "2023-12-01", "2024-01-31", 100, 8000,
            ["Emma Rodriguez"], ["Marketing", "Digital"]),
    Project("4", "Database Migration", "Migrate legacy database to cloud infrastructure",
            OnHold, Low, "Consulting Group", "2024-01-10", "2024-03-15", 30, 12000,
            ["David Wilson"], ["Database", "Cloud"]),
    Project("5", "Brand Identity Design", "Create new brand identity and guidelines",
            InProgress, Medium, "Design Studio Pro", "2024-01-05", "2024-02-28", 45, 6000,
            ["Lisa Thompson"], ["Branding", "Design"])
  ]

  /** The form's initial and reset value; `today` stands for the clock's date. */
  function BlankDraft(today: string): ProjectDraft {
    ProjectDraft("", "", "", Some(Planning), Some(Medium), today, today, Some(0), Some(0), [], [])
  }

  // ---------------------------------------------------------------- search

  predicate SearchMatches(p: Project, term: string) {
    Includes(p.title, term) || Includes(p.client, term) || Includes(p.description, term)
  }

  function Matcher(term: string): Project -> bool {
    (p: Project) => SearchMatches(p, term)
  }

  lemma EmptySearchKeepsAll(ps: seq<Project>, term: string)
    ensures term == "" ==> Lists.Filter(ps, Matcher(term)) == ps
  {
    if term == "" {
      forall i | 0 <= i < |ps| ensures Matcher(term)(ps[i]) {
        IncludesEmpty(ps[i].title);
      }
      Lists.FilterKeepsAll(ps, Matcher(term));
    }
  }

  /** `filteredProjects`: the projects whose title, client or description
      contains the term, ignoring case. */
  function FilterProjects(ps: seq<Project>, term: string): (r: seq<Project>)
    ensures forall i :: 0 <= i < |r| ==> r[i] in ps && SearchMatches(r[i], term)
    ensures forall i :: 0 <= i < |ps| && SearchMatches(ps[i], term) ==> ps[i] in r
    ensures Lists.IsSubsequence(r, ps)
    ensures forall p :: multiset(r)[p] == if SearchMatches(p, term) then multiset(ps)[p] else 0
    ensures term == "" ==> r == ps
  {
    var keep := Matcher(term);
    Lists.FilterIsSubsequence(ps, keep);
    Lists.FilterCounts(ps, keep);
    EmptySearchKeepsAll(ps, term);
    assert forall p :: keep(p) == SearchMatches(p, term);
    Lists.Filter(ps, keep)
  }

  // -------------------------------------------------------------- grouping

  function HasStatus(k: ProjectStatus): Project -> bool {
    (p: Project) => p.status == k
  }

  /** `groupedProjects[status] ?? []` */
  function Bucket(g: map<ProjectStatus, seq<Project>>, k: ProjectStatus): seq<Project> {
    if k in g then g[k] else []
  }

  lemma {:induction false} FilterSnoc(ps: seq<Project>, k: ProjectStatus)
    requires ps != []
    ensures Lists.Filter(ps, HasStatus(k))
         == Lists.Filter(ps[..|ps| - 1], HasStatus(k))
            + (if ps[|ps| - 1].status == k then [ps[|ps| - 1]] else [])
  {
    var n := |ps|;
    assert ps == ps[..n - 1] + [ps[n - 1]];
    Lists.FilterConcat(ps[..n - 1], [ps[n - 1]], HasStatus(k));
    Lists.FilterCons(ps[n - 1], [], HasStatus(k));
    assert [ps[n - 1]] + [] == [ps[n - 1]];
  }

  /** The `reduce` that builds `groupedProjects`: each project is pushed onto
      the bucket of its status, creating the bucket on first use. */
  function GroupByStatus(ps: seq<Project>): (g: map<ProjectStatus, seq<Project>>)
    ensures forall k :: k in g ==> g[k] != []
    ensures forall k :: Bucket(g, k) == Lists.Filter(ps, HasStatus(k))
    decreases |ps|
  {
    if ps == [] then map[]
    else
      var acc := GroupByStatus(ps[..|ps| - 1]);
      var p := ps[|ps| - 1];
      var g := acc[p.status := Bucket(acc, p.status) + [p]];
      assert forall k :: Bucket(g, k) == Lists.Filter(ps, HasStatus(k)) by {
        forall k ensures Bucket(g, k) == Lists.Filter(ps, HasStatus(k)) {
          FilterSnoc(ps, k);
        }
      }
      g
  }

  /** A column exists in `groupedProjects` exactly when some project has its status. */
  lemma GroupKeys(ps: seq<Project>, k: ProjectStatus)
    ensures k in GroupByStatus(ps) <==> exists i :: 0 <= i < |ps| && ps[i].status == k
  {
    var f := Lists.Filter(ps, HasStatus(k));
    if exists i :: 0 <= i < |ps| && ps[i].status == k {
      var i :| 0 <= i < |ps| && ps[i].status == k;
      assert HasStatus(k)(ps[i]);
      assert ps[i] in f;
    }
    if k in GroupByStatus(ps) {
      assert f != [] && f[0] in ps;
      var i :| 0 <= i < |ps| && ps[i] == f[0];
    }
  }

  lemma {:induction false} StatusCountsSum(ps: seq<Project>)
    ensures |Lists.Filter(ps, HasStatus(Planning))| + |Lists.Filter(ps, HasStatus(InProgress))|
          + |Lists.Filter(ps, HasStatus(OnHold))| + |Lists.Filter(ps, HasStatus(Completed))|
          + |Lists.Filter(ps, HasStatus(Cancelled))| == |ps|
  {
    if ps != [] {
      StatusCountsSum(ps[1..]);
    }
  }

  /** Every grouped project sits in exactly one of the five columns, so the
      column counts add up to the number of projects grouped. */
  lemma BucketSizesSum(ps: seq<Project>)
    ensures var g := GroupByStatus(ps);
            |Bucket(g, Planning)| + |Bucket(g, InProgress)| + |Bucket(g, OnHold)|
            + |Bucket(g, Completed)| + |Bucket(g, Cancelled)| == |ps|
  {
    StatusCountsSum(ps);
  }

  /** The cards of column `col` as the board shows them for search `term`. */
  function Column(ps: seq<Project>, term: string, col: ProjectStatus): seq<Project> {
    Bucket(GroupByStatus(FilterProjects(ps, term)), col)
  }

  // ----------------------------------------------------------- drag and drop

  function Ids(ps: seq<Project>): (ids: seq<string>)
    ensures |ids| == |ps| && forall i :: 0 <= i < |ps| ==> ids[i] == ps[i].id
  {
    seq(|ps|, i requires 0 <= i < |ps| => ps[i].id)
  }

  /** Where `splice(to, 0, moved)` puts the card in the list that has one
      element less: at `to`, or at the end when `to` is past it. */
  function Landing(n: nat, to: nat): nat
    requires n > 0
  {
    if to < n - 1 then to else n - 1
  }

  lemma IdsOfReinsert(ps: seq<Project>, from: nat, at: nat, moved: Project)
    requires from < |ps| && at <= |ps| - 1 && moved.id == ps[from].id
    ensures Ids(Lists.InsertAt(Lists.RemoveAt(ps, from), at, moved))
         == Lists.InsertAt(Lists.RemoveAt(Ids(ps), from), at, Ids(ps)[from])
  {
  }

  /** The array effect of `handleDragEnd` once a destination exists: the
      project at `from` is cut out, its status set to the destination column,
      and it is spliced back in at `to`; both are indices into the whole array. */
  function Reinsert(ps: seq<Project>, from: nat, to: nat, column: ProjectStatus): (r: seq<Project>)
    requires from < |ps|
    ensures |r| == |ps|
    ensures r[Landing(|ps|, to)] == ps[from].(status := column)
    ensures Lists.RemoveAt(r, Landing(|ps|, to)) == Lists.RemoveAt(ps, from)
    ensures multiset(Ids(r)) == multiset(Ids(ps))
  {
    var moved := ps[from].(status := column);
    var at := Landing(|ps|, to);
    Lists.RemoveInserted(Lists.RemoveAt(ps, from), at, moved);
    IdsOfReinsert(ps, from, at, moved);
    Lists.ReinsertPermutes(Ids(ps), from, at);
    Lists.InsertAt(Lists.RemoveAt(ps, from), at, moved)
  }

  // ------------------------------------------------------------------ create

  predicate CanCreate(d: ProjectDraft) {
    d.title != "" && d.client != ""
  }

  function NewProject(d: ProjectDraft, id: string, today: string): Project {
    Project(id, d.title, d.description, d.status.GetOr(Planning), d.priority.GetOr(Medium),
            d.client,
            if d.startDate != "" then d.startDate else today,
            if d.deadline != "" then d.deadline else today,
            d.progress.GetOr(0), d.budget.GetOr(0), [], [])
  }

  /** The project list after "Create Project" with id `id` (`String(Date.now())`). */
  function SubmitProject(ps: seq<Project>, d: ProjectDraft, id: string, today: string): (r: seq<Project>)
    ensures !CanCreate(d) ==> r == ps
    ensures CanCreate(d) ==>
      && |r| == |ps| + 1 && r[1..] == ps
      && r[0].id == id && r[0].title == d.title && r[0].client == d.client
      && r[0].description == d.description
      && r[0].status == (if d.status.Some? then d.status.value else Planning)
      && r[0].priority == (if d.priority.Some? then d.priority.value else Medium)
      && r[0].progress == (if d.progress.Some? then d.progress.value else 0)
      && r[0].budget == (if d.budget.Some? then d.budget.value else 0)
      && r[0].startDate == (if d.startDate != "" then d.startDate else today)
      && r[0].deadline == (if d.deadline != "" then d.deadline else today)
      && r[0].team == [] && r[0].tags == []
  {
    if CanCreate(d) then [NewProject(d, id, today)] + ps else ps
  }

  /** After a create, the visible list is the new project (when it matches
      the search) in front of the list that was visible before. */
  lemma SubmitThenFilter(ps: seq<Project>, d: ProjectDraft, id: string, today: string, term: string)
    requires CanCreate(d)
    ensures var p := NewProject(d, id, today);
            FilterProjects(SubmitProject(ps, d, id, today), term)
            == (if SearchMatches(p, term) then [p] else []) + FilterProjects(ps, term)
  {
    Lists.FilterCons(NewProject(d, id, today), ps, Matcher(term));
  }

  // --------------------------------------------------------------- the page

  class ProjectsPage {
    var projects: seq<Project>
    var searchTerm: string
    var isCreateOpen: bool
    var newProject: ProjectDraft

    constructor (today: string)
      ensures projects == InitialProjects && searchTerm == ""
      ensures !isCreateOpen && newProject == BlankDraft(today)
    {
      projects := InitialProjects;
      searchTerm := "";
      isCreateOpen := false;
      newProject := BlankDraft(today);
    }

    /** What the list view renders. */
    function FilteredProjects(): seq<Project>
      reads this
    {
      FilterProjects(projects, searchTerm)
    }

    method SetSearchTerm(term: string)
      modifies this
      ensures searchTerm == term
      ensures projects == old(projects) && isCreateOpen == old(isCreateOpen) && newProject == old(newProject)
    {
      searchTerm := term;
    }

    /** The form's field-by-field `setNewProject({ ...newProject, f: v })`. */
    method EditDraft(d: ProjectDraft)
      modifies this
      ensures newProject == d
      ensures projects == old(projects) && searchTerm == old(searchTerm) && isCreateOpen == old(isCreateOpen)
    {
      newProject := d;
    }

    method OpenCreate()
      modifies this
      ensures isCreateOpen
      ensures projects == old(projects) && searchTerm == old(searchTerm) && newProject == old(newProject)
    {
      isCreateOpen := true;
    }

    /** The Cancel button and the modal backdrop: `setIsCreateOpen(false)`. */
    method CloseCreate()
      modifies this
      ensures !isCreateOpen
      ensures projects == old(projects) && searchTerm == old(searchTerm) && newProject == old(newProject)
    {
      isCreateOpen := false;
    }

    /** `handleDragEnd`. The board passes indices relative to a column; they
        are applied to the whole `projects` array. A source index past the end
        makes `movedProject` undefined and the handler throws before
        `setProjects`, so nothing changes. */
    method HandleDragEnd(result: DragResult)
      modifies this
      ensures result.destination.None? ==> projects == old(projects)
      ensures result.source.index >= |old(projects)| ==> projects == old(projects)
      ensures result.destination.Some? && result.source.index < |old(projects)| ==>
        projects == Reinsert(old(projects), result.source.index,
                             result.destination.value.index, result.destination.value.droppableId)
      ensures searchTerm == old(searchTerm) && isCreateOpen == old(isCreateOpen) && newProject == old(newProject)
    {
      if result.destination.None? {
        return;
      }
      if result.source.index >= |projects| {
        return;
      }
      var destination := result.destination.value;
      projects := Reinsert(projects, result.source.index, destination.index, destination.droppableId);
    }

    /** The "Create Project" button; `now` is `String(Date.now())` and `today`
        the clock's date. */
    method Create(now: string, today: string)
      modifies this
      ensures projects == SubmitProject(old(projects), old(newProject), now, today)
      ensures CanCreate(old(newProject)) ==> !isCreateOpen && newProject == BlankDraft(today)
      ensures !CanCreate(old(newProject)) ==> isCreateOpen == old(isCreateOpen) && newProject == old(newProject)
      ensures searchTerm == old(searchTerm)
    {
      if !CanCreate(newProject) {
        return;
      }
      projects := [NewProject(newProject, now, today)] + projects;
      isCreateOpen := false;
      newProject := BlankDraft(today);
    }
  }

  // ---------------------------------------------- column-aware move (finding)

  function InColumn(term: string, col: ProjectStatus): Project -> bool {
    (p: Project) => SearchMatches(p, term) && p.status == col
  }

  lemma ColumnIsFilter(ps: seq<Project>, term: string, col: ProjectStatus)
    ensures Column(ps, term, col) == Lists.Filter(ps, InColumn(term, col))
  {
    Lists.FilterFilter(ps, Matcher(term), HasStatus(col), InColumn(term, col));
  }

  /** The array index of the `k`-th card of column `col`. */
  function CardIndex(ps: seq<Project>, term: string, col: ProjectStatus, k: nat): (i: nat)
    requires k < |Column(ps, term, col)|
    ensures i < |ps| && ps[i] == Column(ps, term, col)[k]
  {
    ColumnIsFilter(ps, term, col);
    Lists.NthIndexHit(ps, InColumn(term, col), k);
    Lists.NthIndex(ps, InColumn(term, col), k)
  }

  /** The move the board asks for: both indices are first resolved from
      column positions to array positions, then the card is moved as
      `Reinsert` does. */
  function MoveCard(ps: seq<Project>, term: string, source: DragSource, target: DragSource): (r: seq<Project>)
    requires source.index < |Column(ps, term, source.droppableId)|
  {
    var i := CardIndex(ps, term, source.droppableId, source.index);
    var rest := Lists.RemoveAt(ps, i);
    var j := Lists.NthIndex(rest, InColumn(term, target.droppableId), target.index);
    Reinsert(ps, i, j, target.droppableId)
  }

  /** The grabbed card leaves its column and appears in the target column at
      the drop index (or last, when dropped past the end); the other cards of
      the target column keep their order, and no id is gained or lost. */
  lemma MoveCardLands(ps: seq<Project>, term: string, source: DragSource, target: DragSource)
    requires source.index < |Column(ps, term, source.droppableId)|
    ensures var r := MoveCard(ps, term, source, target);
            var i := CardIndex(ps, term, source.droppableId, source.index);
            var others := Column(Lists.RemoveAt(ps, i), term, target.droppableId);
            && ps[i] == Column(ps, term, source.droppableId)[source.index]
            && |r| == |ps|
            && multiset(Ids(r)) == multiset(Ids(ps))
            && Column(r, term, target.droppableId)
               == Lists.InsertAt(others, if target.index < |others| then target.index else |others|,
                                 ps[i].(status := target.droppableId))
  {
    var col := target.droppableId;
    var keep := InColumn(term, col);
    var i := CardIndex(ps, term, source.droppableId, source.index);
    var rest := Lists.RemoveAt(ps, i);
    var j := Lists.NthIndex(rest, keep, target.index);
    var card := ps[i].(status := col);
    var r := MoveCard(ps, term, source, target);
    Lists.NthIndexCount(rest, keep, target.index);
    if target.index < |Lists.Filter(rest, keep)| {
      Lists.NthIndexHit(rest, keep, target.index);
    } else {
      Lists.NthIndexMiss(rest, keep, target.index);
    }
    assert Landing(|ps|, j) == j;
    assert r == rest[..j] + [card] + rest[j..];
    // the grabbed card passed the search, and the search ignores the status
    ColumnIsFilter(ps, term, source.droppableId);
    assert SearchMatches(card, term);
    assert keep(card);
    Lists.FilterConcat(rest[..j] + [card], rest[j..], keep);
    Lists.FilterConcat(rest[..j], [card], keep);
    Lists.FilterCons(card, [], keep);
    assert [card] + [] == [card];
    Lists.FilterSplit(rest, j, keep);
    ColumnIsFilter(r, term, col);
    ColumnIsFilter(rest, term, col);
    var others := Lists.Filter(rest, keep);
    var m := |Lists.Filter(rest[..j], keep)|;
    assert Lists.Filter(rest[..j], keep) == others[..m];
    assert Lists.Filter(rest[j..], keep) == others[m..];
  }

  /** With no search, the first card of column `col` is the first project
      of the array whose status is `col`. */
  lemma FirstCardOfColumn(ps: seq<Project>, col: ProjectStatus, j: nat)
    requires j < |ps| && ps[j].status == col
    requires forall i :: 0 <= i < j ==> ps[i].status != col
    ensures |Column(ps, "", col)| > 0 && Column(ps, "", col)[0] == ps[j]
  {
    EmptySearchKeepsAll(ps, "");
    assert FilterProjects(ps, "") == ps;
    assert Column(ps, "", col) == Lists.Filter(ps, HasStatus(col));
    Lists.FilterFirst(ps, HasStatus(col), j);
  }

  /** Take a board with no search where the first project of the array is
      not in column `col`, and the first card of `col` is project `j`.
      Dragging that card (source index 0) makes `handleDragEnd` move project
      0 of the array, which is a different project from the card the user
      grabbed. */
  lemma DragMovesWrongCard(ps: seq<Project>, col: ProjectStatus, j: nat, target: DragSource)
    requires 0 < j < |ps| && ps[j].status == col
    requires forall i :: 0 <= i < j ==> ps[i].status != col
    ensures Reinsert(ps, 0, target.index, target.droppableId)[Landing(|ps|, target.index)]
            == ps[0].(status := target.droppableId)
    ensures ps[0] != ps[j]
    ensures |Column(ps, "", col)| > 0 && Column(ps, "", col)[0] == ps[j]
  {
    FirstCardOfColumn(ps, col, j);
  }

  /** The seeded board is such a case for `col` = "Completed" and `j` = 2:
      the card grabbed is project 3, the project moved is project 1. */
  lemma SeedBoardDragsWrongCard()
    ensures var ps := InitialProjects;
            && ps[2].status == Completed && ps[0].status != Completed && ps[1].status != Completed
            && ps[2].id == "3" && ps[0].id == "1"
  {
  }

}
