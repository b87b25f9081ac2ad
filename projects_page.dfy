/** The projects page of the client: which projects the search, the status
    sidebar and the filter dialog leave visible, deleting the selected
    project and applying the edit dialog's fields. */
module ProjectsPage {
  import opened Api
  import Seqs
  import Strings
  import ProjectFilters

  /** A project as the page holds it; fields the page does not touch are
      kept in `rest`. */
  datatype ProjectCard = ProjectCard(
    id: string,
    name: string,
    description: string,
    status: string,
    priority: string,
    dueDate: string,
    rest: seq<(string, string)>)

  /** What the project dialog submits; `dueDateIso` is
      `data.dueDate.toISOString().split('T')[0]`. */
  datatype ProjectData = ProjectData(
    name: string,
    description: string,
    status: string,
    priority: string,
    dueDateIso: string)

  function Contains(text: string, query: string): bool {
    Strings.Includes(Strings.ToLower(text), Strings.ToLower(query))
  }

  /** The predicate of `filteredProjects`. */
  predicate Matches(p: ProjectCard, searchQuery: string, statusFilter: string, filters: ProjectFilters.Filters) {
    && (Contains(p.name, searchQuery) || Contains(p.description, searchQuery))
    && (statusFilter == "all" || p.status == statusFilter)
    && (|filters.status| == 0 || p.status in filters.status)
    && (|filters.priority| == 0 || p.priority in filters.priority)
  }

  /** `projects?.filter(...)`: nothing before the projects have loaded. */
  function FilteredProjects(projects: Option<seq<ProjectCard>>, searchQuery: string, statusFilter: string,
                            filters: ProjectFilters.Filters): (r: Option<seq<ProjectCard>>)
    ensures projects.None? <==> r.None?
    ensures r.Some? ==> forall k :: 0 <= k < |r.value| ==>
      r.value[k] in projects.value && Matches(r.value[k], searchQuery, statusFilter, filters)
    ensures r.Some? ==> forall k :: 0 <= k < |projects.value| ==>
      (Matches(projects.value[k], searchQuery, statusFilter, filters) ==> projects.value[k] in r.value)
  {
    match projects
    case None => None
    case Some(ps) => Some(Seqs.Filter(ps, (p: ProjectCard) => Matches(p, searchQuery, statusFilter, filters)))
  }

  /** An empty query, status `all` and empty filter lists show every
      project. */
  lemma NoConstraintShowsAll(projects: seq<ProjectCard>)
    ensures FilteredProjects(Some(projects), "", "all", ProjectFilters.Filters([], [])) == Some(projects)
  {
    forall k | 0 <= k < |projects|
      ensures Matches(projects[k], "", "all", ProjectFilters.Filters([], []))
    {
      Strings.IncludesEmpty(Strings.ToLower(projects[k].name));
    }
    Seqs.FilterAll(projects, (p: ProjectCard) => Matches(p, "", "all", ProjectFilters.Filters([], [])));
  }

  /** The status sidebar and the status list of the dialog must both admit
      a project's status. */
  lemma StatusFiltersCombine(p: ProjectCard, q: string, statusFilter: string, filters: ProjectFilters.Filters)
    requires statusFilter != "all" && |filters.status| > 0 && statusFilter !in filters.status
    ensures !Matches(p, q, statusFilter, filters)
  {
  }

  /** The page state the delete and edit handlers change. */
  datatype PageState = PageState(
    projects: Option<seq<ProjectCard>>,
    selectedProject: Option<ProjectCard>,
    showDeleteDialog: bool)

  /** `projects` is still `null` when the delete or edit handler runs. */
  const ProjectsNotLoaded := RuntimeError("TypeError", "Cannot read properties of null (reading 'filter')")
  const ProjectsNotLoadedOnEdit := RuntimeError("TypeError", "Cannot read properties of null (reading 'map')")

  /** `confirmDelete`: without a selection nothing happens; otherwise every
      project with the selected id goes, the dialog closes and the selection
      is cleared. */
  function ConfirmDelete(st: PageState): (r: Result<PageState>)
    ensures st.selectedProject.None? ==> r == Ok(st)
    ensures st.selectedProject.Some? && st.projects.None? ==> r == Err(ProjectsNotLoaded)
    ensures st.selectedProject.Some? && st.projects.Some? ==>
      && r.Ok? && r.value.selectedProject.None? && !r.value.showDeleteDialog
      && r.value.projects.Some?
      && (forall k :: 0 <= k < |r.value.projects.value| ==>
            r.value.projects.value[k] in st.projects.value
            && r.value.projects.value[k].id != st.selectedProject.value.id)
      && (forall k :: 0 <= k < |st.projects.value| && st.projects.value[k].id != st.selectedProject.value.id ==>
            st.projects.value[k] in r.value.projects.value)
  {
    match st.selectedProject
    case None => Ok(st)
    case Some(sel) =>
      match st.projects
      case None => Err(ProjectsNotLoaded)
      case Some(ps) => Ok(PageState(Some(Seqs.Filter(ps, (p: ProjectCard) => p.id != sel.id)), None, false))
  }

  /** `{ ...p, ...data, dueDate }`: the dialog's fields override the
      project's, the rest is kept. */
  function Merge(p: ProjectCard, data: ProjectData): (r: ProjectCard)
    ensures r.id == p.id && r.rest == p.rest
    ensures r.name == data.name && r.description == data.description && r.status == data.status
    ensures r.priority == data.priority && r.dueDate == data.dueDateIso
  {
    p.(name := data.name, description := data.description, status := data.status,
       priority := data.priority, dueDate := data.dueDateIso)
  }

  /** The edit branch of `handleProjectSubmit`: with a selection, the
      projects with the selected id are replaced by the merge and the others
      keep position and content. */
  function SubmitEdit(st: PageState, data: ProjectData): (r: Result<PageState>)
    ensures st.selectedProject.None? ==> r == Ok(st)
    ensures st.selectedProject.Some? && st.projects.None? ==> r == Err(ProjectsNotLoadedOnEdit)
    ensures st.selectedProject.Some? && st.projects.Some? ==>
      && r.Ok? && r.value.selectedProject == st.selectedProject
      && r.value.showDeleteDialog == st.showDeleteDialog
      && r.value.projects.Some? && |r.value.projects.value| == |st.projects.value|
      && forall k :: 0 <= k < |st.projects.value| ==>
           r.value.projects.value[k] ==
             (if st.projects.value[k].id == st.selectedProject.value.id
              then Merge(st.projects.value[k], data) else st.projects.value[k])
  {
    match st.selectedProject
    case None => Ok(st)
    case Some(sel) =>
      match st.projects
      case None => Err(ProjectsNotLoadedOnEdit)
      case Some(ps) =>
        Ok(st.(projects := Some(seq(|ps|, k requires 0 <= k < |ps| =>
          if ps[k].id == sel.id then Merge(ps[k], data) else ps[k]))))
  }

  /** Submitting the fields a project already has changes nothing. */
  lemma SubmitUnchangedFields(st: PageState, p: ProjectCard)
    requires st.selectedProject == Some(p) && st.projects.Some?
    requires forall k :: 0 <= k < |st.projects.value| && st.projects.value[k].id == p.id ==> st.projects.value[k] == p
    ensures SubmitEdit(st, ProjectData(p.name, p.description, p.status, p.priority, p.dueDate)) == Ok(st)
  {
    var r := SubmitEdit(st, ProjectData(p.name, p.description, p.status, p.priority, p.dueDate));
    assert r.value.projects.value == st.projects.value;
  }

  /** After deleting, an edit can no longer reach the deleted project. */
  lemma EditAfterDeleteDoesNothing(st: PageState, data: ProjectData)
    requires st.selectedProject.Some? && st.projects.Some?
    ensures var d := ConfirmDelete(st).value;
      SubmitEdit(d.(selectedProject := st.selectedProject), data).value.projects == d.projects
  {
    var d := ConfirmDelete(st).value;
    var r := SubmitEdit(d.(selectedProject := st.selectedProject), data);
    assert r.value.projects.value == d.projects.value;
  }
}
