/** The client's project state and its reducer. Each request has a pending,
    a fulfilled and a rejected action; a rejected action carries the server's
    message. */
module ProjectSlice {
  import opened Common
  import opened Seqs
  import opened ProjectModel
  import opened Database
  import ProjectController

  datatype ProjectsState = ProjectsState(
    projects: seq<Project>,
    project: Option<Project>,
    isError: bool,
    isSuccess: bool,
    isLoading: bool,
    message: string)

  const Initial := ProjectsState([], None, false, false, false, "")

  const DeletedMessage := "Project deleted successfully"

  datatype Request = GetProjects | CreateProject | DeleteProject

  datatype Action =
    | Reset
    | Pending(request: Request)
    | Rejected(request: Request, message: string)
    | GotProjects(projects: seq<Project>)
    | Created(created: Project)
    | Deleted(id: Id)

  /** The fulfilled actions: the only ones that touch the list. */
  predicate Fulfilled(a: Action) {
    a.GotProjects? || a.Created? || a.Deleted?
  }

  /** The delete filter: every project whose id differs. */
  function IdIsNot(id: Id): Project -> bool {
    (p: Project) => p.id != id
  }

  function Reduce(st: ProjectsState, a: Action): (r: ProjectsState)
    ensures r.isLoading <==> a.Pending?
    // the single-project slot is only ever cleared, by reset
    ensures !a.Reset? ==> r.project == st.project
    ensures !a.Reset? && !Fulfilled(a) ==> r.projects == st.projects
    ensures Fulfilled(a) ==> r.isSuccess && r.isError == st.isError
    ensures a.Rejected? ==> r.isError && r.isSuccess == st.isSuccess
  {
    match a
    case Reset => Initial
    case Pending(_) => st.(isLoading := true)
    case Rejected(_, message) => st.(isLoading := false, isError := true, message := message)
    case GotProjects(projects) => st.(isLoading := false, isSuccess := true, projects := projects)
    case Created(p) => st.(isLoading := false, isSuccess := true, projects := st.projects + [p])
    case Deleted(id) =>
      st.(isLoading := false, isSuccess := true, projects := Filter(st.projects, IdIsNot(id)), message := DeletedMessage)
  }

  /** The state after a run of actions, in order. */
  function Run(st: ProjectsState, actions: seq<Action>): ProjectsState
    decreases |actions|
  {
    if |actions| == 0 then st else Run(Reduce(st, actions[0]), actions[1..])
  }

  lemma ResetIsInitial(st: ProjectsState)
    ensures Reduce(st, Reset) == Initial
    ensures Initial.projects == [] && Initial.project.None? && Initial.message == ""
    ensures !Initial.isError && !Initial.isSuccess && !Initial.isLoading
  {
  }

  /** A pending action changes nothing but the loading flag. */
  lemma PendingOnlyLoads(st: ProjectsState, request: Request)
    ensures Reduce(st, Pending(request)) == st.(isLoading := true)
  {
  }

  /** A rejected action records the error and its message and keeps the list. */
  lemma RejectedKeepsList(st: ProjectsState, request: Request, message: string)
    ensures var r := Reduce(st, Rejected(request, message));
      && r.projects == st.projects && r.isError && r.message == message && !r.isLoading
  {
  }

  /** A created project goes at the end, after the earlier ones in their order. */
  lemma CreatedAppends(st: ProjectsState, p: Project)
    ensures var r := Reduce(st, Created(p)).projects;
      |r| == |st.projects| + 1 && r[..|st.projects|] == st.projects && r[|st.projects|] == p
  {
  }

  /** A delete drops exactly the projects with that id, keeps the others, and
      sets the success message. */
  lemma DeletedDropsId(st: ProjectsState, id: Id)
    ensures var r := Reduce(st, Deleted(id));
      && (forall k :: 0 <= k < |r.projects| ==> r.projects[k].id != id && r.projects[k] in st.projects)
      && (forall k :: 0 <= k < |st.projects| && st.projects[k].id != id ==> st.projects[k] in r.projects)
      && IsSubseq(r.projects, st.projects)
      && (forall x :: multiset(r.projects)[x] == if x.id != id then multiset(st.projects)[x] else 0)
      && r.message == DeletedMessage
  {
    assert Reduce(st, Deleted(id)).projects == Filter(st.projects, IdIsNot(id));
    KeptById(st.projects, id);
  }

  /** The delete filter on a list, in the terms of the project's id. */
  lemma KeptById(ps: seq<Project>, id: Id)
    ensures var kept := Filter(ps, IdIsNot(id));
      && (forall k :: 0 <= k < |kept| ==> kept[k].id != id && kept[k] in ps)
      && (forall k :: 0 <= k < |ps| && ps[k].id != id ==> ps[k] in kept)
      && IsSubseq(kept, ps)
      && (forall x :: multiset(kept)[x] == if x.id != id then multiset(ps)[x] else 0)
  {
    FilterMembers(ps, IdIsNot(id));
    FilterInOrder(ps, IdIsNot(id));
    FilterCounts(ps, IdIsNot(id));
  }

  /** Creating a project with an id the list does not hold and then deleting
      that id restores the list. */
  lemma {:induction false} CreateThenDeleteRestores(st: ProjectsState, p: Project)
    requires forall k :: 0 <= k < |st.projects| ==> st.projects[k].id != p.id
    ensures Reduce(Reduce(st, Created(p)), Deleted(p.id)).projects == st.projects
  {
    FilterAppend(st.projects, [p], IdIsNot(p.id));
    FilterKeepsAll(st.projects, IdIsNot(p.id));
    FilterDropsAll([p], IdIsNot(p.id));
  }

  /** A run of actions with no fulfilled action and no reset leaves the list
      as it was. */
  lemma {:induction false} OnlyFulfilledChangesList(st: ProjectsState, actions: seq<Action>)
    requires forall k :: 0 <= k < |actions| ==> !Fulfilled(actions[k]) && !actions[k].Reset?
    ensures Run(st, actions).projects == st.projects
    decreases |actions|
  {
    if |actions| > 0 {
      OnlyFulfilledChangesList(Reduce(st, actions[0]), actions[1..]);
    }
  }

  // ---- the list mirrors the server ----

  /** Fetching sets the list to the requester's projects on the server. */
  lemma FetchMirrors(s: Store, st: ProjectsState, requester: Id)
    ensures Reduce(st, GotProjects(ProjectController.GetProjects(s, requester))).projects == ProjectsOf(s, requester)
  {
  }

  /** When the list holds the requester's projects, it still does after a
      create the server accepts and the fulfilled action that follows. */
  lemma {:induction false} CreateMirrors(s: Store, st: ProjectsState, requester: Id, freshId: Id, title: string,
                                         description: string, technologies: seq<string>, githubUrl: string,
                                         liveUrl: string)
    requires FreshProjectId(s, freshId)
    requires st.projects == ProjectsOf(s, requester)
    requires ProjectController.CreateProject(s, requester, freshId, title, description, technologies, githubUrl,
                                             liveUrl).Ok?
    ensures var rep := ProjectController.CreateProject(s, requester, freshId, title, description, technologies,
                                                       githubUrl, liveUrl).value;
      Reduce(st, Created(rep.body)).projects == ProjectsOf(rep.store, requester)
  {
    var rep := ProjectController.CreateProject(s, requester, freshId, title, description, technologies,
                                               githubUrl, liveUrl).value;
    FilterAppend(s.projects, [rep.body], (p: Project) => p.user == requester);
  }

  /** With unique ids, the project at `i` is the only one the delete filter drops. */
  lemma OnlyOneWithId(ps: seq<Project>, i: nat, id: Id)
    requires UniqueProjectIds(ps) && i < |ps| && ps[i].id == id
    ensures !IdIsNot(id)(ps[i])
    ensures forall k :: 0 <= k < |ps| && k != i ==> IdIsNot(id)(ps[k])
  {
    forall k | 0 <= k < |ps| && k != i
      ensures IdIsNot(id)(ps[k])
    {
      if k < i { assert ps[k].id != ps[i].id; } else { assert ps[i].id != ps[k].id; }
    }
  }

  /** The delete case once the deleted record's place is known. */
  lemma {:induction false} DeleteMirrorsAt(s: Store, st: ProjectsState, requester: Id, id: Id, i: nat)
    requires i < |s.projects| && s.projects[i].id == id
    requires forall k :: 0 <= k < |s.projects| && k != i ==> IdIsNot(id)(s.projects[k])
    requires st.projects == ProjectsOf(s, requester)
    ensures Reduce(st, Deleted(id)).projects == ProjectsOf(s.(projects := s.projects[..i] + s.projects[i + 1..]), requester)
  {
    FilterWithoutOne(s.projects, i, (p: Project) => p.user == requester, IdIsNot(id));
  }

  /** When the list holds the requester's projects and project ids are
      unique, it still does after a delete the server accepts and the
      fulfilled action that follows. */
  lemma {:induction false} DeleteMirrors(s: Store, st: ProjectsState, requester: Id, id: Id)
    requires UniqueProjectIds(s.projects)
    requires st.projects == ProjectsOf(s, requester)
    requires ProjectController.DeleteProject(s, requester, id).Ok?
    ensures var rep := ProjectController.DeleteProject(s, requester, id).value;
      Reduce(st, Deleted(rep.body)).projects == ProjectsOf(rep.store, requester)
  {
    var i := ProjectById(s, id).value;
    OnlyOneWithId(s.projects, i, id);
    DeleteMirrorsAt(s, st, requester, id, i);
  }
}
