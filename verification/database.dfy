/** The document store the controllers read and write: one collection per
    record kind, each in natural (insertion) order, so that `findOne` is the
    first match and `find` keeps the stored order. */
module Database {
  import opened Common
  import opened Seqs
  import UserModel
  import PortfolioModel
  import ProjectModel

  type User = UserModel.User
  type Portfolio = PortfolioModel.Portfolio
  type Project = ProjectModel.Project

  datatype Store = Store(users: seq<User>, portfolios: seq<Portfolio>, projects: seq<Project>)

  /** A successful request: the store afterwards and the response body. A
      failed request carries no store, so it leaves the store as it was. */
  datatype Reply<T> = Reply(store: Store, body: T)

  // ---- lookups (findOne in natural order) ----

  function UserByUsername(s: Store, username: string): (r: Option<nat>)
    ensures r.Some? ==> r.value < |s.users| && s.users[r.value].username == username
    ensures r.Some? ==> forall k :: 0 <= k < r.value ==> s.users[k].username != username
    ensures r.None? <==> forall k :: 0 <= k < |s.users| ==> s.users[k].username != username
  {
    FindFirst(s.users, (u: User) => u.username == username)
  }

  function UserByEmail(s: Store, email: string): (r: Option<nat>)
    ensures r.Some? ==> r.value < |s.users| && s.users[r.value].email == email
    ensures r.Some? ==> forall k :: 0 <= k < r.value ==> s.users[k].email != email
    ensures r.None? <==> forall k :: 0 <= k < |s.users| ==> s.users[k].email != email
  {
    FindFirst(s.users, (u: User) => u.email == email)
  }

  function UserById(s: Store, id: Id): (r: Option<nat>)
    ensures r.Some? ==> r.value < |s.users| && s.users[r.value].id == id
    ensures r.Some? ==> forall k :: 0 <= k < r.value ==> s.users[k].id != id
    ensures r.None? <==> forall k :: 0 <= k < |s.users| ==> s.users[k].id != id
  {
    FindFirst(s.users, (u: User) => u.id == id)
  }

  function PortfolioById(s: Store, id: Id): (r: Option<nat>)
    ensures r.Some? ==> r.value < |s.portfolios| && s.portfolios[r.value].id == id
    ensures r.Some? ==> forall k :: 0 <= k < r.value ==> s.portfolios[k].id != id
    ensures r.None? <==> forall k :: 0 <= k < |s.portfolios| ==> s.portfolios[k].id != id
  {
    FindFirst(s.portfolios, (p: Portfolio) => p.id == id)
  }

  /** `Portfolio.findOne({ user: owner })`. */
  function PortfolioOfOwner(s: Store, owner: Id): (r: Option<nat>)
    ensures r.Some? ==> r.value < |s.portfolios| && s.portfolios[r.value].user == owner
    ensures r.Some? ==> forall k :: 0 <= k < r.value ==> s.portfolios[k].user != owner
    ensures r.None? <==> forall k :: 0 <= k < |s.portfolios| ==> s.portfolios[k].user != owner
  {
    FindFirst(s.portfolios, (p: Portfolio) => p.user == owner)
  }

  function ProjectById(s: Store, id: Id): (r: Option<nat>)
    ensures r.Some? ==> r.value < |s.projects| && s.projects[r.value].id == id
    ensures r.Some? ==> forall k :: 0 <= k < r.value ==> s.projects[k].id != id
    ensures r.None? <==> forall k :: 0 <= k < |s.projects| ==> s.projects[k].id != id
  {
    FindFirst(s.projects, (p: Project) => p.id == id)
  }

  /** `Project.find({ user: owner })`: exactly that owner's projects, in store order. */
  function ProjectsOf(s: Store, owner: Id): (r: seq<Project>)
    ensures forall k :: 0 <= k < |r| ==> r[k] in s.projects && r[k].user == owner
    ensures forall k :: 0 <= k < |s.projects| && s.projects[k].user == owner ==> s.projects[k] in r
  {
    FilterMembers(s.projects, (p: Project) => p.user == owner);
    Filter(s.projects, (p: Project) => p.user == owner)
  }

  /** The owner's projects come in store order, each record as often as the
      store holds it and no other record at all. */
  lemma ProjectsOfExact(s: Store, owner: Id)
    ensures IsSubseq(ProjectsOf(s, owner), s.projects)
    ensures forall x :: multiset(ProjectsOf(s, owner))[x] == if x.user == owner then multiset(s.projects)[x] else 0
  {
    FilterInOrder(s.projects, (p: Project) => p.user == owner);
    FilterCounts(s.projects, (p: Project) => p.user == owner);
  }

  // ---- store invariants ----

  predicate UniquePortfolioIds(ps: seq<Portfolio>) {
    forall i, j :: 0 <= i < j < |ps| ==> ps[i].id != ps[j].id
  }

  predicate UniqueProjectIds(ps: seq<Project>) {
    forall i, j :: 0 <= i < j < |ps| ==> ps[i].id != ps[j].id
  }

  /** The intended "one portfolio per user": no two portfolios share an owner.
      Nothing in the store enforces it. */
  predicate OnePortfolioPerUser(ps: seq<Portfolio>) {
    forall i, j :: 0 <= i < j < |ps| ==> ps[i].user != ps[j].user
  }

  /** The identifiers the store has not handed out yet. */
  predicate FreshPortfolioId(s: Store, id: Id) {
    forall k :: 0 <= k < |s.portfolios| ==> s.portfolios[k].id != id
  }

  predicate FreshProjectId(s: Store, id: Id) {
    forall k :: 0 <= k < |s.projects| ==> s.projects[k].id != id
  }

  predicate FreshUserId(s: Store, id: Id) {
    forall k :: 0 <= k < |s.users| ==> s.users[k].id != id
  }
}
