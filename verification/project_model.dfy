/** The Project document: required owner, title and description, an image
    list, links, a `featured` flag and an optional, unordered date range. */
module ProjectModel {
  import opened Common

  /** An image sub-document; `id` is the sub-document id the store assigns. */
  datatype Image = Image(id: Id, url: string, caption: string)

  datatype Project = Project(
    id: Id,
    user: Id,
    title: string,
    description: string,
    technologies: seq<string>,
    images: seq<Image>,
    githubUrl: string,
    liveUrl: string,
    featured: bool,
    startDate: Option<Day>,
    endDate: Option<Day>)

  /** The schema's constraints: owner, title and description are required.
      The dates are optional and, unlike an experience entry's, unordered. */
  predicate Valid(p: Project) {
    p.user != "" && p.title != "" && p.description != ""
  }

  /** The keys of a project update that a client supplied. */
  datatype ProjectBody = ProjectBody(
    user: Option<Id>,
    title: Option<string>,
    description: Option<string>,
    technologies: Option<seq<string>>,
    images: Option<seq<Image>>,
    githubUrl: Option<string>,
    liveUrl: Option<string>,
    featured: Option<bool>,
    startDate: Option<Day>,
    endDate: Option<Day>)

  const EmptyBody := ProjectBody(None, None, None, None, None, None, None, None, None, None)

  /** The partial merge of an update body: supplied keys overwrite, the rest
      is kept, and the record id never changes. */
  function ApplyBody(p: Project, b: ProjectBody): (r: Project)
    ensures r.id == p.id
    ensures b == EmptyBody ==> r == p
  {
    Project(
      p.id,
      b.user.GetOr(p.user),
      b.title.GetOr(p.title),
      b.description.GetOr(p.description),
      b.technologies.GetOr(p.technologies),
      b.images.GetOr(p.images),
      b.githubUrl.GetOr(p.githubUrl),
      b.liveUrl.GetOr(p.liveUrl),
      b.featured.GetOr(p.featured),
      if b.startDate.Some? then b.startDate else p.startDate,
      if b.endDate.Some? then b.endDate else p.endDate)
  }

  /** A project as `Project.create` builds it from the five fields the create
      handler reads; images start empty, `featured` is false, no dates. */
  function NewProject(id: Id, owner: Id, title: string, description: string, technologies: seq<string>,
                      githubUrl: string, liveUrl: string): (p: Project)
    ensures p.id == id && p.user == owner && p.title == title && p.description == description
    ensures p.technologies == technologies && p.githubUrl == githubUrl && p.liveUrl == liveUrl
    ensures p.images == [] && !p.featured && p.startDate.None? && p.endDate.None?
  {
    Project(id, owner, title, description, technologies, [], githubUrl, liveUrl, false, None, None)
  }

  /** A date range that ends before it starts is still a valid project. */
  lemma DatesUnordered(p: Project)
    requires Valid(p)
    ensures Valid(p.(startDate := Some(10), endDate := Some(1)))
  {
  }
}
