/** The project handlers. Every handler that names a project by id runs the
    same ownership guard first: an unknown id is "not found", someone else's
    project is "not authorized", and only then does the handler act. */
module ProjectController {
  import opened Common
  import opened Seqs
  import opened ProjectModel
  import opened Database

  const ProjectNotFound := Error(NotFound, "Project not found")
  const NotOwner := Error(NotAuthorized, "Not authorized")
  const TitleMissing := Error(Validation, "Please add title and description")
  const ImagesMissing := Error(Validation, "Please provide images array")
  const SchemaRejected := Error(Validation, "Project validation failed")

  /** The `images` key of an upload body: absent (or otherwise falsy), present
      but not an array, or an array of image records. */
  datatype ImagesArg = Absent | NotArray | Items(images: seq<Image>)

  /** `findById` followed by the owner check; the index of the project on success. */
  function Guard(s: Store, requester: Id, id: Id): (r: Result<nat>)
    ensures ProjectById(s, id).None? <==> r == Err(ProjectNotFound)
    ensures r.Ok? <==> ProjectById(s, id).Some? && s.projects[ProjectById(s, id).value].user == requester
    ensures r.Ok? ==> r.value == ProjectById(s, id).value
    ensures r.Err? ==> r.error in {ProjectNotFound, NotOwner}
  {
    match ProjectById(s, id)
    case None => Err(ProjectNotFound)
    case Some(i) => if s.projects[i].user != requester then Err(NotOwner) else Ok(i)
  }

  /** `document.save()`: the schema's required fields are checked, then the
      stored copy at index `i` is replaced. */
  function Save(s: Store, i: nat, p: Project): (r: Result<Store>)
    requires i < |s.projects|
    ensures r.Ok? <==> Valid(p)
    ensures r.Ok? ==> r.value == s.(projects := s.projects[i := p])
    ensures r.Err? ==> r.error == SchemaRejected
  {
    if Valid(p) then Ok(s.(projects := s.projects[i := p])) else Err(SchemaRejected)
  }

  /** GET /api/projects: the requester's projects, in store order. */
  function GetProjects(s: Store, requester: Id): (r: seq<Project>)
    ensures forall k :: 0 <= k < |r| ==> r[k] in s.projects && r[k].user == requester
    ensures forall k :: 0 <= k < |s.projects| && s.projects[k].user == requester ==> s.projects[k] in r
    ensures IsSubseq(r, s.projects)
    ensures forall x :: multiset(r)[x] == if x.user == requester then multiset(s.projects)[x] else 0
  {
    ProjectsOfExact(s, requester);
    ProjectsOf(s, requester)
  }

  /** GET /api/projects/:id. */
  function GetProject(s: Store, requester: Id, id: Id): (r: Result<Project>)
    ensures r.Ok? <==> Guard(s, requester, id).Ok?
    ensures r.Ok? ==> r.value in s.projects && r.value.id == id && r.value.user == requester
    ensures r.Err? ==> r.error == Guard(s, requester, id).error
  {
    var i :- Guard(s, requester, id);
    Ok(s.projects[i])
  }

  /** POST /api/projects. Only title, description, technologies and the two
      links are read from the body (absent ones are "" or []); the owner is
      always the requester. */
  function CreateProject(s: Store, requester: Id, freshId: Id, title: string, description: string,
                         technologies: seq<string>, githubUrl: string, liveUrl: string)
    : (r: Result<Reply<Project>>)
    requires FreshProjectId(s, freshId)
    ensures (title == "" || description == "") <==> r == Err(TitleMissing)
    ensures r.Ok? <==> title != "" && description != "" && requester != ""
    ensures r.Ok? ==>
      && r.value.body.user == requester && r.value.body.id == freshId
      && r.value.body.title == title && r.value.body.description == description
      && r.value.body.technologies == technologies
      && r.value.body.githubUrl == githubUrl && r.value.body.liveUrl == liveUrl
      && r.value.body.images == [] && !r.value.body.featured
      && r.value.store == s.(projects := s.projects + [r.value.body])
  {
    if title == "" || description == "" then Err(TitleMissing)
    else
      var p := NewProject(freshId, requester, title, description, technologies, githubUrl, liveUrl);
      if !Valid(p) then Err(SchemaRejected)
      else Ok(Reply(s.(projects := s.projects + [p]), p))
  }

  /** PUT /api/projects/:id: the supplied keys overwrite, without the schema's
      checks; the record keeps its place and id. */
  function UpdateProject(s: Store, requester: Id, id: Id, body: ProjectBody): (r: Result<Reply<Project>>)
    ensures r.Ok? <==> Guard(s, requester, id).Ok?
    ensures r.Err? ==> r.error == Guard(s, requester, id).error
    ensures r.Ok? ==>
      var i := Guard(s, requester, id).value;
      && r.value.body == ApplyBody(s.projects[i], body)
      && r.value.store == s.(projects := s.projects[i := r.value.body])
      && r.value.body.id == id
  {
    var i :- Guard(s, requester, id);
    var updated := ApplyBody(s.projects[i], body);
    Ok(Reply(s.(projects := s.projects[i := updated]), updated))
  }

  /** DELETE /api/projects/:id: the record is removed and its id echoed back. */
  function DeleteProject(s: Store, requester: Id, id: Id): (r: Result<Reply<Id>>)
    ensures r.Ok? <==> Guard(s, requester, id).Ok?
    ensures r.Err? ==> r.error == Guard(s, requester, id).error
    ensures r.Ok? ==>
      var i := Guard(s, requester, id).value;
      && r.value.body == id
      && r.value.store == s.(projects := s.projects[..i] + s.projects[i + 1..])
  {
    var i :- Guard(s, requester, id);
    Ok(Reply(s.(projects := s.projects[..i] + s.projects[i + 1..]), id))
  }

  /** POST /api/projects/:id/images: after the guard, the body must carry an
      array; its images are appended after the existing ones and the project
      is saved. An empty array is accepted and appends nothing. */
  function UploadProjectImages(s: Store, requester: Id, id: Id, arg: ImagesArg): (r: Result<Reply<Project>>)
    ensures Guard(s, requester, id).Err? ==> r == Err(Guard(s, requester, id).error)
    ensures Guard(s, requester, id).Ok? && !arg.Items? ==> r == Err(ImagesMissing)
    ensures r.Ok? ==>
      var i := Guard(s, requester, id).value;
      && arg.Items?
      && r.value.body == s.projects[i].(images := s.projects[i].images + arg.images)
      && r.value.store == s.(projects := s.projects[i := r.value.body])
    ensures Guard(s, requester, id).Ok? && arg.Items? && Valid(s.projects[Guard(s, requester, id).value]) ==> r.Ok?
    // the save checks the whole record, so an invalid stored project is refused
    ensures Guard(s, requester, id).Ok? && arg.Items? && !Valid(s.projects[Guard(s, requester, id).value]) ==>
      r == Err(SchemaRejected)
    ensures r.Err? ==> r.error in {ProjectNotFound, NotOwner, ImagesMissing, SchemaRejected}
  {
    var i :- Guard(s, requester, id);
    if !arg.Items? then Err(ImagesMissing)
    else
      var p := s.projects[i];
      var updated := p.(images := p.images + arg.images);
      var s' :- Save(s, i, updated);
      Ok(Reply(s', updated))
  }

  /** The image filter of the delete handler: every image whose id differs. */
  function WithoutImage(images: seq<Image>, imageId: Id): (r: seq<Image>)
    ensures forall k :: 0 <= k < |r| ==> r[k] in images && r[k].id != imageId
    ensures forall k :: 0 <= k < |images| && images[k].id != imageId ==> images[k] in r
    // the kept images stay in their order, each as often as before
    ensures IsSubseq(r, images)
    ensures forall x :: multiset(r)[x] == if x.id != imageId then multiset(images)[x] else 0
  {
    FilterMembers(images, (img: Image) => img.id != imageId);
    FilterInOrder(images, (img: Image) => img.id != imageId);
    FilterCounts(images, (img: Image) => img.id != imageId);
    Filter(images, (img: Image) => img.id != imageId)
  }

  /** DELETE /api/projects/:id/images/:imageId: every image with that id is
      dropped (none, if there is none) and the project is saved. */
  function DeleteProjectImage(s: Store, requester: Id, id: Id, imageId: Id): (r: Result<Reply<Project>>)
    ensures Guard(s, requester, id).Err? ==> r == Err(Guard(s, requester, id).error)
    ensures r.Ok? ==>
      var i := Guard(s, requester, id).value;
      && r.value.body == s.projects[i].(images := WithoutImage(s.projects[i].images, imageId))
      && r.value.store == s.(projects := s.projects[i := r.value.body])
    ensures Guard(s, requester, id).Ok? && Valid(s.projects[Guard(s, requester, id).value]) ==> r.Ok?
    // the save checks the whole record, so an invalid stored project is refused
    ensures Guard(s, requester, id).Ok? && !Valid(s.projects[Guard(s, requester, id).value]) ==>
      r == Err(SchemaRejected)
    ensures r.Err? ==> r.error in {ProjectNotFound, NotOwner, SchemaRejected}
  {
    var i :- Guard(s, requester, id);
    var p := s.projects[i];
    var updated := p.(images := WithoutImage(p.images, imageId));
    var s' :- Save(s, i, updated);
    Ok(Reply(s', updated))
  }

  // ---- properties across handlers ----

  /** When exactly one image has the id, deleting it removes that position
      and nothing else. */
  lemma {:induction false} WithoutOnlyImage(images: seq<Image>, i: nat, imageId: Id)
    requires i < |images| && images[i].id == imageId
    requires forall k :: 0 <= k < |images| && k != i ==> images[k].id != imageId
    ensures WithoutImage(images, imageId) == images[..i] + images[i + 1..]
  {
    var keep := (img: Image) => img.id != imageId;
    var before, after := images[..i], images[i + 1..];
    assert forall k :: 0 <= k < |before| ==> keep(before[k]) by {
      forall k | 0 <= k < |before| ensures keep(before[k]) {
        assert before[k] == images[k];
      }
    }
    assert forall k :: 0 <= k < |after| ==> keep(after[k]) by {
      forall k | 0 <= k < |after| ensures keep(after[k]) {
        assert after[k] == images[i + 1 + k];
      }
    }
    FilterDropOne(images, i, keep);
    FilterKeepsAll(before, keep);
    FilterKeepsAll(after, keep);
  }

  /** No handler that names a project lets a non-owner change anything: each
      fails with the guard's error. */
  lemma NonOwnerChangesNothing(s: Store, requester: Id, id: Id, body: ProjectBody, arg: ImagesArg, imageId: Id)
    requires ProjectById(s, id).Some? && s.projects[ProjectById(s, id).value].user != requester
    ensures GetProject(s, requester, id) == Err(NotOwner)
    ensures UpdateProject(s, requester, id, body) == Err(NotOwner)
    ensures DeleteProject(s, requester, id) == Err(NotOwner)
    ensures UploadProjectImages(s, requester, id, arg) == Err(NotOwner)
    ensures DeleteProjectImage(s, requester, id, imageId) == Err(NotOwner)
  {
  }

  /** Creating a project and then deleting it by its new id restores the store. */
  lemma {:induction false} CreateThenDelete(s: Store, requester: Id, freshId: Id, title: string, description: string,
                                            technologies: seq<string>, githubUrl: string, liveUrl: string)
    requires FreshProjectId(s, freshId)
    requires CreateProject(s, requester, freshId, title, description, technologies, githubUrl, liveUrl).Ok?
    ensures var s' := CreateProject(s, requester, freshId, title, description, technologies, githubUrl, liveUrl).value.store;
      DeleteProject(s', requester, freshId) == Ok(Reply(s, freshId))
  {
    var rep := CreateProject(s, requester, freshId, title, description, technologies, githubUrl, liveUrl).value;
    var s' := rep.store;
    var n := |s.projects|;
    assert s'.projects[n] == rep.body;
    assert ProjectById(s', freshId) == Some(n) by {
      var f := ProjectById(s', freshId);
      assert f.Some?;
      assert !(f.value < n);
    }
    assert s'.projects[..n] + s'.projects[n + 1..] == s.projects;
  }

  /** Uploading images whose ids are new to the project and then deleting one
      of them leaves the old images followed by the other new ones. */
  lemma {:induction false} UploadThenDeleteImage(s: Store, requester: Id, id: Id, added: seq<Image>, imageId: Id)
    requires UploadProjectImages(s, requester, id, Items(added)).Ok?
    requires var i := ProjectById(s, id).value;
      forall k :: 0 <= k < |s.projects[i].images| ==> s.projects[i].images[k].id != imageId
    ensures var i := ProjectById(s, id).value;
      var s' := UploadProjectImages(s, requester, id, Items(added)).value.store;
      var r := DeleteProjectImage(s', requester, id, imageId);
      && r.Ok?
      && r.value.body.images == s.projects[i].images + WithoutImage(added, imageId)
  {
    var i := ProjectById(s, id).value;
    var rep := UploadProjectImages(s, requester, id, Items(added)).value;
    var s' := rep.store;
    assert ProjectById(s', id) == Some(i) by {
      var f := ProjectById(s', id);
      assert s'.projects[i].id == id;
      assert f.Some?;
      assert !(f.value < i);
      assert !(i < f.value);
    }
    var old_ := s.projects[i].images;
    var p := (img: Image) => img.id != imageId;
    FilterAppend(old_, added, p);
    FilterKeepsAll(old_, p);
    assert Guard(s', requester, id) == Ok(i);
  }

  /** Deleting an image id the project does not hold leaves its images as they were. */
  lemma {:induction false} DeleteAbsentImage(images: seq<Image>, imageId: Id)
    requires forall k :: 0 <= k < |images| ==> images[k].id != imageId
    ensures WithoutImage(images, imageId) == images
  {
    FilterKeepsAll(images, (img: Image) => img.id != imageId);
  }
}
