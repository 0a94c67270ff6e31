/** The portfolio handlers: the owner's own view, the public view by username
    with its view counter, create-once, the two-path update, and the theme and
    customization updates. `validUrl` stands for the URL parser the schema's
    validators call when a document is created or saved. */
module PortfolioController {
  import opened Common
  import opened Text
  import opened PortfolioModel
  import opened Database

  const PortfolioNotFound := Error(NotFound, "Portfolio not found")
  const PrivatePortfolio := Error(Forbidden, "This portfolio is private")
  const AlreadyExists := Error(Conflict, "Portfolio already exists")
  const NotOwner := Error(NotAuthorized, "Not authorized to update this portfolio")
  const ThemeMissing := Error(Validation, "Please provide a theme")
  const SchemaRejected := Error(Validation, "Portfolio validation failed")

  /** The public page's payload: a portfolio, or none, and the owner's projects. */
  datatype PublicView = PublicView(portfolio: Option<Portfolio>, projects: seq<Project>)

  /** The requester owns at least one portfolio. */
  predicate OwnsPortfolio(s: Store, owner: Id) {
    exists k :: 0 <= k < |s.portfolios| && s.portfolios[k].user == owner
  }

  /** `document.save()`: the schema validators run over the whole document,
      then the stored copy at index `i` is replaced. */
  function Save(s: Store, i: nat, p: Portfolio, validUrl: UrlCheck): (r: Result<Store>)
    requires i < |s.portfolios|
    ensures r.Ok? <==> Valid(p, validUrl)
    ensures r.Ok? ==> r.value == s.(portfolios := s.portfolios[i := p])
    ensures r.Err? ==> r.error == SchemaRejected
  {
    if Valid(p, validUrl) then Ok(s.(portfolios := s.portfolios[i := p])) else Err(SchemaRejected)
  }

  /** GET /api/portfolios: the requester's own portfolio. */
  function GetPortfolio(s: Store, requester: Id): (r: Result<Portfolio>)
    ensures r.Ok? <==> OwnsPortfolio(s, requester)
    ensures r.Ok? ==> r.value in s.portfolios && r.value.user == requester
    // `findOne` answers with the first of the requester's records in store order
    ensures r.Ok? ==> r.value == s.portfolios[PortfolioOfOwner(s, requester).value]
    ensures r.Err? ==> r.error == PortfolioNotFound
  {
    match PortfolioOfOwner(s, requester)
    case None => Err(PortfolioNotFound)
    case Some(i) => Ok(s.portfolios[i])
  }

  /** GET /api/portfolios/public/:username. The lookup casts the username
      through the schema's trim setter, as the stored one is. */
  function GetPublicPortfolio(s: Store, username: string, validUrl: UrlCheck): (r: Result<Reply<PublicView>>)
    // no such user: an empty payload, not an error
    ensures UserByUsername(s, Trim(username)).None? ==> r == Ok(Reply(s, PublicView(None, [])))
    // a user without a portfolio: no portfolio, and exactly that user's projects
    ensures UserByUsername(s, Trim(username)).Some? ==>
      var uid := s.users[UserByUsername(s, Trim(username)).value].id;
      PortfolioOfOwner(s, uid).None? ==> r == Ok(Reply(s, PublicView(None, ProjectsOf(s, uid))))
    // a private portfolio is refused before the counter moves
    ensures UserByUsername(s, Trim(username)).Some? ==>
      var uid := s.users[UserByUsername(s, Trim(username)).value].id;
      PortfolioOfOwner(s, uid).Some? && !s.portfolios[PortfolioOfOwner(s, uid).value].isPublic ==>
      r == Err(PrivatePortfolio)
    // a public one is returned with its views one higher, nothing else changed
    ensures UserByUsername(s, Trim(username)).Some? ==>
      var uid := s.users[UserByUsername(s, Trim(username)).value].id;
      PortfolioOfOwner(s, uid).Some? ==>
      var i := PortfolioOfOwner(s, uid).value;
      var p := s.portfolios[i];
      var p' := p.(views := p.views + 1);
      p.isPublic ==>
      r == if Valid(p', validUrl) then Ok(Reply(s.(portfolios := s.portfolios[i := p']), PublicView(Some(p'), ProjectsOf(s, uid))))
           else Err(SchemaRejected)
    ensures r.Err? ==> r.error in {PrivatePortfolio, SchemaRejected}
  {
    match UserByUsername(s, Trim(username))
    case None => Ok(Reply(s, PublicView(None, [])))
    case Some(u) =>
      var uid := s.users[u].id;
      var projects := ProjectsOf(s, uid);
      match PortfolioOfOwner(s, uid)
      case None => Ok(Reply(s, PublicView(None, projects)))
      case Some(i) =>
        var p := s.portfolios[i];
        if !p.isPublic then Err(PrivatePortfolio)
        else
          var counted := p.(views := p.views + 1);
          var s' :- Save(s, i, counted, validUrl);
          Ok(Reply(s', PublicView(Some(counted), projects)))
  }

  /** POST /api/portfolios: refused when the requester already owns one;
      otherwise `{ user: requester, ...body }` with schema defaults is
      validated and appended. */
  function CreatePortfolio(s: Store, requester: Id, body: PortfolioBody, freshId: Id, validUrl: UrlCheck)
    : (r: Result<Reply<Portfolio>>)
    requires FreshPortfolioId(s, freshId)
    ensures OwnsPortfolio(s, requester) ==> r == Err(AlreadyExists)
    ensures r.Err? ==> r.error in {AlreadyExists, SchemaRejected}
    ensures !OwnsPortfolio(s, requester) ==>
      (r.Ok? <==> Valid(NewPortfolio(freshId, requester, body), validUrl))
    ensures r.Ok? ==>
      && r.value.store == s.(portfolios := s.portfolios + [r.value.body])
      && r.value.body == NewPortfolio(freshId, requester, body)
  {
    if OwnsPortfolio(s, requester) then Err(AlreadyExists)
    else
      var p := NewPortfolio(freshId, requester, body);
      if !Valid(p, validUrl) then Err(SchemaRejected)
      else Ok(Reply(s.(portfolios := s.portfolios + [p]), p))
  }

  /** PUT /api/portfolios/:id. A record with that id must belong to the
      requester; when no record has that id the requester's own portfolio is
      updated instead. The update overwrites the supplied keys without running
      the schema validators, and never creates a record. */
  function UpdatePortfolio(s: Store, requester: Id, id: Id, body: PortfolioBody): (r: Result<Reply<Portfolio>>)
    ensures PortfolioById(s, id).Some? ==>
      var i := PortfolioById(s, id).value;
      if s.portfolios[i].user != requester then r == Err(NotOwner)
      else r == Ok(Reply(s.(portfolios := s.portfolios[i := ApplyBody(s.portfolios[i], body)]),
                         ApplyBody(s.portfolios[i], body)))
    ensures PortfolioById(s, id).None? ==>
      if !OwnsPortfolio(s, requester) then r == Err(PortfolioNotFound)
      else
        var j := PortfolioOfOwner(s, requester).value;
        r == Ok(Reply(s.(portfolios := s.portfolios[j := ApplyBody(s.portfolios[j], body)]),
                      ApplyBody(s.portfolios[j], body)))
    ensures r.Ok? ==> |r.value.store.portfolios| == |s.portfolios|
  {
    match PortfolioById(s, id)
    case Some(i) =>
      var p := s.portfolios[i];
      if p.user != requester then Err(NotOwner)
      else
        var updated := ApplyBody(p, body);
        Ok(Reply(s.(portfolios := s.portfolios[i := updated]), updated))
    case None =>
      match PortfolioOfOwner(s, requester)
      case None => Err(PortfolioNotFound)
      case Some(j) =>
        var updated := ApplyBody(s.portfolios[j], body);
        Ok(Reply(s.(portfolios := s.portfolios[j := updated]), updated))
  }

  /** PUT /api/portfolios/theme: a missing theme is refused before the lookup;
      only `theme` changes, and the save validates it against the enumeration. */
  function UpdateTheme(s: Store, requester: Id, theme: string, validUrl: UrlCheck): (r: Result<Reply<Portfolio>>)
    ensures theme == "" ==> r == Err(ThemeMissing)
    ensures theme != "" && !OwnsPortfolio(s, requester) ==> r == Err(PortfolioNotFound)
    ensures r.Ok? ==>
      var j := PortfolioOfOwner(s, requester).value;
      && r.value.body == s.portfolios[j].(theme := theme)
      && r.value.store == s.(portfolios := s.portfolios[j := r.value.body])
      && theme in Themes
    ensures (theme in Themes && OwnsPortfolio(s, requester)
             && Valid(s.portfolios[PortfolioOfOwner(s, requester).value], validUrl)) ==> r.Ok?
    // the save runs the schema over the whole record, with the new theme in place
    ensures theme != "" && OwnsPortfolio(s, requester) ==>
      var p := s.portfolios[PortfolioOfOwner(s, requester).value];
      r.Ok? <==> Valid(p.(theme := theme), validUrl)
    ensures r.Err? ==> r.error in {ThemeMissing, PortfolioNotFound, SchemaRejected}
  {
    if theme == "" then Err(ThemeMissing)
    else
      match PortfolioOfOwner(s, requester)
      case None => Err(PortfolioNotFound)
      case Some(j) =>
        var updated := s.portfolios[j].(theme := theme);
        var s' :- Save(s, j, updated, validUrl);
        Ok(Reply(s', updated))
  }

  /** PUT /api/portfolios/customization: a shallow merge of the body over the
      current customization; nothing outside `customization` changes. */
  function UpdateCustomization(s: Store, requester: Id, patch: CustomizationPatch, validUrl: UrlCheck)
    : (r: Result<Reply<Portfolio>>)
    ensures !OwnsPortfolio(s, requester) ==> r == Err(PortfolioNotFound)
    ensures r.Ok? ==>
      var j := PortfolioOfOwner(s, requester).value;
      var p := s.portfolios[j];
      && r.value.body == p.(customization := MergeCustomization(p.customization, patch))
      && r.value.store == s.(portfolios := s.portfolios[j := r.value.body])
    // the save runs the schema over the whole record, so a bad layout or spacing is refused
    ensures OwnsPortfolio(s, requester) ==>
      var p := s.portfolios[PortfolioOfOwner(s, requester).value];
      r.Ok? <==> Valid(p.(customization := MergeCustomization(p.customization, patch)), validUrl)
    ensures r.Err? ==> r.error in {PortfolioNotFound, SchemaRejected}
  {
    match PortfolioOfOwner(s, requester)
    case None => Err(PortfolioNotFound)
    case Some(j) =>
      var p := s.portfolios[j];
      var updated := p.(customization := MergeCustomization(p.customization, patch));
      var s' :- Save(s, j, updated, validUrl);
      Ok(Reply(s', updated))
  }

  // ---- properties across several requests ----

  /** The public portfolio of `username` is stored at index `i`. */
  predicate PublicAt(s: Store, username: string, i: nat) {
    && UserByUsername(s, Trim(username)).Some?
    && PortfolioOfOwner(s, s.users[UserByUsername(s, Trim(username)).value].id) == Some(i)
    && s.portfolios[i].isPublic
  }

  /** `n` public page loads in a row; the first refusal stops the sequence. */
  function PublicReads(s: Store, username: string, n: nat, validUrl: UrlCheck): Result<Store>
    decreases n
  {
    if n == 0 then Ok(s)
    else
      var rep :- GetPublicPortfolio(s, username, validUrl);
      PublicReads(rep.store, username, n - 1, validUrl)
  }

  /** Replacing a portfolio by one with the same owner moves no owner lookup. */
  lemma {:induction false} SameOwnerKeepsOwnerLookup(s: Store, i: nat, p: Portfolio, owner: Id)
    requires i < |s.portfolios| && p.user == s.portfolios[i].user
    ensures PortfolioOfOwner(s.(portfolios := s.portfolios[i := p]), owner) == PortfolioOfOwner(s, owner)
  {
    var s' := s.(portfolios := s.portfolios[i := p]);
    assert forall k :: 0 <= k < |s.portfolios| ==> s'.portfolios[k].user == s.portfolios[k].user;
    var a, b := PortfolioOfOwner(s', owner), PortfolioOfOwner(s, owner);
    if a.Some? && b.Some? {
      assert !(a.value < b.value) && !(b.value < a.value);
    }
  }

  /** Sending the same customization update twice leaves what the first one stored. */
  lemma {:induction false} CustomizeTwice(s: Store, requester: Id, patch: CustomizationPatch, validUrl: UrlCheck)
    requires UpdateCustomization(s, requester, patch, validUrl).Ok?
    ensures var rep := UpdateCustomization(s, requester, patch, validUrl).value;
      UpdateCustomization(rep.store, requester, patch, validUrl) == Ok(rep)
  {
    var rep := UpdateCustomization(s, requester, patch, validUrl).value;
    var j := PortfolioOfOwner(s, requester).value;
    SameOwnerKeepsOwnerLookup(s, j, rep.body, requester);
    assert rep.store.portfolios[j := rep.body] == rep.store.portfolios;
  }

  /** The store after `n` counted loads of the portfolio at index `i`. */
  function Counted(s: Store, i: nat, n: nat): Store
    requires i < |s.portfolios|
  {
    s.(portfolios := s.portfolios[i := s.portfolios[i].(views := s.portfolios[i].views + n)])
  }

  /** Counting a view keeps the portfolio public and at its place. */
  lemma {:induction false} CountedStaysPublic(s: Store, username: string, i: nat)
    requires PublicAt(s, username, i)
    ensures PublicAt(Counted(s, i, 1), username, i)
  {
    var uid := s.users[UserByUsername(s, Trim(username)).value].id;
    SameOwnerKeepsOwnerLookup(s, i, s.portfolios[i].(views := s.portfolios[i].views + 1), uid);
  }

  /** One load of a public, valid portfolio succeeds and counts one view. */
  lemma {:induction false} OnePublicRead(s: Store, username: string, i: nat, validUrl: UrlCheck)
    requires PublicAt(s, username, i)
    requires Valid(s.portfolios[i], validUrl)
    ensures GetPublicPortfolio(s, username, validUrl).Ok?
    ensures GetPublicPortfolio(s, username, validUrl).value.store == Counted(s, i, 1)
  {
  }

  /** A run of loads is its first load followed by the rest. */
  lemma {:induction false} ReadsStep(s: Store, username: string, n: nat, validUrl: UrlCheck)
    requires n > 0
    requires GetPublicPortfolio(s, username, validUrl).Ok?
    ensures PublicReads(s, username, n, validUrl)
         == PublicReads(GetPublicPortfolio(s, username, validUrl).value.store, username, n - 1, validUrl)
  {
  }

  /** One counted view followed by `n - 1` is `n`. */
  lemma {:induction false} CountedTwice(s: Store, i: nat, n: nat)
    requires i < |s.portfolios| && n > 0
    ensures Counted(Counted(s, i, 1), i, n - 1) == Counted(s, i, n)
  {
    var q := s.portfolios[i].(views := s.portfolios[i].views + n);
    assert Counted(s, i, 1).portfolios[i := q] == s.portfolios[i := q];
  }

  /** `n` loads are one load followed by `n - 1` from the counted store, where
      the portfolio is still public and valid. */
  lemma {:induction false} FirstRead(s: Store, username: string, i: nat, n: nat, validUrl: UrlCheck)
    requires PublicAt(s, username, i)
    requires Valid(s.portfolios[i], validUrl)
    requires n > 0
    ensures PublicReads(s, username, n, validUrl) == PublicReads(Counted(s, i, 1), username, n - 1, validUrl)
    ensures Counted(Counted(s, i, 1), i, n - 1) == Counted(s, i, n)
    ensures PublicAt(Counted(s, i, 1), username, i)
    ensures Valid(Counted(s, i, 1).portfolios[i], validUrl)
  {
    CountedStaysPublic(s, username, i);
    ValidIgnoresViews(s.portfolios[i], s.portfolios[i].views + 1, validUrl);
    OnePublicRead(s, username, i, validUrl);
    ReadsStep(s, username, n, validUrl);
    CountedTwice(s, i, n);
  }

  /** The loads after the first one, from the counted store `c`. */
  lemma {:induction false} LaterReads(c: Store, username: string, i: nat, n: nat, validUrl: UrlCheck)
    requires n > 0
    requires PublicAt(c, username, i)
    requires Valid(c.portfolios[i], validUrl)
    ensures PublicReads(c, username, n - 1, validUrl) == Ok(Counted(c, i, n - 1))
    decreases n, 0
  {
    var m: nat := n - 1;
    PublicReadsCountViews(c, username, i, m, validUrl);
    assert PublicReads(c, username, m, validUrl) == Ok(Counted(c, i, m));
  }

  /** Each of `n` loads of a public, valid portfolio adds exactly one view and
      changes nothing else in the store. */
  lemma {:induction false} PublicReadsCountViews(s: Store, username: string, i: nat, n: nat, validUrl: UrlCheck)
    requires PublicAt(s, username, i)
    requires Valid(s.portfolios[i], validUrl)
    ensures PublicReads(s, username, n, validUrl) == Ok(Counted(s, i, n))
    decreases n, 1
  {
    if n == 0 {
      assert s.portfolios[i := s.portfolios[i]] == s.portfolios;
    } else {
      FirstRead(s, username, i, n, validUrl);
      LaterReads(Counted(s, i, 1), username, i, n, validUrl);
    }
  }

  /** A private portfolio is refused on every load, and its count never moves. */
  lemma PrivateNeverCounted(s: Store, username: string, i: nat, validUrl: UrlCheck)
    requires UserByUsername(s, Trim(username)).Some?
    requires PortfolioOfOwner(s, s.users[UserByUsername(s, Trim(username)).value].id) == Some(i)
    requires !s.portfolios[i].isPublic
    ensures GetPublicPortfolio(s, username, validUrl) == Err(PrivatePortfolio)
  {
  }

  /** Once a create has succeeded for its own owner, the next create by the
      same requester is refused. */
  lemma {:induction false} CreateOnce(s: Store, requester: Id, body: PortfolioBody, freshId: Id, body2: PortfolioBody,
                                      freshId2: Id, validUrl: UrlCheck)
    requires FreshPortfolioId(s, freshId)
    requires body.user.None? || body.user.value == requester
    requires CreatePortfolio(s, requester, body, freshId, validUrl).Ok?
    requires FreshPortfolioId(CreatePortfolio(s, requester, body, freshId, validUrl).value.store, freshId2)
    ensures var s' := CreatePortfolio(s, requester, body, freshId, validUrl).value.store;
      CreatePortfolio(s', requester, body2, freshId2, validUrl) == Err(AlreadyExists)
  {
    var rep := CreatePortfolio(s, requester, body, freshId, validUrl).value;
    var s' := rep.store;
    assert s'.portfolios[|s.portfolios|] == rep.body;
    assert OwnsPortfolio(s', requester);
  }

  /** A `user` key in the create body overrides the requester: the record goes
      to that user, and the requester can create again. */
  lemma {:induction false} CreateBodyUserOverrides(s: Store, requester: Id, other: Id, body: PortfolioBody,
                                                   freshId: Id, validUrl: UrlCheck)
    requires FreshPortfolioId(s, freshId)
    requires !OwnsPortfolio(s, requester)
    requires body.user == Some(other) && other != requester
    requires CreatePortfolio(s, requester, body, freshId, validUrl).Ok?
    ensures var rep := CreatePortfolio(s, requester, body, freshId, validUrl).value;
      && rep.body.user == other
      && !OwnsPortfolio(rep.store, requester)
  {
    var rep := CreatePortfolio(s, requester, body, freshId, validUrl).value;
    forall k | 0 <= k < |rep.store.portfolios| ensures rep.store.portfolios[k].user != requester {
      if k < |s.portfolios| {
        assert rep.store.portfolios[k] == s.portfolios[k];
      }
    }
  }

  /** The update path runs no validators: an owner can store a theme outside
      the enumeration, which a later save would reject. */
  lemma UpdateSkipsValidation(s: Store, requester: Id, id: Id, validUrl: UrlCheck)
    requires OwnsPortfolio(s, requester)
    requires FreshPortfolioId(s, id)
    ensures var r := UpdatePortfolio(s, requester, id, EmptyBody.(theme := Some("blue")));
      && r.Ok?
      && r.value.body.theme == "blue"
      && !Valid(r.value.body, validUrl)
  {
    assert "blue" != "light" && "blue" != "dark";
  }

  /** The enum validator refuses the empty string: a customization update
      that empties the layout fails at the save. */
  lemma EmptyLayoutRefused(s: Store, requester: Id, validUrl: UrlCheck)
    requires OwnsPortfolio(s, requester)
    ensures UpdateCustomization(s, requester, CustomizationPatch(None, None, None, Some(""), None), validUrl)
         == Err(SchemaRejected)
  {
  }

  /** A portfolio created with an empty theme is refused. */
  lemma EmptyThemeNotCreated(s: Store, requester: Id, body: PortfolioBody, freshId: Id, validUrl: UrlCheck)
    requires FreshPortfolioId(s, freshId)
    requires body.theme == Some("")
    ensures CreatePortfolio(s, requester, body, freshId, validUrl).Err?
  {
  }

  /** A record left invalid only by a theme the update path stored is repaired
      by a theme update with an allowed value. */
  lemma ThemeRepairs(s: Store, requester: Id, id: Id, validUrl: UrlCheck)
    requires FreshPortfolioId(s, id)
    requires OwnsPortfolio(s, requester)
    requires Valid(s.portfolios[PortfolioOfOwner(s, requester).value], validUrl)
    ensures var s' := UpdatePortfolio(s, requester, id, EmptyBody.(theme := Some("blue"))).value.store;
      UpdateTheme(s', requester, "dark", validUrl).Ok?
  {
    var j := PortfolioOfOwner(s, requester).value;
    UpdateSkipsValidation(s, requester, id, validUrl);
    var rep := UpdatePortfolio(s, requester, id, EmptyBody.(theme := Some("blue"))).value;
    SameOwnerKeepsOwnerLookup(s, j, rep.body, requester);
    assert rep.body.(theme := "dark") == s.portfolios[j].(theme := "dark");
  }

  /** The update body may name another owner: the record then leaves the
      requester's hands. */
  lemma UpdateTransfersOwnership(s: Store, requester: Id, id: Id, other: Id)
    requires PortfolioById(s, id).Some? && s.portfolios[PortfolioById(s, id).value].user == requester
    ensures var r := UpdatePortfolio(s, requester, id, EmptyBody.(user := Some(other)));
      && r.Ok?
      && r.value.body.user == other
      && r.value.store.portfolios[PortfolioById(s, id).value].user == other
  {
  }
}
