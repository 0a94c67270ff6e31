/** The portfolio editor page: its form state, the client-side checks for a
    new experience, a new certification and the contact section, the list
    edits, the skills input, hydration from the stored portfolio, the payload
    the save button sends, and taking over a gallery template. */
module PortfolioEditor {
  import opened Common
  import opened Seqs
  import opened Text
  import opened Patterns
  import opened PortfolioModel
  import opened TemplateSelector

  /** The editor's form. The hero, about, contact and customization sections
      have the stored portfolio's shape. */
  datatype Form = Form(
    hero: Hero,
    about: About,
    experience: seq<Experience>,
    certifications: seq<Certification>,
    contact: Contact,
    customization: Customization,
    theme: string,
    isPublic: bool,
    template: string)

  const InitialForm := Form(DefaultHero, DefaultAbout, [], [], EmptyContact, DefaultCustomization, "", true, "modern")

  /** The "new experience" inputs; responsibilities and technologies are the
      raw text of their inputs (one per line, and comma-separated). */
  datatype ExperienceDraft = ExperienceDraft(
    title: string,
    company: string,
    location: string,
    startDate: Option<Day>,
    endDate: Option<Day>,
    current: bool,
    description: string,
    responsibilities: string,
    technologies: string)

  const EmptyExperienceDraft := ExperienceDraft("", "", "", None, None, false, "", "", "")
  const EmptyCertificationDraft := Certification("", "", None, None, "", "", "")

  /** The inputs an error message can be attached to. */
  datatype Field =
    | Title | Company | StartDate | EndDate | Description
    | Name | Issuer | IssueDate | ExpiryDate | CredentialUrl
    | Email | Linkedin | Github | Phone | Location

  type Errors = map<Field, string>

  /** `errors` with `message` under `f` when `failed`. */
  function Flag(errors: Errors, failed: bool, f: Field, message: string): (r: Errors)
    ensures r.Keys == if failed then errors.Keys + {f} else errors.Keys
  {
    if failed then errors[f := message] else errors
  }

  /** An end date that is set and lies before a set start date. */
  predicate Before(later: Option<Day>, earlier: Option<Day>) {
    later.Some? && earlier.Some? && later.value < earlier.value
  }

  // ---- client-side checks ----

  function ValidateExperience(d: ExperienceDraft): (errors: Errors)
    ensures Title in errors <==> |d.title| < 2
    ensures Company in errors <==> |d.company| < 2
    ensures StartDate in errors <==> d.startDate.None?
    ensures EndDate in errors <==> Before(d.endDate, d.startDate)
    ensures Description in errors <==> |d.description| > 500
    ensures errors.Keys <= {Title, Company, StartDate, EndDate, Description}
  {
    var e := Flag(map[], |d.title| < 2, Title, "Title is required (min 2 chars)");
    var e := Flag(e, |d.company| < 2, Company, "Company is required (min 2 chars)");
    var e := Flag(e, d.startDate.None?, StartDate, "Start date is required");
    var e := Flag(e, Before(d.endDate, d.startDate), EndDate, "End date must be after start date");
    Flag(e, |d.description| > 500, Description, "Description max 500 chars")
  }

  function ValidateCertification(c: Certification, validUrl: UrlCheck): (errors: Errors)
    ensures Name in errors <==> |c.name| < 2
    ensures Issuer in errors <==> |c.issuer| < 2
    ensures IssueDate in errors <==> c.issueDate.None?
    ensures ExpiryDate in errors <==> Before(c.expiryDate, c.issueDate)
    ensures CredentialUrl in errors <==> c.credentialUrl != "" && !validUrl(c.credentialUrl)
    ensures Description in errors <==> |c.description| > 500
    ensures errors.Keys <= {Name, Issuer, IssueDate, ExpiryDate, CredentialUrl, Description}
  {
    var e := Flag(map[], |c.name| < 2, Name, "Name is required (min 2 chars)");
    var e := Flag(e, |c.issuer| < 2, Issuer, "Issuer is required (min 2 chars)");
    var e := Flag(e, c.issueDate.None?, IssueDate, "Issue date is required");
    var e := Flag(e, Before(c.expiryDate, c.issueDate), ExpiryDate, "Expiry must be after issue date");
    var e := Flag(e, c.credentialUrl != "" && !validUrl(c.credentialUrl), CredentialUrl, "Invalid URL");
    Flag(e, |c.description| > 500, Description, "Description max 500 chars")
  }

  function ValidateContact(c: Contact, validUrl: UrlCheck): (errors: Errors)
    ensures Email in errors <==> c.email == "" || !LooseEmail(c.email)
    ensures Linkedin in errors <==> c.linkedin != "" && !validUrl(c.linkedin)
    ensures Github in errors <==> c.github != "" && !validUrl(c.github)
    ensures Phone in errors <==> c.phone != "" && !TenDigits(c.phone)
    ensures Location in errors <==> |c.location| > 100
    ensures errors.Keys <= {Email, Linkedin, Github, Phone, Location}
  {
    var badEmail := c.email == "" || !LooseEmail(c.email);
    var badPhone := c.phone != "" && !TenDigits(c.phone);
    var e := Flag(map[], badEmail, Email, "Valid email required");
    var e := Flag(e, c.linkedin != "" && !validUrl(c.linkedin), Linkedin, "Invalid URL");
    var e := Flag(e, c.github != "" && !validUrl(c.github), Github, "Invalid URL");
    var e := Flag(e, badPhone, Phone, "Phone must be exactly 10 digits");
    Flag(e, |c.location| > 100, Location, "Location max 100 chars")
  }

  /** The certification check accepts exactly what the schema accepts. */
  lemma CertificationCheckMatchesSchema(c: Certification, validUrl: UrlCheck)
    ensures ValidateCertification(c, validUrl) == map[] <==> ValidCertification(c, validUrl)
  {
    var e := ValidateCertification(c, validUrl);
    if ValidCertification(c, validUrl) {
      assert forall f :: f !in e;
    } else {
      assert e != map[] by {
        if |c.name| < 2 { assert Name in e; }
        else if |c.issuer| < 2 { assert Issuer in e; }
        else if c.issueDate.None? { assert IssueDate in e; }
        else if !NotBefore(c.expiryDate, c.issueDate) { assert ExpiryDate in e; }
        else if !OptionalUrl(c.credentialUrl, validUrl) { assert CredentialUrl in e; }
        else { assert Description in e; }
      }
    }
  }

  /** The contact check accepts exactly what the schema accepts. */
  lemma ContactCheckMatchesSchema(c: Contact, validUrl: UrlCheck)
    ensures ValidateContact(c, validUrl) == map[] <==> ValidContact(c, validUrl)
  {
    var e := ValidateContact(c, validUrl);
    if ValidContact(c, validUrl) {
      assert forall f :: f !in e;
    } else {
      assert e != map[] by {
        if c.email == "" || !LooseEmail(c.email) { assert Email in e; }
        else if !OptionalUrl(c.linkedin, validUrl) { assert Linkedin in e; }
        else if !OptionalUrl(c.github, validUrl) { assert Github in e; }
        else if !(c.phone == "" || TenDigits(c.phone)) { assert Phone in e; }
        else { assert Location in e; }
      }
    }
  }

  // ---- list edits ----

  /** Non-blank lines, kept as typed (`split('\n').filter(r => r.trim())`). */
  function Responsibilities(text: string): (r: seq<string>)
    ensures forall k :: 0 <= k < |r| ==> Trim(r[k]) != [] && '\n' !in r[k]
  {
    FilterMembers(Split(text, '\n'), (line: string) => Trim(line) != []);
    Filter(Split(text, '\n'), (line: string) => Trim(line) != [])
  }

  /** Comma-separated items, trimmed, empty ones dropped. */
  function Technologies(text: string): (r: seq<string>)
    ensures forall k :: 0 <= k < |r| ==> r[k] != [] && !IsSpace(r[k][0]) && !IsSpace(r[k][|r[k]| - 1])
  {
    FilterMembers(SplitTrim(text, ','), (t: string) => t != []);
    Filter(SplitTrim(text, ','), (t: string) => t != [])
  }

  /** The entry `addExperience` appends: the draft's fields with the two
      lists parsed from their text. */
  function ToExperience(d: ExperienceDraft): (e: Experience)
    ensures e.title == d.title && e.company == d.company && e.location == d.location
    ensures e.startDate == d.startDate && e.endDate == d.endDate && e.current == d.current
    ensures e.description == d.description
    ensures e.responsibilities == Responsibilities(d.responsibilities)
    ensures e.technologies == Technologies(d.technologies)
  {
    Experience(d.title, d.company, d.location, d.startDate, d.endDate, d.current, d.description,
               Responsibilities(d.responsibilities), Technologies(d.technologies))
  }

  /** The outcome of an add button: the form, the draft left in the inputs,
      and the errors shown. */
  datatype Added<D> = Added(form: Form, draft: D, errors: Errors)

  function AddExperience(form: Form, d: ExperienceDraft): (r: Added<ExperienceDraft>)
    ensures r.errors == ValidateExperience(d)
    ensures r.errors != map[] ==> r.form == form && r.draft == d
    ensures r.errors == map[] ==>
      && r.form == form.(experience := form.experience + [ToExperience(d)])
      && r.draft == EmptyExperienceDraft
  {
    var errors := ValidateExperience(d);
    if errors != map[] then Added(form, d, errors)
    else Added(form.(experience := form.experience + [ToExperience(d)]), EmptyExperienceDraft, errors)
  }

  function AddCertification(form: Form, c: Certification, validUrl: UrlCheck): (r: Added<Certification>)
    ensures r.errors == ValidateCertification(c, validUrl)
    ensures r.errors != map[] ==> r.form == form && r.draft == c
    ensures r.errors == map[] ==>
      && r.form == form.(certifications := form.certifications + [c])
      && r.draft == EmptyCertificationDraft
  {
    var errors := ValidateCertification(c, validUrl);
    if errors != map[] then Added(form, c, errors)
    else Added(form.(certifications := form.certifications + [c]), EmptyCertificationDraft, errors)
  }

  function RemoveExperience(form: Form, index: int): (r: Form)
    ensures 0 <= index < |form.experience| ==>
      r == form.(experience := form.experience[..index] + form.experience[index + 1..])
    ensures !(0 <= index < |form.experience|) ==> r == form
  {
    form.(experience := WithoutIndex(form.experience, index))
  }

  function RemoveCertification(form: Form, index: int): (r: Form)
    ensures 0 <= index < |form.certifications| ==>
      r == form.(certifications := form.certifications[..index] + form.certifications[index + 1..])
    ensures !(0 <= index < |form.certifications|) ==> r == form
  {
    form.(certifications := WithoutIndex(form.certifications, index))
  }

  /** An accepted experience satisfies the schema, provided its location is
      short enough: the client never looks at the location. */
  lemma {:induction false} AcceptedExperienceIsValid(d: ExperienceDraft)
    requires ValidateExperience(d) == map[]
    requires |d.location| <= 100
    ensures ValidExperience(ToExperience(d))
  {
    assert Title !in ValidateExperience(d);
    assert Company !in ValidateExperience(d);
    assert StartDate !in ValidateExperience(d);
    assert EndDate !in ValidateExperience(d);
    assert Description !in ValidateExperience(d);
  }

  /** A schema-valid entry passes the client check. */
  lemma ValidExperiencePasses(d: ExperienceDraft)
    requires ValidExperience(ToExperience(d))
    ensures ValidateExperience(d) == map[]
  {
    assert forall f :: f !in ValidateExperience(d);
  }

  /** A 101-character location passes the client check and fails the schema. */
  lemma LongLocationSlipsThrough(d: ExperienceDraft)
    requires ValidateExperience(d) == map[]
    requires |d.location| == 101
    ensures !ValidExperience(ToExperience(d))
  {
  }

  /** Removing the entry just added gives the form back. */
  lemma {:induction false} AddThenRemoveExperience(form: Form, d: ExperienceDraft)
    requires ValidateExperience(d) == map[]
    ensures RemoveExperience(AddExperience(form, d).form, |form.experience|) == form
  {
    var f := AddExperience(form, d).form;
    var n := |form.experience|;
    assert f.experience[..n] + f.experience[n + 1..] == form.experience;
  }

  lemma {:induction false} AddThenRemoveCertification(form: Form, c: Certification, validUrl: UrlCheck)
    requires ValidateCertification(c, validUrl) == map[]
    ensures RemoveCertification(AddCertification(form, c, validUrl).form, |form.certifications|) == form
  {
    var f := AddCertification(form, c, validUrl).form;
    var n := |form.certifications|;
    assert f.certifications[..n] + f.certifications[n + 1..] == form.certifications;
  }

  /** Technologies typed as `items.join(", ")` are read back as the items,
      when each is non-empty, trimmed and free of commas; no items read back
      as none. */
  lemma {:induction false} TechnologiesRoundTrip(items: seq<string>)
    requires forall k :: 0 <= k < |items| ==> items[k] != [] && ',' !in items[k] && Trim(items[k]) == items[k]
    ensures Technologies(Join(items, ", ")) == items
  {
    if |items| == 0 {
      assert Split("", ',') == [""];
      assert SplitTrim("", ',') == [Trim("")];
    } else {
      SplitTrimJoin(items);
      FilterKeepsAll(items, (t: string) => t != []);
    }
  }

  /** Responsibilities typed one per line are read back as the lines, when
      none is blank; no lines read back as none. */
  lemma {:induction false} ResponsibilitiesRoundTrip(lines: seq<string>)
    requires forall k :: 0 <= k < |lines| ==> '\n' !in lines[k] && Trim(lines[k]) != []
    ensures Responsibilities(Join(lines, "\n")) == lines
  {
    var p := (line: string) => Trim(line) != [];
    if |lines| == 0 {
      assert Split("", '\n') == [""];
      assert !p("");
    } else {
      SplitJoin(lines, '\n');
      FilterKeepsAll(lines, p);
    }
  }

  // ---- skills ----

  /** The skills input: `split(',').map(s => s.trim())`, empty items kept. */
  function HandleSkillsChange(form: Form, text: string): (r: Form)
    ensures r == form.(about := form.about.(skills := SplitTrim(text, ',')))
    ensures |r.about.skills| >= 1
  {
    form.(about := form.about.(skills := SplitTrim(text, ',')))
  }

  /** The input shows `skills.join(', ')`; reading that text back gives the
      same skills, when there is at least one and none is blank-padded or
      holds a comma. */
  lemma {:induction false} SkillsRoundTrip(form: Form)
    requires |form.about.skills| >= 1
    requires forall k :: 0 <= k < |form.about.skills| ==>
      ',' !in form.about.skills[k] && Trim(form.about.skills[k]) == form.about.skills[k]
    ensures HandleSkillsChange(form, Join(form.about.skills, ", ")) == form
  {
    SplitTrimJoin(form.about.skills);
  }

  /** Clearing the skills input leaves one empty skill, not an empty list. */
  lemma ClearedSkillsInput(form: Form)
    ensures HandleSkillsChange(form, "").about.skills == [""]
  {
    assert Split("", ',') == [""];
  }

  // ---- hydration and the save payload ----

  /** The background as both hydration and save rebuild it: every string key
      falls back to its schema default. */
  function FilledBackground(b: Background, overlay: Option<bool>, overlayOpacity: Option<real>): (r: Background)
    ensures r.kind == Or(b.kind, "color") && r.color == Or(b.color, "#808080") && r.image == b.image
    ensures r.gradient == Gradient(Or(b.gradient.from, "#4F3B78"), Or(b.gradient.to, "#6B4F9E"),
                                   Or(b.gradient.direction, "to bottom"))
    ensures r.overlay == overlay && r.overlayOpacity == overlayOpacity
  {
    Background(Or(b.kind, "color"), Or(b.color, "#808080"),
               Gradient(Or(b.gradient.from, "#4F3B78"), Or(b.gradient.to, "#6B4F9E"),
                        Or(b.gradient.direction, "to bottom")),
               b.image, overlay, overlayOpacity)
  }

  /** The form after the stored portfolio arrives: hero keys the portfolio
      leaves empty keep the form's value, the background is rebuilt with `??`
      for the overlay keys, theme and template fall back to the form's, and
      the other sections are taken whole. */
  function Hydrate(prev: Form, p: Portfolio): (r: Form)
    ensures r.about == p.about && r.experience == p.experience && r.certifications == p.certifications
    ensures r.contact == p.contact && r.customization == p.customization && r.isPublic == p.isPublic
    ensures r.theme == Or(p.theme, prev.theme) && r.template == Or(p.template, prev.template)
    ensures r.hero.title == Or(p.hero.title, prev.hero.title)
    ensures r.hero.background.overlay == Some(p.hero.background.overlay.GetOr(true))
    ensures r.hero.background.overlayOpacity == Some(p.hero.background.overlayOpacity.GetOr(0.5))
  {
    var b := p.hero.background;
    Form(
      Hero(Or(p.hero.title, prev.hero.title), Or(p.hero.subtitle, prev.hero.subtitle),
           FilledBackground(b, Some(b.overlay.GetOr(true)), Some(b.overlayOpacity.GetOr(0.5))),
           Or(p.hero.ctaText, prev.hero.ctaText), Or(p.hero.ctaLink, prev.hero.ctaLink)),
      p.about, p.experience, p.certifications, p.contact, p.customization,
      Or(p.theme, prev.theme), p.isPublic, Or(p.template, prev.template))
  }

  /** `opacity || 0.5`: an absent or zero opacity becomes one half. */
  function OpacityOr(o: Option<real>): (r: real)
    ensures o.Some? && o.value != 0.0 ==> r == o.value
    ensures (o.None? || o.value == 0.0) ==> r == 0.5
  {
    if o.Some? && o.value != 0.0 then o.value else 0.5
  }

  /** The update body the save button sends for the signed-in user. */
  function SavePayload(form: Form, userName: string, userEmail: string): (b: PortfolioBody)
    ensures b.user.None? && b.views.None? && b.testimonials.None? && b.customDomain.None?
    ensures b.experience == Some(form.experience) && b.certifications == Some(form.certifications)
    ensures b.isPublic == Some(form.isPublic)
    ensures b.theme == Some(Or(form.theme, "light")) && b.template == Some(Or(form.template, "modern"))
    ensures b.hero.Some? && b.hero.value.background.overlay == Some(true)
    ensures b.hero.Some? && b.hero.value.background.overlayOpacity == Some(OpacityOr(form.hero.background.overlayOpacity))
    ensures b.hero.Some? && b.hero.value.title == Or(form.hero.title, userName + "'s Portfolio")
    ensures b.contact.Some? && b.contact.value == form.contact.(email := Or(form.contact.email, userEmail))
  {
    var h := form.hero;
    var c := form.customization;
    EmptyBody.(
      hero := Some(Hero(Or(h.title, userName + "'s Portfolio"), Or(h.subtitle, "Welcome to my portfolio"),
                        FilledBackground(h.background, Some(true), Some(OpacityOr(h.background.overlayOpacity))),
                        Or(h.ctaText, "View My Work"), Or(h.ctaLink, "#projects"))),
      about := Some(form.about.(title := Or(form.about.title, "About Me"))),
      experience := Some(form.experience),
      certifications := Some(form.certifications),
      contact := Some(form.contact.(email := Or(form.contact.email, userEmail))),
      customization := Some(Customization(Or(c.primaryColor, "#4F3B78"), Or(c.secondaryColor, "#6B4F9E"),
                                          Or(c.fontFamily, "Inter"), Or(c.layout, "modern"),
                                          Or(c.spacing, "comfortable"))),
      theme := Some(Or(form.theme, "light")),
      isPublic := Some(form.isPublic),
      template := Some(Or(form.template, "modern")))
  }

  /** A stored portfolio whose string keys are all set, whose overlay is on
      and whose opacity is set and not zero. */
  predicate Settled(p: Portfolio) {
    var b := p.hero.background;
    var c := p.customization;
    && p.hero.title != "" && p.hero.subtitle != "" && p.hero.ctaText != "" && p.hero.ctaLink != ""
    && b.kind != "" && b.color != "" && b.gradient.from != "" && b.gradient.to != "" && b.gradient.direction != ""
    && b.overlay == Some(true) && b.overlayOpacity.Some? && b.overlayOpacity.value != 0.0
    && p.about.title != "" && p.contact.email != ""
    && c.primaryColor != "" && c.secondaryColor != "" && c.fontFamily != "" && c.layout != "" && c.spacing != ""
    && p.theme != "" && p.template != ""
  }

  /** Loading a settled portfolio into the editor and saving it straight away
      stores it unchanged, whatever the form held before. */
  lemma HydrateThenSave(prev: Form, p: Portfolio, userName: string, userEmail: string)
    requires Settled(p)
    ensures ApplyBody(p, SavePayload(Hydrate(prev, p), userName, userEmail)) == p
  {
  }

  /** A stored overlay that is switched off, or an opacity of zero, does not
      survive a load and save: `||` replaces the falsy value. */
  lemma SaveForcesOverlay(prev: Form, p: Portfolio, userName: string, userEmail: string)
    requires p.hero.background.overlay == Some(false) || p.hero.background.overlayOpacity == Some(0.0)
    ensures var saved := ApplyBody(p, SavePayload(Hydrate(prev, p), userName, userEmail));
      && saved.hero.background.overlay == Some(true)
      && saved.hero.background.overlayOpacity != Some(0.0)
      && saved != p
  {
  }

  // ---- templates ----

  /** `handleTemplateSelect`: the template's hero keys replace the form's (the
      background as a whole), `ctaLink` stays, the customization is the
      template's, and the template id is recorded. */
  function HandleTemplateSelect(form: Form, values: TemplateDefaults, id: string): (r: Form)
    ensures r.hero == Hero(values.hero.title, values.hero.subtitle, values.hero.background,
                           values.hero.ctaText, form.hero.ctaLink)
    ensures r.customization == values.customization && r.template == id
    ensures r.about == form.about && r.experience == form.experience && r.certifications == form.certifications
    ensures r.contact == form.contact && r.theme == form.theme && r.isPublic == form.isPublic
  {
    form.(hero := form.hero.(title := values.hero.title, subtitle := values.hero.subtitle,
                             background := values.hero.background, ctaText := values.hero.ctaText),
          customization := values.customization,
          template := id)
  }

  /** Picking a gallery template and saving sends a template, layout, spacing
      and background the schema accepts; the keys the template's background
      left out come back as the schema defaults. */
  lemma {:induction false} PickedTemplateSaves(form: Form, k: nat, userName: string, userEmail: string)
    requires k < |Templates|
    ensures var t := Templates[k];
      var b := SavePayload(HandleTemplateSelect(form, t.defaults, t.id), userName, userEmail);
      && b.template == Some(t.id) && InEnum(t.id, TemplateIds)
      && b.customization == Some(t.defaults.customization)
      && ValidCustomization(b.customization.value)
      && ValidBackground(b.hero.value.background)
      && b.hero.value.background.overlay == Some(true) && b.hero.value.background.overlayOpacity == Some(0.5)
      && b.hero.value.background.image == ""
  {
    var t := Templates[k];
    DefaultsPassSchema(k);
    GalleryMatchesSchema();
    assert t.id == Ids(Templates)[k];
    PickedPayload(form, t.defaults, t.id, userName, userEmail);
  }

  /** The payload saved right after a pick carries the picked template's
      id, customization and background kind, with the overlay forced on. */
  lemma PickedPayload(form: Form, values: TemplateDefaults, id: string, userName: string, userEmail: string)
    requires id != ""
    requires var c := values.customization;
      c.primaryColor != "" && c.secondaryColor != "" && c.fontFamily != "" && c.layout != "" && c.spacing != ""
    requires values.hero.background.kind != "" && values.hero.background.overlayOpacity.None?
    ensures var b := SavePayload(HandleTemplateSelect(form, values, id), userName, userEmail);
      && b.template == Some(id)
      && b.customization == Some(values.customization)
      && b.hero.value.background.kind == values.hero.background.kind
      && b.hero.value.background.image == values.hero.background.image
      && b.hero.value.background.overlay == Some(true) && b.hero.value.background.overlayOpacity == Some(0.5)
  {
  }
}
