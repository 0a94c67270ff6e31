/** The Portfolio document and its sub-records, with the schema's enumerations,
    defaults and field validators. Absent optional strings are the empty string;
    enumerated fields hold strings so that a value outside the enumeration can
    be represented and rejected. */
module PortfolioModel {
  import opened Common
  import opened Text
  import opened Patterns

  /** A URL-validity test (`new URL(value)` does not throw). */
  type UrlCheck = string -> bool

  const TemplateIds: seq<string> := ["modern", "minimal", "professional", "elegant", "dark", "futuristic"]
  const BackgroundKinds: seq<string> := ["color", "gradient", "image"]
  const Themes: seq<string> := ["light", "dark"]
  const Layouts: seq<string> := ["classic", "modern", "minimal", "professional", "dark", "elegant", "futuristic"]
  const Spacings: seq<string> := ["comfortable", "compact", "spacious"]

  datatype Gradient = Gradient(from: string, to: string, direction: string)

  /** `hero.background`; the schema's `type` key is called `kind` here. */
  datatype Background = Background(
    kind: string,
    color: string,
    gradient: Gradient,
    image: string,
    overlay: Option<bool>,
    overlayOpacity: Option<real>)

  datatype Hero = Hero(title: string, subtitle: string, background: Background, ctaText: string, ctaLink: string)

  datatype About = About(title: string, bio: string, skills: seq<string>, image: string)

  datatype Experience = Experience(
    title: string,
    company: string,
    location: string,
    startDate: Option<Day>,
    endDate: Option<Day>,
    current: bool,
    description: string,
    responsibilities: seq<string>,
    technologies: seq<string>)

  datatype Certification = Certification(
    name: string,
    issuer: string,
    issueDate: Option<Day>,
    expiryDate: Option<Day>,
    credentialId: string,
    credentialUrl: string,
    description: string)

  datatype Contact = Contact(email: string, linkedin: string, github: string, phone: string, location: string)

  datatype Testimonial = Testimonial(name: string, position: string, company: string, content: string, rating: Option<real>)

  datatype Customization = Customization(
    primaryColor: string,
    secondaryColor: string,
    fontFamily: string,
    layout: string,
    spacing: string)

  datatype Portfolio = Portfolio(
    id: Id,
    user: Id,
    template: string,
    hero: Hero,
    about: About,
    experience: seq<Experience>,
    certifications: seq<Certification>,
    contact: Contact,
    theme: string,
    customDomain: string,
    testimonials: seq<Testimonial>,
    isPublic: bool,
    views: nat,
    customization: Customization)

  // ---- schema defaults ----

  const DefaultGradient := Gradient("#4F3B78", "#6B4F9E", "to bottom")
  const DefaultBackground := Background("color", "#808080", DefaultGradient, "", Some(true), Some(0.5))
  const DefaultHero := Hero("", "", DefaultBackground, "View My Work", "#projects")
  const DefaultAbout := About("About Me", "", [], "")
  const EmptyContact := Contact("", "", "", "", "")
  const DefaultCustomization := Customization("#4F3B78", "#6B4F9E", "Inter", "modern", "comfortable")
  const DefaultTemplate := "modern"
  const DefaultTheme := "light"

  /** A portfolio with every field at its schema default. */
  function DefaultPortfolio(id: Id, owner: Id): Portfolio {
    Portfolio(id, owner, DefaultTemplate, DefaultHero, DefaultAbout, [], [], EmptyContact,
              DefaultTheme, "", [], true, 0, DefaultCustomization)
  }

  // ---- field validators ----

  /** An enumerated field holds one of the listed values. Every enumerated
      path has a default, so a stored value is never absent, and the enum
      validator refuses any other string, the empty one included. */
  predicate InEnum(v: string, values: seq<string>) {
    v in values
  }

  /** An optional URL field: absent, or accepted by the URL parser. */
  predicate OptionalUrl(v: string, validUrl: UrlCheck) {
    v == "" || validUrl(v)
  }

  /** A later date that is absent, or not before the earlier one when that is present. */
  predicate NotBefore(later: Option<Day>, earlier: Option<Day>) {
    later.None? || earlier.None? || later.value >= earlier.value
  }

  predicate ValidExperience(e: Experience) {
    && |e.title| >= 2
    && |e.company| >= 2
    && |e.location| <= 100
    && e.startDate.Some?
    && NotBefore(e.endDate, e.startDate)
    && |e.description| <= 500
  }

  predicate ValidCertification(c: Certification, validUrl: UrlCheck) {
    && |c.name| >= 2
    && |c.issuer| >= 2
    && c.issueDate.Some?
    && NotBefore(c.expiryDate, c.issueDate)
    && OptionalUrl(c.credentialUrl, validUrl)
    && |c.description| <= 500
  }

  predicate ValidContact(c: Contact, validUrl: UrlCheck) {
    && c.email != ""
    && LooseEmail(c.email)
    && OptionalUrl(c.linkedin, validUrl)
    && OptionalUrl(c.github, validUrl)
    && (c.phone == "" || TenDigits(c.phone))
    && |c.location| <= 100
  }

  predicate ValidTestimonial(t: Testimonial) {
    t.name != "" && t.content != "" && (t.rating.None? || 1.0 <= t.rating.value <= 5.0)
  }

  predicate ValidBackground(b: Background) {
    InEnum(b.kind, BackgroundKinds) && (b.overlayOpacity.None? || 0.0 <= b.overlayOpacity.value <= 1.0)
  }

  predicate ValidCustomization(c: Customization) {
    InEnum(c.layout, Layouts) && InEnum(c.spacing, Spacings)
  }

  /** Every constraint the Portfolio schema declares. */
  predicate Valid(p: Portfolio, validUrl: UrlCheck) {
    && p.user != ""
    && InEnum(p.template, TemplateIds)
    && ValidBackground(p.hero.background)
    && (forall k :: 0 <= k < |p.experience| ==> ValidExperience(p.experience[k]))
    && (forall k :: 0 <= k < |p.certifications| ==> ValidCertification(p.certifications[k], validUrl))
    && ValidContact(p.contact, validUrl)
    && InEnum(p.theme, Themes)
    && (forall k :: 0 <= k < |p.testimonials| ==> ValidTestimonial(p.testimonials[k]))
    && ValidCustomization(p.customization)
  }

  /** The view counter is not among the validated fields. */
  lemma ValidIgnoresViews(p: Portfolio, views: nat, validUrl: UrlCheck)
    ensures Valid(p.(views := views), validUrl) == Valid(p, validUrl)
  {
  }

  /** The schema defaults satisfy every constraint except the required contact
      email: a portfolio created without a valid contact email is rejected. */
  lemma DefaultsNeedContactEmail(id: Id, owner: Id, validUrl: UrlCheck)
    requires owner != ""
    ensures !Valid(DefaultPortfolio(id, owner), validUrl)
    ensures Valid(DefaultPortfolio(id, owner).(contact := EmptyContact.(email := "a@b.co")), validUrl)
  {
    var e := "a@b.co";
    assert e[2..3] == "b" && NoSpace("b");
    assert LooseEmailAt(e, 1, 3);
  }

  // ---- request bodies ----

  /** A request body: the top-level keys a client supplied. A supplied key
      replaces the whole section it names. */
  datatype PortfolioBody = PortfolioBody(
    user: Option<Id>,
    template: Option<string>,
    hero: Option<Hero>,
    about: Option<About>,
    experience: Option<seq<Experience>>,
    certifications: Option<seq<Certification>>,
    contact: Option<Contact>,
    theme: Option<string>,
    customDomain: Option<string>,
    testimonials: Option<seq<Testimonial>>,
    isPublic: Option<bool>,
    views: Option<nat>,
    customization: Option<Customization>)

  const EmptyBody := PortfolioBody(None, None, None, None, None, None, None, None, None, None, None, None, None)

  /** The partial merge of a body over a portfolio: supplied keys overwrite,
      every other field keeps its value, and the record id never changes. */
  function ApplyBody(p: Portfolio, b: PortfolioBody): (r: Portfolio)
    ensures r.id == p.id
    ensures r.user == b.user.GetOr(p.user) && r.template == b.template.GetOr(p.template)
    ensures r.hero == b.hero.GetOr(p.hero) && r.about == b.about.GetOr(p.about)
    ensures r.experience == b.experience.GetOr(p.experience)
    ensures r.certifications == b.certifications.GetOr(p.certifications)
    ensures r.contact == b.contact.GetOr(p.contact) && r.theme == b.theme.GetOr(p.theme)
    ensures r.customDomain == b.customDomain.GetOr(p.customDomain)
    ensures r.testimonials == b.testimonials.GetOr(p.testimonials)
    ensures r.isPublic == b.isPublic.GetOr(p.isPublic) && r.views == b.views.GetOr(p.views)
    ensures r.customization == b.customization.GetOr(p.customization)
  {
    Portfolio(
      p.id,
      b.user.GetOr(p.user),
      b.template.GetOr(p.template),
      b.hero.GetOr(p.hero),
      b.about.GetOr(p.about),
      b.experience.GetOr(p.experience),
      b.certifications.GetOr(p.certifications),
      b.contact.GetOr(p.contact),
      b.theme.GetOr(p.theme),
      b.customDomain.GetOr(p.customDomain),
      b.testimonials.GetOr(p.testimonials),
      b.isPublic.GetOr(p.isPublic),
      b.views.GetOr(p.views),
      b.customization.GetOr(p.customization))
  }

  /** Two bodies applied in turn: the later one's keys win. */
  function Then(first: PortfolioBody, second: PortfolioBody): PortfolioBody {
    PortfolioBody(
      Later(first.user, second.user),
      Later(first.template, second.template),
      Later(first.hero, second.hero),
      Later(first.about, second.about),
      Later(first.experience, second.experience),
      Later(first.certifications, second.certifications),
      Later(first.contact, second.contact),
      Later(first.theme, second.theme),
      Later(first.customDomain, second.customDomain),
      Later(first.testimonials, second.testimonials),
      Later(first.isPublic, second.isPublic),
      Later(first.views, second.views),
      Later(first.customization, second.customization))
  }

  function Later<T>(first: Option<T>, second: Option<T>): Option<T> {
    if second.Some? then second else first
  }

  /** An empty body changes nothing. */
  lemma ApplyEmptyBody(p: Portfolio)
    ensures ApplyBody(p, EmptyBody) == p
  {
  }

  /** Applying two bodies in turn is applying their combination once. */
  lemma ApplyThen(p: Portfolio, first: PortfolioBody, second: PortfolioBody)
    ensures ApplyBody(ApplyBody(p, first), second) == ApplyBody(p, Then(first, second))
  {
  }

  /** Applying the same body twice is applying it once. */
  lemma ApplyIdempotent(p: Portfolio, b: PortfolioBody)
    ensures ApplyBody(ApplyBody(p, b), b) == ApplyBody(p, b)
  {
  }

  /** `{ user: owner, ...body }` with schema defaults for the keys the body
      leaves out; a `user` key in the body overrides the owner. */
  function NewPortfolio(id: Id, owner: Id, body: PortfolioBody): (p: Portfolio)
    ensures p.id == id
    ensures p.user == (if body.user.Some? then body.user.value else owner)
    ensures body.isPublic.None? ==> p.isPublic
    ensures body.views.None? ==> p.views == 0
    ensures body.template.None? ==> p.template == "modern"
    ensures body.theme.None? ==> p.theme == "light"
  {
    ApplyBody(DefaultPortfolio(id, owner), body)
  }

  // ---- partial customization ----

  /** The keys of a customization update that a client supplied. */
  datatype CustomizationPatch = CustomizationPatch(
    primaryColor: Option<string>,
    secondaryColor: Option<string>,
    fontFamily: Option<string>,
    layout: Option<string>,
    spacing: Option<string>)

  /** `{ ...current, ...patch }`: a shallow merge in which the patch's keys win. */
  function MergeCustomization(c: Customization, patch: CustomizationPatch): (r: Customization)
    ensures patch.primaryColor.Some? ==> r.primaryColor == patch.primaryColor.value
    ensures patch.primaryColor.None? ==> r.primaryColor == c.primaryColor
    ensures patch.secondaryColor.Some? ==> r.secondaryColor == patch.secondaryColor.value
    ensures patch.secondaryColor.None? ==> r.secondaryColor == c.secondaryColor
    ensures patch.fontFamily.Some? ==> r.fontFamily == patch.fontFamily.value
    ensures patch.fontFamily.None? ==> r.fontFamily == c.fontFamily
    ensures patch.layout.Some? ==> r.layout == patch.layout.value
    ensures patch.layout.None? ==> r.layout == c.layout
    ensures patch.spacing.Some? ==> r.spacing == patch.spacing.value
    ensures patch.spacing.None? ==> r.spacing == c.spacing
  {
    Customization(
      patch.primaryColor.GetOr(c.primaryColor),
      patch.secondaryColor.GetOr(c.secondaryColor),
      patch.fontFamily.GetOr(c.fontFamily),
      patch.layout.GetOr(c.layout),
      patch.spacing.GetOr(c.spacing))
  }
}
