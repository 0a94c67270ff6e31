/** The template gallery: six entries, each with the hero and customization
    values the editor takes over when the entry is clicked. A template's
    background names only the keys it sets; the others are absent ("" or None). */
module TemplateSelector {
  import opened Common
  import opened PortfolioModel

  /** The hero values a template supplies (it never supplies `ctaLink`). */
  datatype HeroDefaults = HeroDefaults(title: string, subtitle: string, background: Background, ctaText: string)

  datatype TemplateDefaults = TemplateDefaults(hero: HeroDefaults, customization: Customization)

  /** `id` is what the portfolio stores; `name` is the label shown. */
  datatype Template = Template(id: string, name: string, defaults: TemplateDefaults)

  const NoGradient := Gradient("", "", "")

  function GradientBackground(from: string, to: string, direction: string): Background {
    Background("gradient", "", Gradient(from, to, direction), "", None, None)
  }

  function ColorBackground(color: string): Background {
    Background("color", color, NoGradient, "", None, None)
  }

  const Templates: seq<Template> := [
    Template("modern", "Creative", TemplateDefaults(
      HeroDefaults("Welcome to My Portfolio", "Full Stack Developer",
                   GradientBackground("#4F3B78", "#6B4F9E", "to bottom"), "View My Work"),
      Customization("#4F3B78", "#6B4F9E", "Inter", "modern", "comfortable"))),
    Template("minimal", "Minimal", TemplateDefaults(
      HeroDefaults("Hello, I'm a Developer", "Building digital experiences",
                   ColorBackground("#ffffff"), "Explore Projects"),
      Customization("#2D3748", "#4A5568", "Inter", "minimal", "compact"))),
    Template("professional", "Professional", TemplateDefaults(
      HeroDefaults("Professional Portfolio", "Showcasing My Expertise",
                   ColorBackground("#e5e7eb"), "Contact Me"),
      Customization("#2563eb", "#1e293b", "Roboto", "professional", "comfortable"))),
    Template("elegant", "Elegant", TemplateDefaults(
      HeroDefaults("Elegant Portfolio", "Refined. Polished. Professional.",
                   GradientBackground("#a18cd1", "#fbc2eb", "to right"), "Discover More"),
      Customization("#a18cd1", "#fbc2eb", "Georgia", "elegant", "comfortable"))),
    Template("dark", "Dark", TemplateDefaults(
      HeroDefaults("Dark Portfolio", "Experience. Knowledge. Trust.",
                   ColorBackground("#232b36"), "Browse Portfolio"),
      Customization("#fff", "#a0aec0", "Inter", "dark", "compact"))),
    Template("futuristic", "Modern", TemplateDefaults(
      HeroDefaults("Welcome to the Future", "Innovative Developer & Creator",
                   GradientBackground("#FFC2D1", "#FFC2D1", "to bottom"), "Explore Projects"),
      Customization("#FFC2D1", "#FFC2D1", "Inter", "futuristic", "comfortable")))
  ]

  /** The entry's card is drawn highlighted when it is the current template. */
  predicate Highlighted(current: string, t: Template) {
    current == t.id
  }

  /** The number of highlighted cards among `ts`. */
  function HighlightCount(current: string, ts: seq<Template>): (n: nat)
    ensures n <= |ts|
    ensures n == 0 <==> forall k :: 0 <= k < |ts| ==> ts[k].id != current
    decreases |ts|
  {
    if |ts| == 0 then 0
    else (if Highlighted(current, ts[0]) then 1 else 0) + HighlightCount(current, ts[1..])
  }

  /** Clicking a card hands its defaults and its id to the editor. */
  function OnClick(t: Template): (r: (TemplateDefaults, string))
    ensures r.1 == t.id && r.0 == t.defaults
  {
    (t.defaults, t.id)
  }

  function Ids(ts: seq<Template>): (r: seq<string>)
    ensures |r| == |ts| && forall k :: 0 <= k < |ts| ==> r[k] == ts[k].id
  {
    seq(|ts|, k requires 0 <= k < |ts| => ts[k].id)
  }

  /** The gallery offers exactly the templates the schema accepts, in the
      schema's order. */
  lemma GalleryMatchesSchema()
    ensures Ids(Templates) == TemplateIds
  {
  }

  /** Every template's defaults pass the schema: its layout is its id, its
      background kind and spacing are among the allowed values. */
  lemma {:induction false} DefaultsPassSchema(k: nat)
    requires k < |Templates|
    ensures Templates[k].defaults.customization.layout == Templates[k].id
    ensures ValidCustomization(Templates[k].defaults.customization)
    ensures ValidBackground(Templates[k].defaults.hero.background)
    ensures Templates[k].defaults.hero.background.kind in ["gradient", "color"]
    // every key of the customization is set, and the background names no image or overlay
    ensures var c := Templates[k].defaults.customization;
      c.primaryColor != "" && c.secondaryColor != "" && c.fontFamily != "" && c.layout != "" && c.spacing != ""
    ensures var b := Templates[k].defaults.hero.background;
      b.image == "" && b.overlay.None? && b.overlayOpacity.None?
  {
  }

  /** No two entries share an id, so at most one card is highlighted; exactly
      one is when the current template is in the gallery. */
  lemma {:induction false} OneHighlight(current: string)
    ensures HighlightCount(current, Templates) == (if current in TemplateIds then 1 else 0)
  {
    GalleryMatchesSchema();
    var ts := Templates;
    assert ts[1..][1..][1..][1..][1..][1..] == [];
  }
}
