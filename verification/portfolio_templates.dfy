/**
 * The catalog of portfolio template descriptions shown by the gallery, and its two
 * lookups: by identifier (the first match) and by category (every match, in catalog
 * order).
 */
module PortfolioTemplates {
  import opened Wrappers
  import opened Seqs

  datatype Category =
    | Modern | Creative | Developer | Business | Minimal
    | Artistic | Corporate | Startup | Academic | Futuristic

  /** The string each category is written as. */
  function CategoryName(c: Category): string {
    match c
    case Modern => "modern"
    case Creative => "creative"
    case Developer => "developer"
    case Business => "business"
    case Minimal => "minimal"
    case Artistic => "artistic"
    case Corporate => "corporate"
    case Startup => "startup"
    case Academic => "academic"
    case Futuristic => "futuristic"
  }

  datatype Layout =
    | SinglePage | MultiSection | Parallax | Grid
    | Masonry | Timeline | CardBased | SplitScreen

  function LayoutName(l: Layout): string {
    match l
    case SinglePage => "single-page"
    case MultiSection => "multi-section"
    case Parallax => "parallax"
    case Grid => "grid"
    case Masonry => "masonry"
    case Timeline => "timeline"
    case CardBased => "card-based"
    case SplitScreen => "split-screen"
  }

  datatype Colors = Colors(primary: string, secondary: string, accent: string, background: string, text: string)

  datatype PortfolioTemplate = PortfolioTemplate(
    id: string,
    name: string,
    category: Category,
    preview: string,
    description: string,
    features: seq<string>,
    technologies: seq<string>,
    colors: Colors,
    layout: Layout,
    animations: seq<string>,
    seoOptimized: bool)

  const MinimalDeveloper: PortfolioTemplate := PortfolioTemplate(
    id := "minimal-dev",
    name := "Minimal Developer",
    category := Minimal,
    preview := "https://images.unsplash.com/photo-1517245386807-bb43f82c33c4?w=400&h=300&fit=crop",
    description := "A clean, minimal portfolio focused on code and projects. Uses a monospace typography and subtle animations to highlight technical skills.",
    features := ["Code-inspired Design", "Syntax Highlighting Effects", "Minimal Navigation", "Project Showcase Grid", "Dark/Light Mode Toggle"],
    technologies := ["React", "TypeScript", "CSS3", "Framer Motion"],
    colors := Colors("#2D5BFF", "#6C757D", "#FF6B6B", "#FFFFFF", "#212529"),
    layout := Grid,
    animations := ["Typewriter Effect", "Code Fade-in", "Subtle Hover"],
    seoOptimized := true)

  const CreativeShowcase: PortfolioTemplate := PortfolioTemplate(
    id := "creative-showcase",
    name := "Creative Showcase",
    category := Creative,
    preview := "https://images.unsplash.com/photo-1460925895917-afdab827c52f?w=400&h=300&fit=crop",
    description := "A visually striking portfolio with asymmetrical layouts and bold color transitions. Perfect for designers and artists.",
    features := ["Asymmetrical Layout", "Color Transition Effects", "Interactive Project Previews", "Custom Cursor Interactions", "Micro-interactions Throughout"],
    technologies := ["GSAP", "WebGL", "Sass", "React Spring"],
    colors := Colors("#FF5E5B", "#00CECB", "#FFED66", "#F7F7F7", "#2E2E2E"),
    layout := Masonry,
    animations := ["Color Morph", "Shape Transformation", "Staggered Reveal"],
    seoOptimized := true)

  const CorporateProfessional: PortfolioTemplate := PortfolioTemplate(
    id := "corporate-pro",
    name := "Corporate Professional",
    category := Corporate,
    preview := "https://images.unsplash.com/photo-1497366811353-6870744d04b2?w=400&h=300&fit=crop",
    description := "A sophisticated portfolio with a focus on professionalism and clean data presentation. Ideal for consultants and executives.",
    features := ["Professional Layout", "Data Visualization Integration", "Testimonial Sections", "Case Study Format", "Printable Resume Option"],
    technologies := ["Vue.js", "D3.js", "Tailwind CSS", "Chart.js"],
    colors := Colors("#1A1A40", "#7B0D1E", "#270082", "#FAFAFA", "#333333"),
    layout := CardBased,
    animations := ["Smooth Scroll", "Fade-up Elements", "Progress Bars"],
    seoOptimized := true)

  const Catalog: seq<PortfolioTemplate> := [MinimalDeveloper, CreativeShowcase, CorporateProfessional]

  function Ids(templates: seq<PortfolioTemplate>): seq<string> {
    Map((t: PortfolioTemplate) => t.id, templates)
  }

  // ----------------------------------------------------------------------------------
  // Lookups

  /** `templates[i]` is the first template with identifier `id`. */
  predicate FirstWithId(templates: seq<PortfolioTemplate>, id: string, i: nat) {
    i < |templates| && templates[i].id == id && forall j :: 0 <= j < i ==> templates[j].id != id
  }

  /** `templates.find(t => t.id === id)`: the first template with that identifier, or
      nothing. */
  function FindById(templates: seq<PortfolioTemplate>, id: string): (r: Option<PortfolioTemplate>)
    ensures r.None? <==> forall i :: 0 <= i < |templates| ==> templates[i].id != id
    ensures r.Some? ==> exists i: nat :: FirstWithId(templates, id, i) && templates[i] == r.value
  {
    if templates == [] then None
    else if templates[0].id == id then
      assert FirstWithId(templates, id, 0);
      Some(templates[0])
    else
      var r := FindById(templates[1..], id);
      if r.Some? then
        var i: nat :| FirstWithId(templates[1..], id, i) && templates[1..][i] == r.value;
        assert FirstWithId(templates, id, i + 1);
        r
      else
        assert forall i :: 1 <= i < |templates| ==> templates[i] == templates[1..][i - 1];
        r
  }

  function GetPortfolioTemplateById(id: string): Option<PortfolioTemplate> {
    FindById(Catalog, id)
  }

  /** `templates.filter(t => t.category === category)`: every template whose category is
      written as `category`, in catalog order. */
  function FilterByCategory(templates: seq<PortfolioTemplate>, category: string): seq<PortfolioTemplate> {
    if templates == [] then []
    else
      (if CategoryName(templates[0].category) == category then [templates[0]] else [])
      + FilterByCategory(templates[1..], category)
  }

  function GetPortfolioTemplatesByCategory(category: string): seq<PortfolioTemplate> {
    FilterByCategory(Catalog, category)
  }

  /** The filter keeps exactly the templates of that category, in their order. */
  lemma {:induction false} FilterByCategorySpec(templates: seq<PortfolioTemplate>, category: string)
    ensures var r := FilterByCategory(templates, category);
      && (forall t :: t in r <==> t in templates && CategoryName(t.category) == category)
      && IsSubsequence(r, templates)
      && |r| <= |templates|
  {
    if templates != [] {
      FilterByCategorySpec(templates[1..], category);
      var rest := FilterByCategory(templates[1..], category);
      var r := FilterByCategory(templates, category);
      if CategoryName(templates[0].category) == category {
        assert r == [templates[0]] + rest;
        assert r[1..] == rest;
      } else {
        assert r == rest;
        assert rest == [] || IsSubsequence(rest, templates[1..]);
      }
      assert forall t :: t in templates <==> t == templates[0] || t in templates[1..];
    }
  }

  // ----------------------------------------------------------------------------------
  // Facts about the catalog

  /** No two templates share an identifier. */
  lemma CatalogIdsDistinct()
    ensures NoDuplicates(Ids(Catalog))
  {
    IdLengths();
  }

  lemma IdLengths()
    ensures |Catalog| == 3
    ensures |Catalog[0].id| == 11 && |Catalog[1].id| == 17 && |Catalog[2].id| == 13
  {
  }

  /** Each template is found by its own identifier. */
  lemma LookupFindsEachTemplate(i: nat)
    requires i < |Catalog|
    ensures GetPortfolioTemplateById(Catalog[i].id) == Some(Catalog[i])
  {
    IdLengths();
    var r := GetPortfolioTemplateById(Catalog[i].id);
    var k: nat :| FirstWithId(Catalog, Catalog[i].id, k) && Catalog[k] == r.value;
    assert |Catalog[k].id| == |Catalog[i].id|;
  }

  lemma CatalogFiltered(category: string)
    ensures GetPortfolioTemplatesByCategory(category) ==
      (if category == "minimal" then [MinimalDeveloper] else [])
      + (if category == "creative" then [CreativeShowcase] else [])
      + (if category == "corporate" then [CorporateProfessional] else [])
  {
    var t2 := [CorporateProfessional];
    var t1 := [CreativeShowcase] + t2;
    assert Catalog == [MinimalDeveloper] + t1;
    assert t1[1..] == t2 && t2[1..] == [];
    assert CategoryName(MinimalDeveloper.category) == "minimal";
    assert CategoryName(CreativeShowcase.category) == "creative";
    assert CategoryName(CorporateProfessional.category) == "corporate";
    assert FilterByCategory(t2, category) == (if category == "corporate" then t2 else []) + FilterByCategory([], category);
    assert FilterByCategory(t1, category) == (if category == "creative" then [CreativeShowcase] else []) + FilterByCategory(t2, category);
  }

  /** Each template is the only one of its category; "developer" is a category no
      template has, and a string that names no category selects nothing. */
  lemma CategoryLookups(category: string)
    ensures GetPortfolioTemplatesByCategory("minimal") == [MinimalDeveloper]
    ensures GetPortfolioTemplatesByCategory("creative") == [CreativeShowcase]
    ensures GetPortfolioTemplatesByCategory("corporate") == [CorporateProfessional]
    ensures GetPortfolioTemplatesByCategory("developer") == []
    ensures (forall c :: CategoryName(c) != category) ==> GetPortfolioTemplatesByCategory(category) == []
  {
    CatalogFiltered("minimal");
    CatalogFiltered("creative");
    CatalogFiltered("corporate");
    CatalogFiltered("developer");
    CatalogFiltered(category);
    assert CategoryName(Minimal) == "minimal" && CategoryName(Creative) == "creative" && CategoryName(Corporate) == "corporate";
  }
}
