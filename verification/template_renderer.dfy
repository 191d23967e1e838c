/**
 * The resume template renderer: a template identifier selects one of twelve render
 * functions, eight of which stand in for one of four real layouts, and the layout draws
 * the resume record as a page of sections. An identifier the resume-template catalog does
 * not know yields only a "Template not found" message.
 *
 * The catalog lookup lives outside this model; it enters as the set of identifiers the
 * catalog knows. The drawn page is modelled by its content, as in the generator.
 */
module TemplateRenderer {
  import opened Wrappers
  import opened Seqs
  import opened Text
  import Resume
  import opened Document

  /** The four layouts that are actually drawn. */
  datatype Layout = CareerCatalyst | NextStep | VisionPath | TalentEdge

  /** The render functions the identifier switch can call. */
  datatype RenderFunction =
    | RenderCareerCatalyst | RenderNextStepProfile | RenderVisionPathCV | RenderTalentEdgeResume
    | RenderFutureReadyProfile | RenderProJourneyResume | RenderSkillSphereCV | RenderOpportuneProfile
    | RenderElevateCareerResume | RenderGrowthTrackCV | RenderJobQuestProfile | RenderDreamHireResume

  /** The `switch (templateId)`: one case per identifier, `career-catalyst` by default. */
  function SwitchCase(templateId: string): RenderFunction {
    match templateId
    case "career-catalyst" => RenderCareerCatalyst
    case "nextstep-profile" => RenderNextStepProfile
    case "visionpath-cv" => RenderVisionPathCV
    case "talentedge-resume" => RenderTalentEdgeResume
    case "futureready-profile" => RenderFutureReadyProfile
    case "projourney-resume" => RenderProJourneyResume
    case "skillsphere-cv" => RenderSkillSphereCV
    case "opportune-profile" => RenderOpportuneProfile
    case "elevatecareer-resume" => RenderElevateCareerResume
    case "growthtrack-cv" => RenderGrowthTrackCV
    case "jobquest-profile" => RenderJobQuestProfile
    case "dreamhire-resume" => RenderDreamHireResume
    case _ => RenderCareerCatalyst
  }

  /** The layout a render function draws: the last eight only call one of the first four. */
  function Delegate(f: RenderFunction): Layout {
    match f
    case RenderCareerCatalyst => CareerCatalyst
    case RenderNextStepProfile => NextStep
    case RenderVisionPathCV => VisionPath
    case RenderTalentEdgeResume => TalentEdge
    case RenderFutureReadyProfile => NextStep
    case RenderProJourneyResume => TalentEdge
    case RenderSkillSphereCV => CareerCatalyst
    case RenderOpportuneProfile => NextStep
    case RenderElevateCareerResume => TalentEdge
    case RenderGrowthTrackCV => CareerCatalyst
    case RenderJobQuestProfile => NextStep
    case RenderDreamHireResume => TalentEdge
  }

  function LayoutFor(templateId: string): Layout {
    Delegate(SwitchCase(templateId))
  }

  /** The identifiers the switch names, grouped by the layout they end up drawing. */
  const AliasTable: map<string, Layout> := map[
    "career-catalyst" := CareerCatalyst, "skillsphere-cv" := CareerCatalyst, "growthtrack-cv" := CareerCatalyst,
    "nextstep-profile" := NextStep, "futureready-profile" := NextStep,
    "opportune-profile" := NextStep, "jobquest-profile" := NextStep,
    "visionpath-cv" := VisionPath,
    "talentedge-resume" := TalentEdge, "projourney-resume" := TalentEdge,
    "elevatecareer-resume" := TalentEdge, "dreamhire-resume" := TalentEdge]

  /** The switch and its delegating functions draw what the alias table says, and
      CareerCatalyst for every identifier the table does not name. */
  lemma LayoutForFollowsAliasTable(templateId: string)
    ensures templateId in AliasTable ==> LayoutFor(templateId) == AliasTable[templateId]
    ensures templateId !in AliasTable ==> LayoutFor(templateId) == CareerCatalyst
  {
  }

  // ----------------------------------------------------------------------------------
  // The layouts

  /** The sections each layout can draw, in the order it draws them. */
  function SectionOrder(layout: Layout): seq<SectionKind> {
    match layout
    case CareerCatalyst => [Skills, Summary, Experience, Education, Projects]
    case NextStep => [Summary, Experience, Skills, Education, Projects]
    case VisionPath => [Summary, Experience, Education, Projects]
    case TalentEdge => [Summary, Experience, Skills, Education]
  }

  function Heading(layout: Layout, k: SectionKind): string {
    match (layout, k)
    case (VisionPath, Summary) => "EXECUTIVE SUMMARY"
    case (_, Summary) => "PROFESSIONAL SUMMARY"
    case (VisionPath, Experience) => "PROFESSIONAL EXPERIENCE"
    case (_, Experience) => "WORK EXPERIENCE"
    case (VisionPath, Projects) => "KEY PROJECTS"
    case (_, Projects) => "PROJECTS"
    case (_, Skills) => "SKILLS"
    case (_, Education) => "EDUCATION"
  }

  const TechnologiesLabel: string := "Technologies: "

  /** The section `layout` draws for kind `k`. CareerCatalyst and NextStep show a GPA
      and a technologies line when there is one; VisionPath and TalentEdge show neither;
      TalentEdge rules off every job but the last; no layout shows project links. */
  function SectionOf(layout: Layout, d: Resume.ResumeData, k: SectionKind): (s: Section)
    ensures s.kind == k
    ensures |s.entries| == ItemCount(d, k)
  {
    var detailed := layout == CareerCatalyst || layout == NextStep;
    var entries :=
      match k
      case Summary => [Paragraph(d.personalInfo.summary)]
      case Skills => SkillEntries(d.skills)
      case Experience => JobEntries(d.experience, AsGiven, layout == TalentEdge)
      case Education => SchoolEntries(d.education, detailed)
      case Projects => ProjectEntries(d.projects, if detailed then TechIfPresent(TechnologiesLabel) else TechHidden, false);
    Section(k, Heading(layout, k), entries)
  }

  function Sections(layout: Layout, d: Resume.ResumeData): seq<Section> {
    Laid(d, SectionOrder(layout), k => SectionOf(layout, d, k))
  }

  /** The header lines: the name (or "Your Name"), then VisionPath's fixed title or
      TalentEdge's first job title (or "Professional"). */
  function HeaderLines(layout: Layout, d: Resume.ResumeData): seq<string> {
    var name := OrElse(d.personalInfo.name, "Your Name");
    match layout
    case VisionPath => [name, "Executive Professional"]
    case TalentEdge => [name, OrElse(FirstTitle(d), "Professional")]
    case _ => [name]
  }

  /** The header's contact items: CareerCatalyst shows all five, the profiles as bare
      labels; the others show e-mail, phone and location. */
  function Contacts(layout: Layout, d: Resume.ResumeData): seq<Contact> {
    var fields := if layout == CareerCatalyst then [Email, Phone, Location, LinkedIn, GitHub] else [Email, Phone, Location];
    ContactList(d.personalInfo, fields, Plain)
  }

  datatype View =
    | TemplateNotFound
    | Page(layout: Layout, maxWidth: nat, minHeight: nat, header: seq<string>,
           contacts: seq<Contact>, sections: seq<Section>)

  /** Every layout is 300 by 425 in preview mode and 800 by 1100 otherwise. */
  function Frame(preview: bool): (nat, nat) {
    if preview then (300, 425) else (800, 1100)
  }

  function Draw(layout: Layout, d: Resume.ResumeData, preview: bool): View {
    Page(layout, Frame(preview).0, Frame(preview).1, HeaderLines(layout, d), Contacts(layout, d), Sections(layout, d))
  }

  /** `<TemplateRenderer templateId resumeData preview/>`; `catalog` is the set of
      identifiers the resume-template catalog knows. */
  function Render(templateId: string, d: Resume.ResumeData, preview: bool, catalog: set<string>): View {
    if templateId !in catalog then TemplateNotFound
    else Draw(LayoutFor(templateId), d, preview)
  }

  // ----------------------------------------------------------------------------------
  // What the renderer promises

  /** Nothing is drawn for an identifier the catalog does not know; a known one is
      drawn in the layout the alias table names (CareerCatalyst when it names none), at
      the preview or full size. */
  lemma RenderDispatch(templateId: string, d: Resume.ResumeData, preview: bool, catalog: set<string>)
    ensures var v := Render(templateId, d, preview, catalog);
      && (v.TemplateNotFound? <==> templateId !in catalog)
      && (v.Page? ==> v.layout == (if templateId in AliasTable then AliasTable[templateId] else CareerCatalyst))
      && (v.Page? ==> (v.maxWidth, v.minHeight) == (if preview then (300, 425) else (800, 1100)))
  {
    LayoutForFollowsAliasTable(templateId);
  }

  /** A layout draws a section of kind `k` exactly when it has one and the record has
      something for it, in its own order, with one entry per item of the record. */
  lemma LayoutSections(layout: Layout, d: Resume.ResumeData)
    ensures var ss := Sections(layout, d);
      && (forall k :: HasSection(ss, k) <==> k in SectionOrder(layout) && Present(d, k))
      && IsSubsequence(Kinds(ss), SectionOrder(layout))
      && (forall i :: 0 <= i < |ss| ==> ss[i] == SectionOf(layout, d, ss[i].kind))
      && (forall i :: 0 <= i < |ss| ==> |ss[i].entries| == ItemCount(d, ss[i].kind))
  {
    LaidSpec(d, SectionOrder(layout), k => SectionOf(layout, d, k));
  }

  /** CareerCatalyst and NextStep show every non-empty part of the record. */
  lemma FullLayouts(layout: Layout, d: Resume.ResumeData)
    requires layout == CareerCatalyst || layout == NextStep
    ensures forall k :: HasSection(Sections(layout, d), k) <==> Present(d, k)
  {
    LayoutSections(layout, d);
    var order := SectionOrder(layout);
    forall k ensures k in order {
      match k
      case Skills => assert order[if layout == CareerCatalyst then 0 else 2] == k;
      case Summary => assert order[if layout == CareerCatalyst then 1 else 0] == k;
      case Experience => assert order[if layout == CareerCatalyst then 2 else 1] == k;
      case Education => assert order[3] == k;
      case Projects => assert order[4] == k;
    }
  }

  /** VisionPath never shows skills, whatever the record holds. */
  lemma VisionPathOmitsSkills(d: Resume.ResumeData)
    ensures !HasSection(Sections(VisionPath, d), Skills)
  {
    LayoutSections(VisionPath, d);
  }

  /** TalentEdge never shows projects, whatever the record holds. */
  lemma TalentEdgeOmitsProjects(d: Resume.ResumeData)
    ensures !HasSection(Sections(TalentEdge, d), Projects)
  {
    LayoutSections(TalentEdge, d);
  }

  /** An education entry shows its GPA exactly when the layout is CareerCatalyst or
      NextStep and the GPA is non-empty. */
  lemma GpaShown(layout: Layout, d: Resume.ResumeData, i: nat)
    requires i < |d.education|
    ensures var g := SectionOf(layout, d, Education).entries[i].gpa;
      && (g.Some? <==> (layout == CareerCatalyst || layout == NextStep) && d.education[i].gpa != "")
      && (g.Some? ==> g.value == d.education[i].gpa)
  {
  }

  /** A project shows "Technologies: " and its technologies exactly when the layout is
      CareerCatalyst or NextStep and the technologies are non-empty; no layout shows a
      project link. */
  lemma TechnologiesShown(layout: Layout, d: Resume.ResumeData, i: nat)
    requires i < |d.projects|
    ensures var w := SectionOf(layout, d, Projects).entries[i];
      && (w.technologies.Some? <==> (layout == CareerCatalyst || layout == NextStep) && d.projects[i].technologies != "")
      && (w.technologies.Some? ==> w.technologies.value == TechnologiesLabel + d.projects[i].technologies)
      && w.link.None?
  {
  }

  /** Only TalentEdge rules off jobs, and there every job but the last. */
  lemma JobSeparators(layout: Layout, d: Resume.ResumeData, i: nat)
    requires i < |d.experience|
    ensures SectionOf(layout, d, Experience).entries[i].separated <==> layout == TalentEdge && i < |d.experience| - 1
  {
  }

  /** A contact item is drawn exactly when its value is non-empty and the layout shows
      that field: CareerCatalyst all five, the others e-mail, phone and location. No
      item is a link; the profiles read "LinkedIn" and "GitHub". */
  lemma ContactsShown(layout: Layout, d: Resume.ResumeData)
    ensures var r := Contacts(layout, d);
      && (forall f :: HasContact(r, f) <==>
            FieldValue(d.personalInfo, f) != "" && (layout == CareerCatalyst || (f != LinkedIn && f != GitHub)))
      && (forall i :: 0 <= i < |r| ==> r[i].href.None?)
      && (forall i :: 0 <= i < |r| && r[i].field == LinkedIn ==> r[i].text == "LinkedIn")
      && (forall i :: 0 <= i < |r| && r[i].field == GitHub ==> r[i].text == "GitHub")
  {
    var fields: seq<Field> := if layout == CareerCatalyst then [Email, Phone, Location, LinkedIn, GitHub] else [Email, Phone, Location];
    ContactListFields(d.personalInfo, fields, Plain);
    ContactListItems(d.personalInfo, fields, Plain);
    forall f ensures f in fields <==> layout == CareerCatalyst || (f != LinkedIn && f != GitHub) {
      match f
      case Email => assert fields[0] == f;
      case Phone => assert fields[1] == f;
      case Location => assert fields[2] == f;
      case LinkedIn => if layout == CareerCatalyst { assert fields[3] == f; }
      case GitHub => if layout == CareerCatalyst { assert fields[4] == f; }
    }
  }

  /** The header always starts with a non-empty name line: the name, or "Your Name".
      VisionPath adds "Executive Professional", TalentEdge adds the first job title or
      "Professional", and the other two layouts show the name alone. */
  lemma HeaderFallbacks(layout: Layout, d: Resume.ResumeData)
    ensures var h := HeaderLines(layout, d);
      && h != [] && h[0] != ""
      && (d.personalInfo.name != "" ==> h[0] == d.personalInfo.name)
      && (d.personalInfo.name == "" ==> h[0] == "Your Name")
      && (layout == VisionPath ==> h[1..] == ["Executive Professional"])
      && (layout == TalentEdge ==> |h| == 2 && h[1] != "" && (FirstTitle(d) != "" ==> h[1] == FirstTitle(d)))
      && (layout == TalentEdge && FirstTitle(d) == "" ==> h[1] == "Professional")
      && (layout in {CareerCatalyst, NextStep} ==> |h| == 1)
  {
  }
}
