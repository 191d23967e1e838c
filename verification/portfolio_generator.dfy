/**
 * The portfolio generator: a resume record becomes one of three single-file portfolio
 * pages ("modern", "creative", "developer"), chosen by a template key, and the
 * download is named after the person.
 *
 * A page is modelled by its content: the head's title, description and keywords, the
 * header lines and contact items, the body sections, the footer links and the name in
 * the copyright line. Styles, scripts, icons and the current date are not modelled.
 */
module PortfolioGenerator {
  import opened Wrappers
  import opened Seqs
  import opened Text
  import Resume
  import opened Document

  datatype Design = Modern | Creative | Developer

  datatype Page = Page(
    title: string,
    description: string,
    keywords: Option<string>,
    heading: seq<string>,
    contacts: seq<Contact>,
    sections: seq<Section>,
    footer: seq<Contact>,
    copyright: string)

  /** The order in which each design lays out its sections; a kind it never shows is
      absent. */
  function SectionOrder(design: Design): seq<SectionKind> {
    match design
    case Modern => [Summary, Skills, Experience, Projects, Education]
    case Creative => [Skills, Experience, Projects, Education]
    case Developer => [Skills, Experience, Projects]
  }

  const HeaderFields: seq<Field> := [Email, Phone, Location, LinkedIn, GitHub]
  const FooterFields: seq<Field> := [Email, LinkedIn, GitHub]

  // ----------------------------------------------------------------------------------
  // The three pages

  function FooterStyle(design: Design): ContactStyle {
    match design
    case Modern => FooterLinks("Email Me")
    case Creative => FooterLinks("Get In Touch")
    case Developer => FooterLinks("Email")
  }

  function Heading(design: Design, k: SectionKind): string {
    match (design, k)
    case (Modern, Summary) => "About Me"
    case (Modern, Skills) => "Skills & Technologies"
    case (Creative, Skills) => "Creative Skills"
    case (Developer, Skills) => "Technical Skills"
    case (Creative, Experience) => "Experience"
    case (_, Experience) => "Work Experience"
    case (_, Projects) => "Featured Projects"
    case (_, _) => "Education"
  }

  /** The section `design` draws for kind `k`. Every design shows the projects'
      technologies line even when it is empty and a link only when there is one, and a
      GPA only when there is one; the developer page writes each job title with its
      white space removed and labels technologies "Tech Stack: ". */
  function SectionOf(design: Design, d: Resume.ResumeData, k: SectionKind): (s: Section)
    ensures s.kind == k
    ensures |s.entries| == ItemCount(d, k)
  {
    var entries :=
      match k
      case Summary => [Paragraph(d.personalInfo.summary)]
      case Skills => SkillEntries(d.skills)
      case Experience => JobEntries(d.experience, if design == Developer then SpacesRemoved else AsGiven, false)
      case Education => SchoolEntries(d.education, true)
      case Projects => ProjectEntries(d.projects, TechAlways(if design == Developer then "Tech Stack: " else ""), true);
    Section(k, Heading(design, k), entries)
  }

  function Sections(design: Design, d: Resume.ResumeData): seq<Section> {
    Laid(d, SectionOrder(design), k => SectionOf(design, d, k))
  }

  function ModernPage(d: Resume.ResumeData): Page {
    var info := d.personalInfo;
    Page(
      title := OrElse(info.name, "Portfolio") + " - Professional Portfolio",
      description := "Professional portfolio of " + OrElse(info.name, "Professional") + " - "
        + OrElse(info.summary, "Experienced professional"),
      keywords := Some(JoinWith(d.skills, ", ") + ", portfolio, professional"),
      heading := [OrElse(info.name, "Your Name"), OrElse(FirstTitle(d), "Professional")],
      contacts := ModernContacts(d),
      sections := Sections(Modern, d),
      footer := Footer(Modern, d),
      copyright := OrElse(info.name, "Portfolio"))
  }

  function CreativePage(d: Resume.ResumeData): Page {
    var info := d.personalInfo;
    Page(
      title := OrElse(info.name, "Portfolio") + " - Creative Portfolio",
      description := "Creative portfolio of " + OrElse(info.name, "Creative Professional") + " - "
        + OrElse(info.summary, "Creative professional"),
      keywords := None,
      heading := [OrElse(info.name, "Creative Professional"), OrElse(info.summary, "Creative Professional & Innovator")],
      contacts := [],
      sections := Sections(Creative, d),
      footer := Footer(Creative, d),
      copyright := OrElse(info.name, "Creative Portfolio"))
  }

  function DeveloperPage(d: Resume.ResumeData): Page {
    var info := d.personalInfo;
    Page(
      title := OrElse(info.name, "Portfolio") + " - Developer Portfolio",
      description := "Developer portfolio of " + OrElse(info.name, "Software Developer") + " - "
        + OrElse(info.summary, "Experienced developer"),
      keywords := None,
      heading := [
        OrElse(info.name, "Software Developer"),
        OrElse(info.summary, "Passionate developer building the future with code"),
        OrElse(info.name, "Developer")],
      contacts := [],
      sections := Sections(Developer, d),
      footer := Footer(Developer, d),
      copyright := OrElse(info.name, "Developer Portfolio"))
  }

  /** The modern page's header contacts: the values as text, the profiles as links. */
  function ModernContacts(d: Resume.ResumeData): seq<Contact> {
    ContactList(d.personalInfo, HeaderFields, ProfilesLinked)
  }

  /** The footer's links: e-mail, LinkedIn and GitHub, each only when non-empty. */
  function Footer(design: Design, d: Resume.ResumeData): seq<Contact> {
    ContactList(d.personalInfo, FooterFields, FooterStyle(design))
  }

  function PageFor(design: Design, d: Resume.ResumeData): Page {
    match design
    case Modern => ModernPage(d)
    case Creative => CreativePage(d)
    case Developer => DeveloperPage(d)
  }

  // ----------------------------------------------------------------------------------
  // Choosing a page by key

  /** The members every plain JavaScript object inherits from `Object.prototype`. */
  const InheritedKeys: set<string> := {
    "constructor", "hasOwnProperty", "isPrototypeOf", "propertyIsEnumerable",
    "toLocaleString", "toString", "valueOf", "__proto__",
    "__defineGetter__", "__defineSetter__", "__lookupGetter__", "__lookupSetter__"
  }

  /** The own keys of the lookup table. */
  function DesignForKey(key: string): (r: Option<Design>)
    ensures r == Some(Modern) <==> key == "modern"
    ensures r == Some(Creative) <==> key == "creative"
    ensures r == Some(Developer) <==> key == "developer"
  {
    if key == "modern" then Some(Modern)
    else if key == "creative" then Some(Creative)
    else if key == "developer" then Some(Developer)
    else None
  }

  /** What `templates[key] || templates.modern` yields: a page, or, for a key naming an
      inherited member, that member (a function or `Object.prototype`, which is truthy
      and so is returned instead of a page). */
  datatype Lookup = Html(page: Page) | Inherited(member: string)

  /** `generateGitHubPages` as written: a plain-object lookup with a `||` fallback. */
  function GenerateGitHubPagesAsWritten(d: Resume.ResumeData, key: string): Lookup {
    match DesignForKey(key)
    case Some(design) => Html(PageFor(design, d))
    case None => if key in InheritedKeys then Inherited(key) else Html(ModernPage(d))
  }

  /** `generateGitHubPages` with the lookup restricted to the table's own keys: the
      "creative" and "developer" keys pick those pages and every other key, including
      the default "modern", gives the modern page. */
  function GenerateGitHubPages(d: Resume.ResumeData, key: string): (p: Page)
    ensures key == "creative" ==> p == CreativePage(d)
    ensures key == "developer" ==> p == DeveloperPage(d)
    ensures key != "creative" && key != "developer" ==> p == ModernPage(d)
  {
    match DesignForKey(key)
    case Some(design) => PageFor(design, d)
    case None => ModernPage(d)
  }

  /** The two agree on every key that does not name an inherited member. */
  lemma AsWrittenAgreesOnOwnKeys(d: Resume.ResumeData, key: string)
    requires key !in InheritedKeys
    ensures GenerateGitHubPagesAsWritten(d, key) == Html(GenerateGitHubPages(d, key))
  {
  }

  /** The key "toString" makes the lookup as written return a function instead of a
      page, so the download would hold that function's source text. */
  lemma InheritedKeyYieldsNoPage(d: Resume.ResumeData)
    ensures GenerateGitHubPagesAsWritten(d, "toString") == Inherited("toString")
    ensures GenerateGitHubPages(d, "toString") == ModernPage(d)
  {
  }

  // ----------------------------------------------------------------------------------
  // The download name

  const FileSuffix: string := "-portfolio.html"

  /** The download name: the name, or "portfolio" when there is none, with every run of
      white space turned into one dash and lower-cased, followed by "-portfolio.html". */
  function DownloadFileName(name: string): (file: string)
    ensures EndsWith(file, FileSuffix)
    ensures NoSpace(file)
  {
    var stem := DashRuns(OrElse(name, "portfolio"));
    DashRunsShape(OrElse(name, "portfolio"));
    LowerKeepsNoSpace(stem);
    SuffixHasNoSpace();
    var file := Lower(stem) + FileSuffix;
    assert file[|file| - |FileSuffix|..] == FileSuffix;
    file
  }

  lemma SuffixHasNoSpace()
    ensures NoSpace(FileSuffix)
  {
    forall i | 0 <= i < |FileSuffix|
      ensures !IsSpace(FileSuffix[i])
    {
      PrintableNotSpace(FileSuffix[i]);
    }
  }

  /** Without a name the download is "portfolio-portfolio.html". */
  lemma DefaultDownloadFileName()
    ensures DownloadFileName("") == "portfolio" + FileSuffix
  {
    DefaultStemKept();
    DashRunsShape("portfolio");
  }

  lemma DefaultStemKept()
    ensures NoSpace("portfolio") && Lower("portfolio") == "portfolio"
  {
    var stem := "portfolio";
    forall i | 0 <= i < |stem|
      ensures !IsSpace(stem[i]) && LowerChar(stem[i]) == stem[i]
    {
      assert stem[i] in "portfolio";
    }
  }

  /** A name without white space is kept, only lower-cased. */
  lemma DownloadFileNameKeepsName(name: string)
    requires name != "" && NoSpace(name)
    ensures DownloadFileName(name) == Lower(name) + FileSuffix
  {
    DashRunsShape(name);
  }

  /** A first and a last name separated by white space are downloaded as the two names,
      lower-cased and joined by one dash: "Jane Doe" becomes "jane-doe-portfolio.html". */
  lemma DownloadFileNameTwoNames(first: string, gap: string, last: string)
    requires first != [] && last != [] && NoSpace(first) && NoSpace(last)
    requires gap != [] && forall k :: 0 <= k < |gap| ==> IsSpace(gap[k])
    ensures DownloadFileName(first + gap + last) == Lower(first) + "-" + Lower(last) + FileSuffix
  {
    var name := first + gap + last;
    assert name[0] == first[0];
    assert DownloadFileName(name) == Lower(DashRuns(name)) + FileSuffix;
    DashRunsJoin(first, gap, last);
    DashRunsShape(first);
    DashRunsShape(last);
    var stem := first + "-" + last;
    assert Lower(stem) == Lower(first) + "-" + Lower(last);
  }

  /** The download name never has an upper-case ASCII letter. */
  lemma DownloadFileNameLowerCase(name: string)
    ensures forall i :: 0 <= i < |DownloadFileName(name)| ==> !('A' <= DownloadFileName(name)[i] <= 'Z')
  {
  }

  // ----------------------------------------------------------------------------------
  // What every page shows

  /** A page shows a section of kind `k` exactly when its design has one and the record
      has something for it (the modern page may show all five; the creative page shows the
      summary in its header instead; the developer page never shows education), in the
      design's order, each with one entry per item of the record. */
  lemma PageSections(design: Design, d: Resume.ResumeData)
    ensures var ss := Sections(design, d);
      && (forall k :: HasSection(ss, k) <==> k in SectionOrder(design) && Present(d, k))
      && IsSubsequence(Kinds(ss), SectionOrder(design))
      && (forall i :: 0 <= i < |ss| ==> ss[i] == SectionOf(design, d, ss[i].kind))
      && (forall i :: 0 <= i < |ss| ==> |ss[i].entries| == ItemCount(d, ss[i].kind))
  {
    LaidSpec(d, SectionOrder(design), k => SectionOf(design, d, k));
  }

  /** Every design writes " • GPA: " and the GPA exactly when the GPA is non-empty, always
      writes a project's technologies line (after "Tech Stack: " on the developer page),
      and links a project exactly when it has a link. */
  lemma EntryDetails(design: Design, d: Resume.ResumeData, i: nat)
    ensures i < |d.education| ==>
      var g := SectionOf(design, d, Education).entries[i].gpa;
      (g.Some? <==> d.education[i].gpa != "") && (g.Some? ==> g.value == d.education[i].gpa)
    ensures i < |d.projects| ==>
      var w := SectionOf(design, d, Projects).entries[i];
      && w.technologies == Some((if design == Developer then "Tech Stack: " else "") + d.projects[i].technologies)
      && (w.link.Some? <==> d.projects[i].link != "")
      && (w.link.Some? ==> w.link.value == d.projects[i].link)
  {
  }

  /** The developer page's job entries name each job by its title with all white space
      removed, every other page by the title as given. */
  lemma DeveloperTitlesHaveNoSpaces(d: Resume.ResumeData, i: nat)
    requires i < |d.experience|
    ensures var e := SectionOf(Developer, d, Experience).entries[i];
      && NoSpace(e.title)
      && IsSubsequence(e.title, d.experience[i].title)
      && |e.title| == |d.experience[i].title| - SpaceCount(d.experience[i].title)
    ensures NoSpace(d.experience[i].title) ==> SectionOf(Developer, d, Experience).entries[i].title == d.experience[i].title
    ensures SectionOf(Modern, d, Experience).entries[i].title == d.experience[i].title
  {
  }

  /** The header's contact items: every non-empty field among e-mail, phone, location,
      LinkedIn and GitHub, in that order; the profiles as labelled links to the stored
      URL. The creative and developer pages have no header contacts. */
  lemma HeaderContacts(d: Resume.ResumeData)
    ensures var r := ModernContacts(d);
      && (forall f :: HasContact(r, f) <==> FieldValue(d.personalInfo, f) != "")
      && IsSubsequence(Fields(r), HeaderFields)
      && (forall i :: 0 <= i < |r| && r[i].field == LinkedIn ==> r[i] == Contact(LinkedIn, "LinkedIn", Some(d.personalInfo.linkedin)))
      && (forall i :: 0 <= i < |r| && r[i].field == GitHub ==> r[i] == Contact(GitHub, "GitHub", Some(d.personalInfo.github)))
    ensures CreativePage(d).contacts == [] && DeveloperPage(d).contacts == []
  {
    ContactListSpec(d.personalInfo, HeaderFields, ProfilesLinked);
    forall f ensures f in HeaderFields {
      match f
      case Email => assert HeaderFields[0] == f;
      case Phone => assert HeaderFields[1] == f;
      case Location => assert HeaderFields[2] == f;
      case LinkedIn => assert HeaderFields[3] == f;
      case GitHub => assert HeaderFields[4] == f;
    }
  }

  /** Every page's footer links to each non-empty e-mail, LinkedIn and GitHub value and
      to nothing else, in that order. */
  lemma FooterLinksFollowData(design: Design, d: Resume.ResumeData)
    ensures var r := Footer(design, d);
      && (forall f :: HasContact(r, f) <==> f in FooterFields && FieldValue(d.personalInfo, f) != "")
      && IsSubsequence(Fields(r), FooterFields)
      && !HasContact(r, Phone) && !HasContact(r, Location)
      && (forall i :: 0 <= i < |r| ==> r[i] == ContactFor(d.personalInfo, r[i].field, FooterStyle(design)))
  {
    ContactListSpec(d.personalInfo, FooterFields, FooterStyle(design));
  }

  /** Every footer item is a link; the e-mail one goes to `mailto:` and the address, the
      profile ones to the stored URL. */
  lemma FooterLinkTargets(design: Design, d: Resume.ResumeData)
    ensures var r := Footer(design, d);
      forall i :: 0 <= i < |r| ==>
        && r[i].href.Some?
        && (r[i].field == Email ==> r[i].href.value == MailTo + d.personalInfo.email)
        && (r[i].field == LinkedIn ==> r[i].href.value == d.personalInfo.linkedin)
        && (r[i].field == GitHub ==> r[i].href.value == d.personalInfo.github)
  {
    FooterLinksFollowData(design, d);
    var r := Footer(design, d);
    forall i | 0 <= i < |r|
      ensures r[i].field in FooterFields
    {
      assert HasContact(r, r[i].field);
    }
  }

  /** Only the modern page carries search keywords: the skills joined by ", ",
      followed by two fixed words. */
  lemma KeywordsOnlyOnModern(design: Design, d: Resume.ResumeData)
    ensures PageFor(design, d).keywords.Some? <==> design == Modern
    ensures design == Modern ==>
      PageFor(design, d).keywords.value == JoinWith(d.skills, ", ") + ", portfolio, professional"
    ensures design == Modern ==> EndsWith(PageFor(design, d).keywords.value, ", portfolio, professional")
  {
    if design == Modern {
      var k := PageFor(design, d).keywords.value;
      var tail := ", portfolio, professional";
      assert k[|k| - |tail|..] == tail;
    }
  }

  /** Each page's name line shows the name when there is one and a fixed placeholder
      otherwise ("Your Name", "Creative Professional", "Software Developer"), so it is
      never empty; the modern page follows it with the first job title or
      "Professional"; the title always names the kind of portfolio. */
  lemma NameFallbacks(design: Design, d: Resume.ResumeData)
    ensures var p := PageFor(design, d);
      && p.heading != [] && p.heading[0] != "" && p.copyright != ""
      && (d.personalInfo.name != "" ==> p.heading[0] == d.personalInfo.name && p.copyright == d.personalInfo.name)
      && (d.personalInfo.name == "" ==> p.title[..9] == "Portfolio")
    ensures ModernPage(d).heading == [OrElse(d.personalInfo.name, "Your Name"), OrElse(FirstTitle(d), "Professional")]
    ensures CreativePage(d).heading[0] == OrElse(d.personalInfo.name, "Creative Professional")
    ensures DeveloperPage(d).heading[0] == OrElse(d.personalInfo.name, "Software Developer")
  {
  }
}
