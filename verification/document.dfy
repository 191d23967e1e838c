/**
 * The structure shared by the two ways a resume is shown: the portfolio pages the
 * generator writes as HTML and the resume views the renderer draws. Markup, styling and
 * icons are dropped; what is kept is which sections appear, in which order, under which
 * heading, with which entries, and which contact items and links are shown.
 */
module Document {
  import opened Wrappers
  import opened Seqs
  import opened Text
  import opened Resume

  /** The personal-information fields a header or a footer can show. */
  datatype Field = Email | Phone | Location | LinkedIn | GitHub

  /** A contact item or footer link: the text shown and, for a link, its target. */
  datatype Contact = Contact(field: Field, text: string, href: Option<string>)

  datatype SectionKind = Summary | Skills | Experience | Education | Projects

  /** One entry of a section. `separated` is a rule drawn below the entry; `gpa`,
      `technologies` and `link` are `None` when the line is not drawn. */
  datatype Entry =
    | Paragraph(text: string)
    | Skill(name: string)
    | Job(title: string, company: string, duration: string, description: string, separated: bool)
    | School(degree: string, institution: string, year: string, gpa: Option<string>)
    | Work(name: string, description: string, technologies: Option<string>, link: Option<string>)

  datatype Section = Section(kind: SectionKind, heading: string, entries: seq<Entry>)

  function FieldValue(info: PersonalInfo, f: Field): string {
    match f
    case Email => info.email
    case Phone => info.phone
    case Location => info.location
    case LinkedIn => info.linkedin
    case GitHub => info.github
  }

  /** The record has something to show for a section of kind `k`: the test every
      template writes as `summary && …` or `list.length > 0 && …`. */
  predicate Present(d: ResumeData, k: SectionKind) {
    match k
    case Summary => d.personalInfo.summary != ""
    case Skills => |d.skills| > 0
    case Experience => |d.experience| > 0
    case Education => |d.education| > 0
    case Projects => |d.projects| > 0
  }

  /** How many entries a section of kind `k` holds: one per list item, or the single
      summary paragraph. */
  function ItemCount(d: ResumeData, k: SectionKind): nat {
    match k
    case Summary => 1
    case Skills => |d.skills|
    case Experience => |d.experience|
    case Education => |d.education|
    case Projects => |d.projects|
  }

  predicate HasSection(sections: seq<Section>, k: SectionKind) {
    exists i :: 0 <= i < |sections| && sections[i].kind == k
  }

  predicate HasContact(contacts: seq<Contact>, f: Field) {
    exists i :: 0 <= i < |contacts| && contacts[i].field == f
  }

  /** `cond && <section>` in JSX, `cond ? <section> : ''` in a template literal. */
  function Optional(present: bool, s: Section): seq<Section> {
    if present then [s] else []
  }

  /** `experience[0]?.title`, with a missing first entry read as `""`. */
  function FirstTitle(d: ResumeData): string {
    if |d.experience| > 0 then d.experience[0].title else ""
  }

  // ----------------------------------------------------------------------------------
  // Entries

  function SkillEntries(skills: seq<string>): (r: seq<Entry>)
    ensures |r| == |skills|
    ensures forall i :: 0 <= i < |skills| ==> r[i] == Skill(skills[i])
  {
    Map((s: string) => Skill(s), skills)
  }

  /** How a job title is written: as given, or with its white space removed (the
      developer page writes each job as a class whose name is the title). */
  datatype TitleStyle = AsGiven | SpacesRemoved

  function StyledTitle(title: string, style: TitleStyle): string {
    match style
    case AsGiven => title
    case SpacesRemoved => StripSpaces(title)
  }

  /** One entry per job, in order; with `separators`, every entry but the last has a rule
      drawn below it. */
  function JobEntries(jobs: seq<Experience>, style: TitleStyle, separators: bool): (r: seq<Entry>)
    ensures |r| == |jobs|
    ensures forall i :: 0 <= i < |jobs| ==>
      && r[i].Job?
      && r[i].title == StyledTitle(jobs[i].title, style)
      && r[i].company == jobs[i].company
      && r[i].duration == jobs[i].duration
      && r[i].description == jobs[i].description
      && (r[i].separated <==> separators && i < |jobs| - 1)
  {
    seq(|jobs|, i requires 0 <= i < |jobs| =>
      Job(StyledTitle(jobs[i].title, style), jobs[i].company, jobs[i].duration, jobs[i].description,
          separators && i < |jobs| - 1))
  }

  /** An optional line such as `gpa && ' • GPA: ' + gpa` or `link ? <a href=link> : ''`:
      drawn only when the template draws that line at all and the value is non-empty. */
  function ShownIf(show: bool, value: string): (r: Option<string>)
    ensures r.Some? <==> show && value != ""
    ensures r.Some? ==> r.value == value
  {
    if show && value != "" then Some(value) else None
  }

  function SchoolEntries(schools: seq<Education>, showGpa: bool): (r: seq<Entry>)
    ensures |r| == |schools|
    ensures forall i :: 0 <= i < |schools| ==>
      r[i] == School(schools[i].degree, schools[i].institution, schools[i].year, ShownIf(showGpa, schools[i].gpa))
  {
    Map((e: Education) => School(e.degree, e.institution, e.year, ShownIf(showGpa, e.gpa)), schools)
  }

  /** How a project's technologies are written: always after a label (an empty list
      still gets its line), only when non-empty, or never. */
  datatype TechStyle = TechAlways(prefix: string) | TechIfPresent(prefix: string) | TechHidden

  function TechLine(technologies: string, style: TechStyle): (r: Option<string>)
    ensures style.TechAlways? ==> r == Some(style.prefix + technologies)
    ensures style.TechIfPresent? ==> (r.Some? <==> technologies != "") && (r.Some? ==> r.value == style.prefix + technologies)
    ensures style.TechHidden? ==> r == None
  {
    match style
    case TechAlways(prefix) => Some(prefix + technologies)
    case TechIfPresent(prefix) => if technologies != "" then Some(prefix + technologies) else None
    case TechHidden => None
  }

  function ProjectEntries(projects: seq<Project>, tech: TechStyle, showLink: bool): (r: seq<Entry>)
    ensures |r| == |projects|
    ensures forall i :: 0 <= i < |projects| ==>
      r[i] == Work(projects[i].name, projects[i].description,
                   TechLine(projects[i].technologies, tech), ShownIf(showLink, projects[i].link))
  {
    Map((p: Project) => Work(p.name, p.description, TechLine(p.technologies, tech), ShownIf(showLink, p.link)), projects)
  }

  // ----------------------------------------------------------------------------------
  // Section lists

  /** The sections a template lays out: for each kind of `order`, in that order, the
      section `make` draws for it when the record has something to show for it. */
  function Laid(d: ResumeData, order: seq<SectionKind>, make: SectionKind -> Section): seq<Section> {
    if order == [] then []
    else Optional(Present(d, order[0]), make(order[0])) + Laid(d, order[1..], make)
  }

  function Kinds(sections: seq<Section>): seq<SectionKind> {
    Map((s: Section) => s.kind, sections)
  }

  /** A laid-out list holds exactly the kinds of `order` the record has something for,
      each drawn by `make`, and keeps the order of `order`. */
  lemma {:induction false} LaidSpec(d: ResumeData, order: seq<SectionKind>, make: SectionKind -> Section)
    requires forall k :: make(k).kind == k
    ensures var r := Laid(d, order, make);
      && (forall k :: HasSection(r, k) <==> k in order && Present(d, k))
      && (forall i :: 0 <= i < |r| ==> r[i] == make(r[i].kind))
      && IsSubsequence(Kinds(r), order)
  {
    if order != [] {
      LaidSpec(d, order[1..], make);
      var rest := Laid(d, order[1..], make);
      var r := Laid(d, order, make);
      if Present(d, order[0]) {
        assert r == [make(order[0])] + rest;
        assert forall i :: 1 <= i < |r| ==> r[i] == rest[i - 1];
        forall k | HasSection(rest, k)
          ensures HasSection(r, k)
        {
          var i :| 0 <= i < |rest| && rest[i].kind == k;
          assert r[i + 1].kind == k;
        }
        assert HasSection(r, order[0]) by {
          assert r[0].kind == order[0];
        }
        assert Kinds(r) == [order[0]] + Kinds(rest);
        assert Kinds(r)[1..] == Kinds(rest);
      } else {
        assert r == rest;
        assert Kinds(rest) == [] || IsSubsequence(Kinds(rest), order[1..]);
      }
      assert forall k :: k in order <==> k == order[0] || k in order[1..];
    }
  }

  // ----------------------------------------------------------------------------------
  // Contacts

  /** How a contact item is drawn: its value as text, the profile links as the fixed
      labels "LinkedIn" and "GitHub" (optionally as links), or as a footer link whose
      e-mail entry has a template-specific label and a `mailto:` target. */
  datatype ContactStyle = Plain | ProfilesLinked | FooterLinks(emailLabel: string)

  const MailTo: string := "mailto:"

  function ContactFor(info: PersonalInfo, f: Field, style: ContactStyle): Contact {
    var value := FieldValue(info, f);
    match style
    case Plain =>
      if f == LinkedIn then Contact(f, "LinkedIn", None)
      else if f == GitHub then Contact(f, "GitHub", None)
      else Contact(f, value, None)
    case ProfilesLinked =>
      if f == LinkedIn then Contact(f, "LinkedIn", Some(value))
      else if f == GitHub then Contact(f, "GitHub", Some(value))
      else Contact(f, value, None)
    case FooterLinks(emailLabel) =>
      if f == LinkedIn then Contact(f, "LinkedIn", Some(value))
      else if f == GitHub then Contact(f, "GitHub", Some(value))
      else if f == Email then Contact(f, emailLabel, Some(MailTo + value))
      else Contact(f, value, None)
  }

  /** The contact items of `fields`, in that order, each drawn only when its value is
      non-empty. */
  function ContactList(info: PersonalInfo, fields: seq<Field>, style: ContactStyle): seq<Contact> {
    if fields == [] then []
    else
      (if FieldValue(info, fields[0]) != "" then [ContactFor(info, fields[0], style)] else [])
      + ContactList(info, fields[1..], style)
  }

  function Fields(contacts: seq<Contact>): seq<Field> {
    Map((c: Contact) => c.field, contacts)
  }

  /** A field is shown exactly when the template lists it and its value is non-empty;
      the items keep the order of the listed fields, every item is drawn in the
      template's style, and there are at most as many items as listed fields. */
  lemma ContactListSpec(info: PersonalInfo, fields: seq<Field>, style: ContactStyle)
    ensures var r := ContactList(info, fields, style);
      && (forall f :: HasContact(r, f) <==> f in fields && FieldValue(info, f) != "")
      && IsSubsequence(Fields(r), fields)
      && (forall i :: 0 <= i < |r| ==> r[i] == ContactFor(info, r[i].field, style))
      && |r| <= |fields|
  {
    ContactListFields(info, fields, style);
    ContactListOrder(info, fields, style);
    ContactListItems(info, fields, style);
  }

  lemma {:induction false} ContactListOrder(info: PersonalInfo, fields: seq<Field>, style: ContactStyle)
    ensures IsSubsequence(Fields(ContactList(info, fields, style)), fields)
  {
    if fields != [] {
      ContactListOrder(info, fields[1..], style);
      var rest := ContactList(info, fields[1..], style);
      var r := ContactList(info, fields, style);
      if FieldValue(info, fields[0]) != "" {
        assert r == [ContactFor(info, fields[0], style)] + rest;
        assert Fields(r) == [fields[0]] + Fields(rest);
        assert Fields(r)[1..] == Fields(rest);
      } else {
        assert r == rest;
        assert Fields(rest) == [] || IsSubsequence(Fields(rest), fields[1..]);
      }
    }
  }

  lemma {:induction false} ContactListFields(info: PersonalInfo, fields: seq<Field>, style: ContactStyle)
    ensures var r := ContactList(info, fields, style);
      forall f :: HasContact(r, f) <==> f in fields && FieldValue(info, f) != ""
  {
    if fields != [] {
      ContactListFields(info, fields[1..], style);
      var rest := ContactList(info, fields[1..], style);
      var r := ContactList(info, fields, style);
      if FieldValue(info, fields[0]) != "" {
        assert r == [ContactFor(info, fields[0], style)] + rest;
        forall f | HasContact(rest, f)
          ensures HasContact(r, f)
        {
          var i :| 0 <= i < |rest| && rest[i].field == f;
          assert r[i + 1].field == f;
        }
        forall f | HasContact(r, f) && f != fields[0]
          ensures HasContact(rest, f)
        {
          var i :| 0 <= i < |r| && r[i].field == f;
          assert rest[i - 1].field == f;
        }
        assert r[0].field == fields[0];
      } else {
        assert r == rest;
      }
      assert forall f :: f in fields <==> f == fields[0] || f in fields[1..];
    }
  }

  lemma {:induction false} ContactListItems(info: PersonalInfo, fields: seq<Field>, style: ContactStyle)
    ensures var r := ContactList(info, fields, style);
      && (forall i :: 0 <= i < |r| ==> r[i] == ContactFor(info, r[i].field, style))
      && |r| <= |fields|
  {
    if fields != [] {
      ContactListItems(info, fields[1..], style);
      var rest := ContactList(info, fields[1..], style);
      var r := ContactList(info, fields, style);
      if FieldValue(info, fields[0]) != "" {
        assert r == [ContactFor(info, fields[0], style)] + rest;
        assert forall i :: 1 <= i < |r| ==> r[i] == rest[i - 1];
      } else {
        assert r == rest;
      }
    }
  }
}
