# CareerPanda resume and portfolio core, modelled in Dafny

This project models the deterministic logic under the CareerPanda resume builder:

- **The resume importer** (`ResumeImporter`). It has two parts:
  - The upload check, which accepts or rejects a file by MIME type, extension and size.
  - The text extractor `parseResumeTextAdvanced`, which builds a resume record in a fixed order of steps:
    1. e-mail and phone;
    2. LinkedIn and GitHub profile URLs;
    3. the name heuristic over the first ten non-blank lines;
    4. the keyword-priority summary;
    5. the skills scan over a 28-entry catalog;
    6. the experience and education slices and their entries.

  The importer also covers the empty-text guard of manual input and the blank record of manual entry.
- **The portfolio generator** (`PortfolioGenerator`). It covers:
  - choosing the modern, creative or developer page by key;
  - the three pages, each as an abstract document of sections and items;
  - the name of the downloaded file.
- **The resume template renderer** (`TemplateRenderer`). It covers:
  - the identifier switch with its alias functions onto four real layouts;
  - the "Template not found" guard;
  - which sections, contacts and entry details each layout draws.
- **The portfolio template catalog** (`PortfolioTemplates`). It covers the three-entry catalog and its lookups by identifier and by category.

Shared modules:

- `Wrappers` holds `Option`.
- `Seqs` holds the leftmost search, subsequences and `map`.
- `Text` holds JavaScript string primitives: the `\s` character class, `trim`, `split`, ASCII `toLowerCase`, case-insensitive occurrence and white-space replacement.
- `Resume` holds the record types.
- `Document` holds the section and item tokens that the generator and the renderer both produce.

The extractor works step by step, so it is written as methods. Each method is proved against a specification function:

- `ExtractName`, `ExtractSummary` and `ExtractSkills` are the loops with `break`.
- `ExtractExperience` and `ExtractEducation` are the `exec` loops.
- `ParseResumeText` is the whole extraction.

Everything else in the source is expressions, and the model writes it as functions with lemmas.

Regular expressions are modelled as follows:

- These are written out with JavaScript's matching order:
  - the name line test;
  - the summary expression `keyword[:\s]*([^\n]{30,300})`, including its backtracking;
  - the profile expressions `prefix[\w-]+`, matched leftmost;
  - the lazy section slices up to a stop word or the end.
- The e-mail, phone, job-triple and degree expressions are parameters (`ResumeImporter.Patterns`). Each returns its first match, or its matches in order.

## Model

| member | source | states |
|---|---|---|
| ResumeImporter.LastIndexOf | src/components/ResumeImporter.tsx:50 | -1 exactly when the character is absent; otherwise a position holding it with no occurrence after it |
| ResumeImporter.Extension | src/components/ResumeImporter.tsx:50 | the whole lowercased name when it has no dot; otherwise a suffix that starts at a dot and has no further dot; always a suffix of the lowercased name |
| ResumeImporter.CheckUpload | src/components/ResumeImporter.tsx:48-67 | Rejected as an invalid type exactly when the MIME type is not PDF/plain text and the extension is not .pdf/.txt. Otherwise rejected as too large exactly when the size exceeds 10·1024·1024 bytes. An accepted file goes to the PDF service exactly when its type is PDF or its lowercased name ends in .pdf |
| ResumeImporter.DotlessNameNeedsAllowedType | src/components/ResumeImporter.tsx:50-55 | a name without a dot is rejected whenever its MIME type is not allowed |
| ResumeImporter.UpperCaseExtensionAccepted | src/components/ResumeImporter.tsx:50-57 | "CV.PDF" with no MIME type and an allowed size is accepted and sent to the PDF service |
| ResumeImporter.NonBlankLines | src/components/ResumeImporter.tsx:147 | keeps only non-empty trimmed lines, no more than there were, and none of them contains a newline |
| ResumeImporter.NonBlankLinesAppend | src/components/ResumeImporter.tsx:147 | one more line appends its trimmed form exactly when that is non-empty, so the kept lines are the trimmed non-blank lines in their original order |
| ResumeImporter.NameCandidates | src/components/ResumeImporter.tsx:147-148 | the candidates are the first min(10, n) of the n trimmed non-blank lines of the text split at newlines, in order; each is non-empty and without a newline |
| ResumeImporter.NameShapedSpaces | src/components/ResumeImporter.tsx:149-153 | a line passes the name test exactly when it is non-empty, made only of ASCII letters, white space and '-', and has 1 to 3 single spaces (2 to 4 space-separated pieces) |
| ResumeImporter.FirstNameShaped | src/components/ResumeImporter.tsx:148-157 | "" exactly when no candidate passes; otherwise a passing candidate with no passing candidate before it |
| ResumeImporter.FirstNameShapedIs | src/components/ResumeImporter.tsx:148-157 | the first passing line wins; a later passing line never does |
| ResumeImporter.ExtractName | src/components/ResumeImporter.tsx:146-157 | the loop with `break` returns the first name-shaped line among the first ten non-blank trimmed lines, or "" |
| ResumeImporter.CaptureFrom | src/components/ResumeImporter.tsx:162 | a capture is 30 to 300 characters long and holds no newline |
| ResumeImporter.CaptureFromNone | src/components/ResumeImporter.tsx:162 | no capture exactly when no gap of at most the greedy length leaves 30 non-newline characters after it |
| ResumeImporter.CaptureFromFound | src/components/ResumeImporter.tsx:162 | a capture is the text slice after the longest gap that leaves room for 30 characters: it takes up to 300 non-newline characters and stops only at 300, a newline or the end of the text |
| ResumeImporter.SummaryAt | src/components/ResumeImporter.tsx:162 | a match at a position captures 30 to 300 characters with no newline |
| ResumeImporter.SummaryAtSpec | src/components/ResumeImporter.tsx:162 | no match where the keyword does not occur (in any letter case); a match is a slice of the text that starts after the keyword and part of the `[:\s]*` run after it |
| ResumeImporter.SummaryMatch | src/components/ResumeImporter.tsx:162-163 | none exactly when no position matches; any match is 30 to 300 characters with no newline |
| ResumeImporter.SummaryMatchLeftmost | src/components/ResumeImporter.tsx:162-163 | a match is the one at the leftmost position where the expression matches; no position before it matches |
| ResumeImporter.SummaryOf | src/components/ResumeImporter.tsx:160-168 | the trimmed capture of the first keyword, in list order, that matches anywhere; "" when none does. The result is "" or at most 300 characters with no newline |
| ResumeImporter.ExtractSummary | src/components/ResumeImporter.tsx:159-168 | the keyword loop with `break` returns that summary |
| ResumeImporter.SkillsInSpec | src/components/ResumeImporter.tsx:178-182 | The skills are exactly the catalog entries whose lowercase form occurs in the lowercased text. They are a subsequence of the catalog (catalog order), no more than the catalog, and free of duplicates when the catalog is |
| ResumeImporter.SkillsIn | src/components/ResumeImporter.tsx:178-182 | no contract of its own; see ResumeImporter.SkillsInSpec and SkillsInAppend |
| ResumeImporter.SkillsInAppend | src/components/ResumeImporter.tsx:178-182 | scanning one more catalog entry appends it exactly when it occurs |
| ResumeImporter.SkillCatalogDistinct | src/components/ResumeImporter.tsx:171-176 | the 28 catalog entries are pairwise distinct |
| ResumeImporter.ExtractSkills | src/components/ResumeImporter.tsx:170-182 | the push loop produces exactly those skills |
| ResumeImporter.HandleText | src/components/ResumeImporter.tsx:139 | The match is the prefix in any letter case, then a maximal run of at least one word character or '-'. It is a slice of the text |
| ResumeImporter.ProfileUrl | src/components/ResumeImporter.tsx:138-144 | "" exactly when the text has no match; otherwise "https://" followed by the leftmost match |
| ResumeImporter.ProfileUrlShape | src/components/ResumeImporter.tsx:138-144 | a non-empty profile URL is "https://", then the prefix in some letter case, then at least one handle character |
| ResumeImporter.SectionSpan | src/components/ResumeImporter.tsx:185 | None exactly when the heading never occurs. Otherwise the span starts at its first case-insensitive occurrence and ends at the first stop word after the heading, or at the end of the text |
| ResumeImporter.SectionText | src/components/ResumeImporter.tsx:185 | no contract of its own; see ResumeImporter.SectionSpan and SectionsDisjoint |
| ResumeImporter.SectionsDisjoint | src/components/ResumeImporter.tsx:185-198 | when neither heading overlaps the other, the experience and education slices do not overlap |
| ResumeImporter.ExtractExperience | src/components/ResumeImporter.tsx:186-195 | one entry per job match, in order: trimmed title, company and duration, and the fixed placeholder description |
| ResumeImporter.JobEntry | src/components/ResumeImporter.tsx:189-194 | no contract of its own; see ResumeImporter.ExtractExperience |
| ResumeImporter.ExtractEducation | src/components/ResumeImporter.tsx:199-207 | one entry per degree match, in order: trimmed degree and institution, the year as matched, and an empty GPA |
| ResumeImporter.DegreeEntry | src/components/ResumeImporter.tsx:201-206 | no contract of its own; see ResumeImporter.ExtractEducation |
| ResumeImporter.ExtractPersonalInfo | src/components/ResumeImporter.tsx:130-168 | the contact, profile, name and summary steps fill exactly the fields of the specification record; location stays "" |
| ResumeImporter.ParseResumeText | src/components/ResumeImporter.tsx:113-210 | the whole extraction equals the specification record `Extracted` |
| ResumeImporter.Extracted | src/components/ResumeImporter.tsx:113-210 | no contract of its own; see ResumeImporter.ParseResumeText and ExtractedShape |
| ResumeImporter.ExtractedShape | src/components/ResumeImporter.tsx:113-210 | Whatever the text: no projects and no location. Every job has the placeholder description and every degree an empty GPA. Skills are distinct catalog entries in catalog order, present exactly when they occur. The name is "" or name-shaped. The summary is "" or one line of at most 300 characters. Each profile URL is "" or starts with "https://" |
| ResumeImporter.EmptyTextYieldsEmptyRecord | src/components/ResumeImporter.tsx:114-128 | empty text gives the fresh record (all fields "", all lists empty) when the abstract matchers find nothing in it |
| ResumeImporter.EmptyTextBlankInfo | src/components/ResumeImporter.tsx:114-123 | empty text leaves every personal field "" |
| ResumeImporter.NoSummaryInEmptyText | src/components/ResumeImporter.tsx:160-168 | no summary keyword matches in empty text |
| ResumeImporter.ProcessManualText | src/components/ResumeImporter.tsx:212-226 | nothing is extracted exactly when the text trims to ""; otherwise the untrimmed text is extracted |
| ResumeImporter.ManualEntryTemplate | src/components/ResumeImporter.tsx:236-261 | blank personal fields, exactly one blank experience entry and one blank education entry, no skills, no projects |
| Text.Trim | src/components/ResumeImporter.tsx:147 | Never longer than the input and uses only its characters. Neither end is white space. "" exactly when the input is all white space |
| Text.TrimSlice | src/components/ResumeImporter.tsx:147 | the result is the input with a white-space prefix and a white-space suffix cut off |
| Text.TrimIdempotent | src/components/ResumeImporter.tsx:147 | trimming twice is trimming once |
| Text.Split | src/components/ResumeImporter.tsx:147 | at least one piece, and no piece contains the separator |
| Text.JoinSplit | src/components/ResumeImporter.tsx:147 | joining the pieces with the separator gives back the text |
| Text.SplitLength | src/components/ResumeImporter.tsx:150-151 | the number of pieces is the number of separators plus one |
| Text.StripSpaces | src/utils/portfolioGenerator.ts:1052 | no white space is left; the result is a subsequence of the input shorter by exactly its white-space count; text without white space is unchanged |
| Text.DashRuns | src/utils/portfolioGenerator.ts:48 | no contract of its own; see Text.DashRunsShape, Text.DashRunsJoin and PortfolioGenerator.DownloadFileNameTwoNames |
| Text.DashRunsShape | src/utils/portfolioGenerator.ts:48 | no white space is left, the result is never longer, and text without white space is unchanged |
| Text.DashRunsJoin | src/utils/portfolioGenerator.ts:48 | a maximal white-space run between two pieces becomes one "-", and the pieces are replaced independently |
| Text.LowerKeepsNoSpace | src/utils/portfolioGenerator.ts:48 | lowercasing adds no white space |
| Text.Lower | src/components/ResumeImporter.tsx:179 | no contract of its own; see Text.LowerKeepsNoSpace and PortfolioGenerator.DownloadFileNameLowerCase |
| Text.JoinWithAppend | src/utils/portfolioGenerator.ts:63 | joining one more item appends the separator and the item (the item alone when the list was empty) |
| Document.SkillEntries | src/utils/portfolioGenerator.ts:408 | one skill item per skill, in order |
| Document.JobEntries | src/components/TemplateRenderer.tsx:490 | one job item per job, in order, with its fields. The title is styled as asked. A rule is drawn below an item exactly when rules are on and it is not the last |
| Document.SchoolEntries | src/utils/portfolioGenerator.ts:443-448 | one item per education entry, in order, with the GPA line decided per entry |
| Document.ProjectEntries | src/utils/portfolioGenerator.ts:429-436 | one item per project, in order, with technologies and link lines decided per project |
| Document.LaidSpec | src/utils/portfolioGenerator.ts:397-450 | a section kind is shown exactly when the layout lists it and the record has something for it; sections follow the layout's order and each is the one the layout draws |
| Document.ContactListSpec | src/utils/portfolioGenerator.ts:387-391 | a contact item appears exactly when the template lists the field and its value is non-empty; items follow the template's field order; every item is drawn in the template's style |
| Document.ContactListOrder | src/utils/portfolioGenerator.ts:387-391 | the fields of the items are a subsequence of the template's fields |
| PortfolioGenerator.DesignForKey | src/utils/portfolioGenerator.ts:33-37 | only "modern", "creative" and "developer" are own keys of the table |
| PortfolioGenerator.GenerateGitHubPages | src/utils/portfolioGenerator.ts:32-40 | "creative" and "developer" give their own pages; every other key gives the modern page |
| PortfolioGenerator.GenerateGitHubPagesAsWritten | src/utils/portfolioGenerator.ts:32-40 | no contract of its own; see PortfolioGenerator.AsWrittenAgreesOnOwnKeys and PortfolioGenerator.InheritedKeyYieldsNoPage |
| PortfolioGenerator.ModernPage | src/utils/portfolioGenerator.ts:55-507 | no contract of its own; see PortfolioGenerator.PageSections, NameFallbacks, HeaderContacts, KeywordsOnlyOnModern and FooterLinksFollowData |
| PortfolioGenerator.CreativePage | src/utils/portfolioGenerator.ts:509-767 | no contract of its own; see PortfolioGenerator.PageSections, NameFallbacks, HeaderContacts and FooterLinksFollowData |
| PortfolioGenerator.DeveloperPage | src/utils/portfolioGenerator.ts:769-1099 | no contract of its own; see PortfolioGenerator.PageSections, DeveloperTitlesHaveNoSpaces, NameFallbacks, HeaderContacts and FooterLinksFollowData |
| PortfolioGenerator.AsWrittenAgreesOnOwnKeys | src/utils/portfolioGenerator.ts:39 | the lookup as written and the corrected one agree on every key that is not an inherited object member |
| PortfolioGenerator.InheritedKeyYieldsNoPage | src/utils/portfolioGenerator.ts:39 | as written, the key "toString" yields the inherited member, not a page; corrected, it yields the modern page |
| PortfolioGenerator.SectionOf | src/utils/portfolioGenerator.ts:404-450 | each drawn section has the requested kind and one entry per item of the record |
| PortfolioGenerator.PageSections | src/utils/portfolioGenerator.ts:397-450 | Each page shows a section exactly when its design has that kind and the field is non-empty. Modern has all five, creative has no summary section, developer never has education. Sections come in the design's order with one entry per item |
| PortfolioGenerator.EntryDetails | src/utils/portfolioGenerator.ts:429-448 | the GPA suffix appears exactly when the GPA is non-empty; the technologies line is always there ("Tech Stack: " on the developer page); a project link exactly when non-empty |
| PortfolioGenerator.DeveloperTitlesHaveNoSpaces | src/utils/portfolioGenerator.ts:1046-1061 | the developer page writes each job title with its white space removed: no white space left, a subsequence of the title shorter by exactly its white-space count, unchanged when it had none; the modern page writes it as given |
| PortfolioGenerator.HeaderContacts | src/utils/portfolioGenerator.ts:386-392 | the modern header lists each non-empty contact field in the order e-mail, phone, location, LinkedIn, GitHub, with the profiles as "LinkedIn"/"GitHub" links to the stored URLs; the other pages have no header contacts |
| PortfolioGenerator.FooterLinksFollowData | src/utils/portfolioGenerator.ts:462-466 | every footer links each non-empty e-mail, LinkedIn and GitHub value, in that order, and nothing else, each in the footer style |
| PortfolioGenerator.FooterLinkTargets | src/utils/portfolioGenerator.ts:463-465 | every footer item is a link: e-mail to "mailto:" plus the address, the profiles to their URLs |
| PortfolioGenerator.KeywordsOnlyOnModern | src/utils/portfolioGenerator.ts:63 | only the modern page has keywords; they are the skills joined with ", " followed by ", portfolio, professional" |
| PortfolioGenerator.NameFallbacks | src/utils/portfolioGenerator.ts:384-1031 | The name line and copyright are never empty and show the name when there is one; without a name the title starts with "Portfolio". The modern heading is the name or "Your Name", then the first job title or "Professional"; the creative name line falls back to "Creative Professional" and the developer one to "Software Developer" |
| PortfolioGenerator.DownloadFileName | src/utils/portfolioGenerator.ts:48 | the file name ends in "-portfolio.html" and contains no white space |
| PortfolioGenerator.DefaultDownloadFileName | src/utils/portfolioGenerator.ts:48 | without a name the file is "portfolio-portfolio.html" |
| PortfolioGenerator.DownloadFileNameKeepsName | src/utils/portfolioGenerator.ts:48 | a name without white space is only lowercased |
| PortfolioGenerator.DownloadFileNameLowerCase | src/utils/portfolioGenerator.ts:48 | the file name has no upper-case ASCII letter |
| PortfolioGenerator.DownloadFileNameTwoNames | src/utils/portfolioGenerator.ts:48 | two white-space-free names separated by white space give both names lowercased, joined by one "-", then "-portfolio.html" (so "Jane Doe" gives "jane-doe-portfolio.html") |
| TemplateRenderer.LayoutForFollowsAliasTable | src/components/TemplateRenderer.tsx:23-50 | Each identifier draws the layout the alias table names, after the eight alias functions delegate. Any other identifier draws CareerCatalyst |
| TemplateRenderer.SwitchCase | src/components/TemplateRenderer.tsx:22-50 | no contract of its own; see TemplateRenderer.LayoutForFollowsAliasTable |
| TemplateRenderer.Delegate | src/components/TemplateRenderer.tsx:565-596 | no contract of its own; see TemplateRenderer.LayoutForFollowsAliasTable |
| TemplateRenderer.RenderDispatch | src/components/TemplateRenderer.tsx:12-59 | Only "Template not found" exactly when the catalog does not know the identifier. Otherwise the alias-table layout is drawn, 300×425 in preview and 800×1100 otherwise |
| TemplateRenderer.Render | src/components/TemplateRenderer.tsx:11-16 | no contract of its own; see TemplateRenderer.RenderDispatch |
| TemplateRenderer.Draw | src/components/TemplateRenderer.tsx:54-563 | no contract of its own; see TemplateRenderer.RenderDispatch, LayoutSections, ContactsShown and HeaderFallbacks |
| TemplateRenderer.SectionOf | src/components/TemplateRenderer.tsx:88-183 | each drawn section has the requested kind and one entry per item of the record |
| TemplateRenderer.LayoutSections | src/components/TemplateRenderer.tsx:90-183 | a layout shows a section exactly when it has that kind and the field is non-empty, in its own order, with one entry per item |
| TemplateRenderer.FullLayouts | src/components/TemplateRenderer.tsx:90-162 | CareerCatalyst and NextStep show each section exactly when its field is non-empty |
| TemplateRenderer.VisionPathOmitsSkills | src/components/TemplateRenderer.tsx:313-423 | VisionPath never shows skills |
| TemplateRenderer.TalentEdgeOmitsProjects | src/components/TemplateRenderer.tsx:426-563 | TalentEdge never shows projects |
| TemplateRenderer.GpaShown | src/components/TemplateRenderer.tsx:155 | a GPA is shown exactly when the layout is CareerCatalyst or NextStep and the GPA is non-empty |
| TemplateRenderer.TechnologiesShown | src/components/TemplateRenderer.tsx:175-179 | "Technologies: " plus the list is shown exactly when the layout is CareerCatalyst or NextStep and the list is non-empty; no project link is ever drawn |
| TemplateRenderer.JobSeparators | src/components/TemplateRenderer.tsx:490 | a job is ruled off exactly when the layout is TalentEdge and it is not the last |
| TemplateRenderer.ContactsShown | src/components/TemplateRenderer.tsx:83-87 | a contact is shown exactly when its value is non-empty and the layout shows that field (CareerCatalyst all five, the others e-mail, phone, location); none is a link |
| TemplateRenderer.Contacts | src/components/TemplateRenderer.tsx:82-87 | no contract of its own; see TemplateRenderer.ContactsShown |
| TemplateRenderer.HeaderFallbacks | src/components/TemplateRenderer.tsx:332-451 | The first header line is the name, or "Your Name" when there is none. VisionPath adds "Executive Professional"; TalentEdge adds the first job title, or "Professional" when there is none; the other layouts show the name alone |
| TemplateRenderer.HeaderLines | src/components/TemplateRenderer.tsx:332-451 | no contract of its own; see TemplateRenderer.HeaderFallbacks |
| PortfolioTemplates.FindById | src/data/portfolioTemplates.ts:129-131 | nothing exactly when no template has the identifier; otherwise the first template that has it |
| PortfolioTemplates.GetPortfolioTemplateById | src/data/portfolioTemplates.ts:129-131 | no contract of its own; see PortfolioTemplates.FindById and LookupFindsEachTemplate |
| PortfolioTemplates.FilterByCategorySpec | src/data/portfolioTemplates.ts:133-137 | exactly the templates of that category, as a subsequence of the catalog (catalog order) |
| PortfolioTemplates.FilterByCategory | src/data/portfolioTemplates.ts:133-137 | no contract of its own; see PortfolioTemplates.FilterByCategorySpec |
| PortfolioTemplates.GetPortfolioTemplatesByCategory | src/data/portfolioTemplates.ts:133-137 | no contract of its own; see PortfolioTemplates.FilterByCategorySpec and CategoryLookups |
| PortfolioTemplates.CatalogIdsDistinct | src/data/portfolioTemplates.ts:42-100 | the three identifiers are pairwise distinct |
| PortfolioTemplates.LookupFindsEachTemplate | src/data/portfolioTemplates.ts:129-131 | each template is found by its own identifier |
| PortfolioTemplates.CategoryLookups | src/data/portfolioTemplates.ts:133-137 | "minimal", "creative" and "corporate" each select their one template; "developer" and any string that is not a category select nothing |

## Left out

- ResumeImporter.Patterns: the e-mail, phone, job-triple and degree expressions are parameters, not written-out matchers. Consequences:
  - The degree expression's `[^\\n]` classes are not modelled. They exclude backslash and `n`, not newline.
  - ResumeImporter.EmptyTextYieldsEmptyRecord assumes, as a precondition, that these matchers find nothing in empty text.
- Text.Lower: `toLowerCase` is modelled for ASCII letters only; the lowercasing in the skills scan, the upload extension and the download name may differ from JavaScript on non-ASCII letters.
- PortfolioGenerator.DownloadFileName: the same ASCII-only lowercasing applies.
- ResumeImporter.CaptureFrom: the model counts Unicode scalar values, but `[^\n]{30,300}` without the `u` flag counts UTF-16 code units. On text outside the Basic Multilingual Plane a JavaScript capture can split a surrogate pair, and "at most 300" then means 300 code units, not 300 characters.
- File reading, the PDF parsing service, toasts, React state, drag and drop: I/O and user-interface state. The upload check decides which reader would be used, and nothing past that.
- The Blob, object URL and anchor click of the download; only the file name is modelled.
- Markup, styles, scripts, icons, the footer year (`new Date()`), HTML escaping (there is none in the source) and the renderer's 0.4 scaling of fonts and spacing (floating point). Pages and views are modelled as sections of items, contact items and header lines.
- The resume-template catalog used by the renderer's not-found guard (`getTemplateById` in src/data/resumeTemplates.ts) is not part of this model. It enters as the set of identifiers it knows.
- The renderer's `ResumeData` type comes from src/utils/pdfGenerator.ts, which is not part of this model; it is taken to have the same shape as the importer's record.
- The generator's table builds all three pages before choosing one; the pages are pure, so only the chosen one is modelled.
- The lookups never change the catalog: the catalog is a constant and the lookups are functions, so there is nothing to state.
- PortfolioTemplates.LayoutName and PortfolioTemplates.CategoryName only spell the string unions of the catalog type; they carry no contract.

## Findings

| source | as written | input that shows it | evidently intended | confidence | as-written member | corrected member |
|---|---|---|---|---|---|---|
| src/utils/portfolioGenerator.ts:39 | `templates[template] \|\| templates.modern` looks the key up on a plain object, so a key naming a member inherited from `Object.prototype` returns that member (a truthy function or object) instead of falling back | template key "toString" (also "constructor", "valueOf", "__proto__", …) | every key other than "creative" and "developer" gives the modern page | not executed | PortfolioGenerator.InheritedKeyYieldsNoPage | PortfolioGenerator.GenerateGitHubPages |
