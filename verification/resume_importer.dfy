/**
 * The resume importer: the upload guard applied before any file is read, and the
 * text extractor that turns plain resume text into a `ResumeData` record by a fixed
 * sequence of independent heuristics.
 *
 * The name, summary, profile-URL and section-slicing regular expressions are modelled
 * exactly (leftmost match, greedy/lazy choice and backtracking order). The e-mail,
 * phone, job-triple and degree expressions are supplied as `Patterns`: functions that
 * return the first match, or every successive match of a global `exec` loop, in order.
 */
module ResumeImporter {
  import opened Wrappers
  import opened Seqs
  import opened Text
  import opened Resume

  // ----------------------------------------------------------------------------------
  // Upload guard

  const AllowedTypes: seq<string> := ["application/pdf", "text/plain"]
  const AllowedExtensions: seq<string> := [".pdf", ".txt"]
  const MaxUploadBytes: nat := 10 * 1024 * 1024

  /** How an accepted file is turned into text: the PDF service, or a local text read. */
  datatype Route = PdfService | TextReader

  datatype UploadCheck = Accepted(route: Route) | InvalidType | TooLarge

  /** `s.lastIndexOf(c)`. */
  function LastIndexOf(s: string, c: char): (r: int)
    ensures -1 <= r < |s|
    ensures r >= 0 ==> s[r] == c && c !in s[r + 1..]
    ensures r == -1 <==> c !in s
  {
    if s == [] then -1
    else if s[|s| - 1] == c then |s| - 1
    else
      var r := LastIndexOf(s[..|s| - 1], c);
      assert s == s[..|s| - 1] + [s[|s| - 1]];
      r
  }

  /** `name.toLowerCase().substring(name.lastIndexOf('.'))`; with no dot, `substring(-1)`
      is the whole lower-cased name. */
  function Extension(name: string): (ext: string)
    ensures '.' !in name ==> ext == Lower(name)
    ensures '.' in name ==> |ext| >= 1 && ext[0] == '.' && '.' !in ext[1..]
    ensures EndsWith(Lower(name), ext)
  {
    var i := LastIndexOf(name, '.');
    var ext := Lower(name)[if i < 0 then 0 else i..];
    assert '.' in name ==> forall k :: 1 <= k < |ext| ==> ext[k] == LowerChar(name[i + k]);
    ext
  }

  /** The guards of `handleFile`, in their order, and the choice of reader that follows. */
  function CheckUpload(name: string, mimeType: string, size: nat): (v: UploadCheck)
    ensures v == InvalidType <==> mimeType !in AllowedTypes && Extension(name) !in AllowedExtensions
    ensures v == TooLarge <==> v != InvalidType && size > MaxUploadBytes
    ensures v.Accepted? ==> size <= MaxUploadBytes
    ensures v.Accepted? ==> (v.route == PdfService <==> mimeType == "application/pdf" || EndsWith(Lower(name), ".pdf"))
  {
    if mimeType !in AllowedTypes && Extension(name) !in AllowedExtensions then InvalidType
    else if size > MaxUploadBytes then TooLarge
    else Accepted(if mimeType == "application/pdf" || EndsWith(Lower(name), ".pdf") then PdfService else TextReader)
  }

  /** A file name without a dot never passes on its extension: its "extension" is the
      whole lower-cased name, which has no dot, while both allowed extensions do. */
  lemma DotlessNameNeedsAllowedType(name: string, mimeType: string, size: nat)
    requires '.' !in name && mimeType !in AllowedTypes
    ensures CheckUpload(name, mimeType, size) == InvalidType
  {
    var ext := Extension(name);
    assert forall k :: 0 <= k < |ext| ==> ext[k] == LowerChar(name[k]);
    assert '.' !in ext;
    assert ".pdf"[0] == '.' && ".txt"[0] == '.';
  }

  /** An upper-case extension passes: the comparison is on the lower-cased name. */
  lemma UpperCaseExtensionAccepted(size: nat)
    requires size <= MaxUploadBytes
    ensures CheckUpload("CV.PDF", "", size) == Accepted(PdfService)
  {
    assert Lower("CV.PDF") == "cv.pdf";
    assert LastIndexOf("CV.PDF", '.') == 2;
    assert Extension("CV.PDF") == ".pdf";
  }

  // ----------------------------------------------------------------------------------
  // Abstracted regular expressions

  /** Capture groups 1-3 of the job pattern, untrimmed. */
  datatype JobMatch = JobMatch(title: string, company: string, duration: string)

  /** Capture groups 1-3 of the degree pattern, untrimmed. */
  datatype DegreeMatch = DegreeMatch(degree: string, institution: string, year: string)

  /** The regular expressions whose full semantics the model leaves abstract:
      `email` and `phone` give the first match; `jobs` and `degrees` give the successive
      matches of a global `exec` loop over the string they are applied to. */
  datatype Patterns = Patterns(
    email: string -> Option<string>,
    phone: string -> Option<string>,
    jobs: string -> seq<JobMatch>,
    degrees: string -> seq<DegreeMatch>)

  function MatchOrEmpty(m: Option<string>): string {
    if m.Some? then m.value else ""
  }

  // ----------------------------------------------------------------------------------
  // Name

  const NameLineLimit: nat := 10

  /** `.map(line => line.trim()).filter(line => line.length > 0)`. */
  function NonBlankLines(parts: seq<string>): (lines: seq<string>)
    ensures |lines| <= |parts|
    ensures forall i :: 0 <= i < |lines| ==> lines[i] != []
    ensures (forall i :: 0 <= i < |parts| ==> '\n' !in parts[i]) ==> forall i :: 0 <= i < |lines| ==> '\n' !in lines[i]
  {
    if parts == [] then []
    else
      var t := Trim(parts[0]);
      var rest := NonBlankLines(parts[1..]);
      if t == [] then rest
      else
        assert '\n' !in parts[0] ==> '\n' !in t;
        [t] + rest
  }

  /** Trimming one more piece adds it to the lines exactly when something is left of it:
      the lines are the trimmed pieces, in order, with the blank ones dropped. */
  lemma {:induction false} NonBlankLinesAppend(parts: seq<string>, p: string)
    ensures NonBlankLines(parts + [p]) == NonBlankLines(parts) + (if Trim(p) == "" then [] else [Trim(p)])
  {
    if parts != [] {
      assert (parts + [p])[1..] == parts[1..] + [p];
      NonBlankLinesAppend(parts[1..], p);
    }
  }

  /** `lines.slice(0, 10)` of the trimmed non-blank lines of the text: their first ten,
      or all of them when there are fewer. */
  function NameCandidates(text: string): (lines: seq<string>)
    ensures var all := NonBlankLines(Split(text, '\n'));
      && |lines| == (if |all| < NameLineLimit then |all| else NameLineLimit)
      && lines == all[..|lines|]
    ensures forall i :: 0 <= i < |lines| ==> lines[i] != [] && '\n' !in lines[i]
  {
    var all := NonBlankLines(Split(text, '\n'));
    if |all| <= NameLineLimit then all else all[..NameLineLimit]
  }

  /** Every character matches `[A-Za-z\s\-]`. */
  predicate NameChars(line: string) {
    forall i :: 0 <= i < |line| ==> IsAsciiLetter(line[i]) || IsSpace(line[i]) || line[i] == '-'
  }

  /** The test a line must pass to be taken as the name. */
  predicate NameShaped(line: string) {
    && line != []
    && NameChars(line)
    && 2 <= |Split(line, ' ')| <= 4
    && '@' !in line
    && (forall i :: 0 <= i < |line| ==> !IsDigit(line[i]))
  }

  /** The `@` and digit tests are implied by the character class, and `split(' ')` has
      2 to 4 pieces exactly when the line holds 1 to 3 spaces: a name is a non-empty
      run of letters, white space and hyphens with one to three blanks in it. */
  lemma NameShapedSpaces(line: string)
    ensures NameShaped(line) <==> line != [] && NameChars(line) && 1 <= Count(line, ' ') <= 3
  {
    SplitLength(line, ' ');
    if NameChars(line) {
      assert !IsSpace('@');
      assert forall i :: 0 <= i < |line| ==> line[i] != '@';
      assert forall i :: 0 <= i < |line| ==> !IsDigit(line[i]) by {
        forall i | 0 <= i < |line|
          ensures !IsDigit(line[i])
        {
          if IsSpace(line[i]) {
            assert line[i] in SpaceChars;
          }
        }
      }
    }
  }

  /** The first name-shaped line, or `""` when there is none. */
  function FirstNameShaped(lines: seq<string>): (name: string)
    ensures name == "" <==> forall i :: 0 <= i < |lines| ==> !NameShaped(lines[i])
    ensures name != "" ==>
      exists k :: 0 <= k < |lines| && name == lines[k] && NameShaped(lines[k]) && (forall j :: 0 <= j < k ==> !NameShaped(lines[j]))
  {
    var shaped := (i: nat) => i < |lines| && NameShaped(lines[i]);
    assert forall i: nat :: i < |lines| ==> (shaped(i) <==> NameShaped(lines[i]));
    match FirstFrom(shaped, 0, |lines|)
    case None => ""
    case Some(k) => lines[k]
  }

  /** The first shaped line is the one every earlier line fails to beat. */
  lemma FirstNameShapedIs(lines: seq<string>, i: nat)
    requires i < |lines| && NameShaped(lines[i])
    requires forall k :: 0 <= k < i ==> !NameShaped(lines[k])
    ensures FirstNameShaped(lines) == lines[i]
  {
  }

  /** The name loop: the first of the first ten non-blank lines that is name-shaped. */
  method ExtractName(text: string) returns (name: string)
    ensures name == FirstNameShaped(NameCandidates(text))
  {
    var lines := NameCandidates(text);
    name := "";
    var i := 0;
    while i < |lines|
      invariant 0 <= i <= |lines|
      invariant forall k :: 0 <= k < i ==> !NameShaped(lines[k])
    {
      if NameShaped(lines[i]) {
        name := lines[i];
        FirstNameShapedIs(lines, i);
        break;
      }
      i := i + 1;
    }
  }

  // ----------------------------------------------------------------------------------
  // Summary

  const SummaryKeywords: seq<string> := ["summary", "objective", "profile", "about"]
  const SummaryMin: nat := 30
  const SummaryMax: nat := 300

  /** The class `[:\s]`. */
  predicate SummaryGap(c: char) { c == ':' || IsSpace(c) }

  /** `c` is a group `([^\n]{30,300})` that starts `g` characters after `q`: between 30
      and 300 characters of the text, none a newline, and as many as the greedy group
      takes (it stops only at 300 characters, a newline or the end of the text). */
  predicate CaptureAt(text: string, q: nat, g: nat, c: string) {
    && q + g + |c| <= |text|
    && c == text[q + g..q + g + |c|]
    && SummaryMin <= |c| <= SummaryMax
    && '\n' !in c
    && (|c| == SummaryMax || q + g + |c| == |text| || text[q + g + |c|] == '\n')
  }

  /** Group 1 of `[:\s]*([^\n]{30,300})` when the greedy gap `[:\s]*` starting at `q` has
      kept `j` characters: a group of at least 30 non-newline characters, as many as
      300, is taken if possible; otherwise the gap gives back one character and retries.
      So the capture starts after the longest gap, of at most `j`, that leaves room for
      30 characters, and there is none exactly when no such gap exists. */
  function CaptureFrom(text: string, q: nat, j: nat): (r: Option<string>)
    requires q + j <= |text|
    ensures r.Some? ==> SummaryMin <= |r.value| <= SummaryMax && '\n' !in r.value
    decreases j
  {
    var n := Run(text, q + j, NotNewline);
    if n >= SummaryMin then
      var len := if n < SummaryMax then n else SummaryMax;
      var capture := text[q + j..q + j + len];
      assert forall k :: 0 <= k < len ==> capture[k] == text[q + j + k];
      Some(capture)
    else if j == 0 then None
    else CaptureFrom(text, q, j - 1)
  }

  /** No start position from `lo` to `hi` has 30 non-newline characters after it. */
  predicate NoRoomBetween(text: string, lo: nat, hi: nat)
    requires hi <= |text|
  {
    forall e: nat :: lo <= e <= hi ==> Run(text, e, NotNewline) < SummaryMin
  }

  lemma NoRoomExtend(text: string, lo: nat, hi: nat)
    requires hi + 1 <= |text|
    requires NoRoomBetween(text, lo, hi)
    requires Run(text, hi + 1, NotNewline) < SummaryMin
    ensures NoRoomBetween(text, lo, hi + 1)
  {
  }

  /** There is no capture exactly when no gap of at most `j` characters leaves room for
      30 characters. */
  lemma {:induction false} CaptureFromNone(text: string, q: nat, j: nat)
    requires q + j <= |text|
    ensures CaptureFrom(text, q, j).None? <==> NoRoomBetween(text, q, q + j)
  {
    var last: nat := q + j;
    if Run(text, last, NotNewline) >= SummaryMin {
      assert CaptureFrom(text, q, j).Some?;
      assert !NoRoomBetween(text, q, q + j);
    } else if j > 0 {
      assert CaptureFrom(text, q, j) == CaptureFrom(text, q, j - 1);
      CaptureFromNone(text, q, j - 1);
      if NoRoomBetween(text, q, q + (j - 1)) {
        NoRoomExtend(text, q, q + (j - 1));
      }
    } else {
      assert CaptureFrom(text, q, j).None?;
      assert NoRoomBetween(text, q, q + j);
    }
  }

  /** `c` is the capture after some gap of at most `j` characters, and no longer gap
      leaves room for 30 characters. */
  predicate LongestGapCapture(text: string, q: nat, j: nat, c: string)
    requires q + j <= |text|
  {
    exists g: nat :: g <= j && CaptureAt(text, q, g, c) && NoRoomBetween(text, q + g + 1, q + j)
  }

  /** A capture starts after the longest gap, of at most `j` characters, that leaves room
      for 30 characters. */
  lemma {:induction false} CaptureFromFound(text: string, q: nat, j: nat)
    requires q + j <= |text|
    ensures var r := CaptureFrom(text, q, j);
      r.Some? ==> LongestGapCapture(text, q, j, r.value)
  {
    if Run(text, q + j, NotNewline) >= SummaryMin {
      CaptureFromTakes(text, q, j);
      assert NoRoomBetween(text, q + j + 1, q + j);
    } else if j > 0 {
      var r := CaptureFrom(text, q, j);
      assert r == CaptureFrom(text, q, j - 1);
      CaptureFromFound(text, q, j - 1);
      if r.Some? {
        LongestGapExtend(text, q, j - 1, r.value);
      }
    }
  }

  /** A gap one longer that leaves no room does not change the longest one. */
  lemma LongestGapExtend(text: string, q: nat, j: nat, c: string)
    requires q + j + 1 <= |text|
    requires Run(text, q + j + 1, NotNewline) < SummaryMin
    requires LongestGapCapture(text, q, j, c)
    ensures LongestGapCapture(text, q, j + 1, c)
  {
    var g: nat :| g <= j && CaptureAt(text, q, g, c) && NoRoomBetween(text, q + g + 1, q + j);
    NoRoomExtend(text, q + g + 1, q + j);
  }

  /** With room for 30 characters after a gap of `j`, the capture starts right there. */
  lemma CaptureFromTakes(text: string, q: nat, j: nat)
    requires q + j <= |text|
    requires Run(text, q + j, NotNewline) >= SummaryMin
    ensures CaptureFrom(text, q, j).Some?
    ensures CaptureAt(text, q, j, CaptureFrom(text, q, j).value)
  {
    var c := CaptureFrom(text, q, j).value;
    var n := Run(text, q + j, NotNewline);
    assert |c| == if n < SummaryMax then n else SummaryMax;
    assert c == text[q + j..q + j + |c|];
  }

  /** `keyword` occurs at `p`, and `c` is the group that starts `g` characters into the
      `[:\s]` run after it. */
  predicate KeywordCapture(text: string, p: nat, keyword: string, g: nat, c: string) {
    && OccursAtIgnoreCase(text, p, keyword)
    && g <= Run(text, p + |keyword|, SummaryGap)
    && CaptureAt(text, p + |keyword|, g, c)
  }

  /** The summary expression for one keyword, tried at start position `p`. */
  function SummaryAt(text: string, keyword: string, p: nat): (r: Option<string>)
    ensures r.Some? ==> SummaryMin <= |r.value| <= SummaryMax && '\n' !in r.value
  {
    if OccursAtIgnoreCase(text, p, keyword) then
      var q := p + |keyword|;
      CaptureFrom(text, q, Run(text, q, SummaryGap))
    else None
  }

  /** The expression fails at `p` unless the keyword occurs there, and otherwise
      captures the group that follows some part of the `[:\s]` run after the keyword. */
  lemma SummaryAtSpec(text: string, keyword: string, p: nat)
    ensures var r := SummaryAt(text, keyword, p);
      && (!OccursAtIgnoreCase(text, p, keyword) ==> r.None?)
      && (r.Some? ==> exists g: nat :: KeywordCapture(text, p, keyword, g, r.value))
  {
    var r := SummaryAt(text, keyword, p);
    if r.Some? {
      var q := p + |keyword|;
      var gap := Run(text, q, SummaryGap);
      CaptureFromFound(text, q, gap);
      var g: nat :| g <= gap && CaptureAt(text, q, g, r.value);
      assert KeywordCapture(text, p, keyword, g, r.value);
    }
  }

  /** `text.match(new RegExp(keyword + '[:\\s]*([^\\n]{30,300})', 'i'))`, group 1:
      the capture at the leftmost start position where the expression matches. */
  function SummaryMatch(text: string, keyword: string): (r: Option<string>)
    ensures r.Some? ==> SummaryMin <= |r.value| <= SummaryMax && '\n' !in r.value
    ensures r.None? <==> forall p: nat :: p <= |text| ==> SummaryAt(text, keyword, p).None?
  {
    var matches := (p: nat) => SummaryAt(text, keyword, p).Some?;
    assert forall p: nat :: matches(p) <==> SummaryAt(text, keyword, p).Some?;
    match FirstFrom(matches, 0, |text| + 1)
    case None => None
    case Some(p) => SummaryAt(text, keyword, p)
  }

  /** The match is the capture at the leftmost start position where the expression
      matches. */
  lemma SummaryMatchLeftmost(text: string, keyword: string)
    ensures var r := SummaryMatch(text, keyword);
      r.Some? ==> exists p: nat ::
        && p <= |text|
        && SummaryAt(text, keyword, p) == r
        && forall q: nat :: q < p ==> SummaryAt(text, keyword, q).None?
  {
    var matches := (p: nat) => SummaryAt(text, keyword, p).Some?;
    assert forall p: nat :: matches(p) <==> SummaryAt(text, keyword, p).Some?;
    var found := FirstFrom(matches, 0, |text| + 1);
    if found.Some? {
      var p := found.value;
      assert SummaryAt(text, keyword, p) == SummaryMatch(text, keyword);
      assert forall q: nat :: q < p ==> !matches(q);
    }
  }

  /** Keyword `k` is the first of `keywords` whose expression matches the text. */
  predicate FirstMatchingKeyword(text: string, keywords: seq<string>, k: nat) {
    && k < |keywords|
    && SummaryMatch(text, keywords[k]).Some?
    && forall j :: 0 <= j < k ==> SummaryMatch(text, keywords[j]).None?
  }

  /** Keywords are tried in order and the first with any match decides, even when a later
      keyword occurs earlier in the text; the result is that keyword's capture trimmed
      (possibly to `""`), or `""` when no keyword matches. */
  function SummaryOf(text: string, keywords: seq<string>): (summary: string)
    ensures summary == "" || (|summary| <= SummaryMax && '\n' !in summary)
    ensures (forall k :: 0 <= k < |keywords| ==> SummaryMatch(text, keywords[k]).None?) ==> summary == ""
    ensures forall k: nat :: FirstMatchingKeyword(text, keywords, k) ==>
      summary == Trim(SummaryMatch(text, keywords[k]).value)
  {
    if keywords == [] then ""
    else
      match SummaryMatch(text, keywords[0])
      case Some(capture) => Trim(capture)
      case None =>
        FirstMatchingKeywordShift(text, keywords);
        SummaryOf(text, keywords[1..])
  }

  /** When the first keyword does not match, the first matching keyword is found among the
      rest, one position earlier. */
  lemma FirstMatchingKeywordShift(text: string, keywords: seq<string>)
    requires keywords != [] && SummaryMatch(text, keywords[0]).None?
    ensures forall k :: 1 <= k < |keywords| ==> keywords[1..][k - 1] == keywords[k]
    ensures forall k: nat :: FirstMatchingKeyword(text, keywords, k) ==> k >= 1 && FirstMatchingKeyword(text, keywords[1..], k - 1)
  {
  }

  /** The summary loop, with its `break` at the first keyword that matches. */
  method ExtractSummary(text: string) returns (summary: string)
    ensures summary == SummaryOf(text, SummaryKeywords)
  {
    var keywords := SummaryKeywords;
    summary := "";
    var i := 0;
    while i < |keywords|
      invariant 0 <= i <= |keywords|
      invariant forall j :: 0 <= j < i ==> SummaryMatch(text, keywords[j]).None?
    {
      var m := SummaryMatch(text, keywords[i]);
      if m.Some? {
        assert FirstMatchingKeyword(text, keywords, i);
        summary := Trim(m.value);
        break;
      }
      i := i + 1;
    }
  }

  // ----------------------------------------------------------------------------------
  // Skills

  const SkillCatalog: seq<string> := [
    "JavaScript", "Python", "Java", "React", "Node.js", "Angular", "Vue.js",
    "HTML", "CSS", "TypeScript", "PHP", "C++", "C#", "Ruby", "Go",
    "MySQL", "PostgreSQL", "MongoDB", "Redis", "AWS", "Azure", "Docker",
    "Kubernetes", "Git", "Linux", "Agile", "Scrum", "Project Management"
  ]

  /** The catalog entries whose lower-case form occurs in the lower-cased text, in
      catalog order. */
  function SkillsIn(lowerText: string, catalog: seq<string>): seq<string> {
    if catalog == [] then []
    else (if Includes(lowerText, Lower(catalog[0])) then [catalog[0]] else []) + SkillsIn(lowerText, catalog[1..])
  }

  /** The skills found are exactly the catalog entries the text mentions, kept in catalog
      order, and a catalog without repeats gives skills without repeats. */
  lemma {:induction false} SkillsInSpec(lowerText: string, catalog: seq<string>)
    ensures var skills := SkillsIn(lowerText, catalog);
      && |skills| <= |catalog|
      && IsSubsequence(skills, catalog)
      && (forall s :: s in skills <==> s in catalog && Includes(lowerText, Lower(s)))
      && (NoDuplicates(catalog) ==> NoDuplicates(skills))
  {
    if catalog != [] {
      SkillsInSpec(lowerText, catalog[1..]);
      var rest := SkillsIn(lowerText, catalog[1..]);
      if Includes(lowerText, Lower(catalog[0])) {
        var skills := [catalog[0]] + rest;
        assert skills[1..] == rest;
        assert forall s :: s in catalog <==> s == catalog[0] || s in catalog[1..];
        if NoDuplicates(catalog) {
          assert forall j :: 0 <= j < |catalog| - 1 ==> catalog[1..][j] == catalog[j + 1];
          assert catalog[0] !in catalog[1..];
        }
      } else {
        assert SkillsIn(lowerText, catalog) == rest;
        assert forall s :: s in catalog <==> s == catalog[0] || s in catalog[1..];
      }
    }
  }

  lemma {:induction false} SkillsInAppend(lowerText: string, catalog: seq<string>, s: string)
    ensures SkillsIn(lowerText, catalog + [s]) ==
      SkillsIn(lowerText, catalog) + (if Includes(lowerText, Lower(s)) then [s] else [])
  {
    if catalog != [] {
      assert (catalog + [s])[1..] == catalog[1..] + [s];
      SkillsInAppend(lowerText, catalog[1..], s);
    }
  }

  /** No catalog entry is listed twice, so no skill is ever pushed twice. */
  lemma SkillCatalogDistinct()
    ensures NoDuplicates(SkillCatalog)
  {
    var c := SkillCatalog;
    forall i, j | 0 <= i < j < |c|
      ensures c[i] != c[j]
    {
      assert |c[i]| != |c[j]| || c[i][0] != c[j][0] || c[i][1] != c[j][1] || c[i][2] != c[j][2];
    }
  }

  /** The skills loop: one membership test per catalog entry, pushing matches. */
  method ExtractSkills(text: string) returns (skills: seq<string>)
    ensures skills == SkillsIn(Lower(text), SkillCatalog)
  {
    var lowerText := Lower(text);
    var catalog := SkillCatalog;
    skills := [];
    var i := 0;
    while i < |catalog|
      invariant 0 <= i <= |catalog|
      invariant skills == SkillsIn(lowerText, catalog[..i])
    {
      var skill := catalog[i];
      SkillsInAppend(lowerText, catalog[..i], skill);
      assert catalog[..i + 1] == catalog[..i] + [skill];
      if Includes(lowerText, Lower(skill)) {
        skills := skills + [skill];
      }
      i := i + 1;
    }
    assert catalog[..i] == catalog;
  }

  // ----------------------------------------------------------------------------------
  // LinkedIn and GitHub

  const LinkedInPrefix: string := "linkedin.com/in/"
  const GitHubPrefix: string := "github.com/"
  const UrlScheme: string := "https://"

  /** The class `[\w-]`. */
  predicate IsHandleChar(c: char) { IsWordChar(c) || c == '-' }

  /** `prefix[\w-]+` matches (case-insensitively) at p. */
  predicate HandleAt(text: string, p: nat, prefix: string) {
    OccursAtIgnoreCase(text, p, prefix) && p + |prefix| < |text| && IsHandleChar(text[p + |prefix|])
  }

  /** The greedy match of `prefix[\w-]+` at p: the prefix and the whole handle run. */
  function HandleText(text: string, p: nat, prefix: string): (m: string)
    requires HandleAt(text, p, prefix)
    ensures |prefix| < |m| && p + |m| <= |text| && m == text[p..p + |m|]
    ensures Lower(m[..|prefix|]) == Lower(prefix)
    ensures forall k :: |prefix| <= k < |m| ==> IsHandleChar(m[k])
    ensures p + |m| == |text| || !IsHandleChar(text[p + |m|])
  {
    var q := p + |prefix|;
    var n := Run(text, q, IsHandleChar);
    assert text[p..q + n][..|prefix|] == text[p..q];
    text[p..q + n]
  }

  /** `https://` followed by the leftmost match of `prefix[\w-]+` (flag `i`), or `""`. */
  function ProfileUrl(text: string, prefix: string): (url: string)
    ensures url == "" <==> forall p: nat :: !HandleAt(text, p, prefix)
    ensures url != "" ==> exists p: nat ::
      && HandleAt(text, p, prefix)
      && (forall q: nat :: q < p ==> !HandleAt(text, q, prefix))
      && url == UrlScheme + HandleText(text, p, prefix)
  {
    var matches := (p: nat) => HandleAt(text, p, prefix);
    assert forall p: nat :: matches(p) <==> HandleAt(text, p, prefix);
    match FirstFrom(matches, 0, |text|)
    case None => ""
    case Some(p) => UrlScheme + HandleText(text, p, prefix)
  }

  /** What a profile URL looks like from outside: the scheme, then the prefix in some
      letter case, then at least one handle character. */
  lemma ProfileUrlShape(text: string, prefix: string)
    ensures var url := ProfileUrl(text, prefix);
      url != "" ==>
        && |url| > |UrlScheme| + |prefix|
        && url[..|UrlScheme|] == UrlScheme
        && Lower(url[|UrlScheme|..|UrlScheme| + |prefix|]) == Lower(prefix)
        && forall k :: |UrlScheme| + |prefix| <= k < |url| ==> IsHandleChar(url[k])
  {
    var url := ProfileUrl(text, prefix);
    if url != "" {
      var p: nat :| HandleAt(text, p, prefix) && url == UrlScheme + HandleText(text, p, prefix);
      var m := HandleText(text, p, prefix);
      assert url[|UrlScheme|..] == m;
      assert url[|UrlScheme|..|UrlScheme| + |prefix|] == m[..|prefix|];
    }
  }

  // ----------------------------------------------------------------------------------
  // Section slices

  const ExperienceHeading: string := "experience"
  const EducationHeading: string := "education"
  const ExperienceStops: seq<string> := ["education", "skills", "projects"]
  const EducationStops: seq<string> := ["experience", "skills", "projects"]

  datatype Span = Span(start: nat, end: nat)

  /** Some stop word occurs (case-insensitively) at e. */
  predicate StopAt(text: string, e: nat, stops: seq<string>) {
    exists k :: 0 <= k < |stops| && OccursAtIgnoreCase(text, e, stops[k])
  }

  /** `heading[\s\S]*?(?=stop1|stop2|stop3|$)` with flag `i`: from the first occurrence
      of the heading, lazily up to the first stop word after it, or to the end. */
  function SectionSpan(text: string, heading: string, stops: seq<string>): (span: Option<Span>)
    ensures span.None? <==> forall p: nat :: !OccursAtIgnoreCase(text, p, heading)
    ensures span.Some? ==>
      && OccursAtIgnoreCase(text, span.value.start, heading)
      && (forall p: nat :: p < span.value.start ==> !OccursAtIgnoreCase(text, p, heading))
      && span.value.start + |heading| <= span.value.end <= |text|
      && (span.value.end == |text| || StopAt(text, span.value.end, stops))
      && (forall q: nat :: span.value.start + |heading| <= q < span.value.end ==> !StopAt(text, q, stops))
  {
    var opens := (p: nat) => OccursAtIgnoreCase(text, p, heading);
    assert forall p: nat :: opens(p) <==> OccursAtIgnoreCase(text, p, heading);
    var closes := (q: nat) => StopAt(text, q, stops);
    assert forall q: nat :: closes(q) <==> StopAt(text, q, stops);
    match FirstFrom(opens, 0, |text| + 1)
    case None => None
    case Some(s) =>
      var e := FirstFrom(closes, s + |heading|, |text|);
      Some(Span(s, if e.Some? then e.value else |text|))
  }

  /** The matched section text, or `""` when the heading is absent. */
  function SectionText(text: string, heading: string, stops: seq<string>): string {
    match SectionSpan(text, heading, stops)
    case None => ""
    case Some(span) => text[span.start..span.end]
  }

  /** Slicing keeps sections apart: when neither heading overlaps the other, the
      experience and education slices do not overlap, so a match found in one cannot
      come from text that belongs to the other. */
  lemma SectionsDisjoint(text: string)
    requires SectionSpan(text, ExperienceHeading, ExperienceStops).Some?
    requires SectionSpan(text, EducationHeading, EducationStops).Some?
    ensures var x := SectionSpan(text, ExperienceHeading, ExperienceStops).value;
      var d := SectionSpan(text, EducationHeading, EducationStops).value;
      (x.start + |ExperienceHeading| <= d.start ==> x.end <= d.start)
      && (d.start + |EducationHeading| <= x.start ==> d.end <= x.start)
  {
    var x := SectionSpan(text, ExperienceHeading, ExperienceStops).value;
    var d := SectionSpan(text, EducationHeading, EducationStops).value;
    assert ExperienceStops[0] == EducationHeading;
    assert EducationStops[0] == ExperienceHeading;
    assert StopAt(text, d.start, ExperienceStops);
    assert StopAt(text, x.start, EducationStops);
  }

  // ----------------------------------------------------------------------------------
  // Experience and education entries

  const ExperiencePlaceholder: string := "Experience details extracted from resume."

  function JobEntry(m: JobMatch): Experience {
    Experience(Trim(m.title), Trim(m.company), Trim(m.duration), ExperiencePlaceholder)
  }

  function DegreeEntry(m: DegreeMatch): Education {
    Education(Trim(m.degree), Trim(m.institution), m.year, "")
  }

  /** The job `exec` loop: one entry per match, in match order, with trimmed groups and
      the fixed placeholder description. */
  method ExtractExperience(matches: seq<JobMatch>) returns (entries: seq<Experience>)
    ensures entries == Map(JobEntry, matches)
  {
    entries := [];
    var i := 0;
    while i < |matches|
      invariant 0 <= i <= |matches|
      invariant entries == Map(JobEntry, matches[..i])
    {
      MapAppend(JobEntry, matches[..i], matches[i]);
      assert matches[..i + 1] == matches[..i] + [matches[i]];
      entries := entries + [JobEntry(matches[i])];
      i := i + 1;
    }
    assert matches[..i] == matches;
  }

  /** The degree `exec` loop: one entry per match, degree and institution trimmed, the
      year as captured, and an empty GPA. */
  method ExtractEducation(matches: seq<DegreeMatch>) returns (entries: seq<Education>)
    ensures entries == Map(DegreeEntry, matches)
  {
    entries := [];
    var i := 0;
    while i < |matches|
      invariant 0 <= i <= |matches|
      invariant entries == Map(DegreeEntry, matches[..i])
    {
      MapAppend(DegreeEntry, matches[..i], matches[i]);
      assert matches[..i + 1] == matches[..i] + [matches[i]];
      entries := entries + [DegreeEntry(matches[i])];
      i := i + 1;
    }
    assert matches[..i] == matches;
  }

  // ----------------------------------------------------------------------------------
  // The whole extraction

  /** The contact and profile fields the extractor fills in; `location` is never set. */
  function ExtractedInfo(text: string, patterns: Patterns): PersonalInfo {
    PersonalInfo(
      name := FirstNameShaped(NameCandidates(text)),
      email := MatchOrEmpty(patterns.email(text)),
      phone := MatchOrEmpty(patterns.phone(text)),
      location := "",
      summary := SummaryOf(text, SummaryKeywords),
      linkedin := ProfileUrl(text, LinkedInPrefix),
      github := ProfileUrl(text, GitHubPrefix))
  }

  /** The record the extractor builds from `text`. */
  function Extracted(text: string, patterns: Patterns): ResumeData {
    ResumeData(
      ExtractedInfo(text, patterns),
      Map(JobEntry, patterns.jobs(SectionText(text, ExperienceHeading, ExperienceStops))),
      Map(DegreeEntry, patterns.degrees(SectionText(text, EducationHeading, EducationStops))),
      SkillsIn(Lower(text), SkillCatalog),
      [])
  }

  /** The contact, profile, name and summary steps of `parseResumeTextAdvanced`, in
      source order; a field whose pattern finds nothing keeps its initial `""`. */
  method ExtractPersonalInfo(text: string, patterns: Patterns) returns (info: PersonalInfo)
    ensures info == ExtractedInfo(text, patterns)
  {
    var email, phone := "", "";
    var m := patterns.email(text);
    if m.Some? { email := m.value; }
    m := patterns.phone(text);
    if m.Some? { phone := m.value; }
    var linkedin := ProfileUrl(text, LinkedInPrefix);
    var github := ProfileUrl(text, GitHubPrefix);
    var name := ExtractName(text);
    var summary := ExtractSummary(text);
    info := PersonalInfo(name, email, phone, "", summary, linkedin, github);
  }

  /** `parseResumeTextAdvanced`: every step fills its own part of a record that starts
      out empty. */
  method ParseResumeText(text: string, patterns: Patterns) returns (r: ResumeData)
    ensures r == Extracted(text, patterns)
  {
    var info := ExtractPersonalInfo(text, patterns);
    var skills := ExtractSkills(text);
    var jobs := patterns.jobs(SectionText(text, ExperienceHeading, ExperienceStops));
    var experience := ExtractExperience(jobs);
    var degrees := patterns.degrees(SectionText(text, EducationHeading, EducationStops));
    var education := ExtractEducation(degrees);
    r := ResumeData(info, experience, education, skills, []);
  }

  /** What every extracted record looks like, whatever the text: no projects and no
      location are ever extracted, every experience entry carries the placeholder
      description and every education entry an empty GPA, the skills are distinct
      catalog entries in catalog order, the name is empty or name-shaped, the summary
      is empty or one line of at most 300 characters, and each profile URL is empty or
      starts with `https://`. */
  lemma ExtractedShape(text: string, patterns: Patterns)
    ensures var r := Extracted(text, patterns);
      && r.projects == []
      && r.personalInfo.location == ""
      && (forall e :: e in r.experience ==> e.description == ExperiencePlaceholder)
      && (forall e :: e in r.education ==> e.gpa == "")
      && NoDuplicates(r.skills) && IsSubsequence(r.skills, SkillCatalog)
      && (forall s :: s in r.skills <==> s in SkillCatalog && Includes(Lower(text), Lower(s)))
      && (r.personalInfo.name == "" || NameShaped(r.personalInfo.name))
      && (r.personalInfo.summary == "" || (|r.personalInfo.summary| <= SummaryMax && '\n' !in r.personalInfo.summary))
      && (r.personalInfo.linkedin == "" || r.personalInfo.linkedin[..|UrlScheme|] == UrlScheme)
      && (r.personalInfo.github == "" || r.personalInfo.github[..|UrlScheme|] == UrlScheme)
  {
    SkillCatalogDistinct();
    SkillsInSpec(Lower(text), SkillCatalog);
    ProfileUrlShape(text, LinkedInPrefix);
    ProfileUrlShape(text, GitHubPrefix);
  }

  /** Empty text yields the empty record, given matchers that find nothing in it. */
  lemma EmptyTextYieldsEmptyRecord(patterns: Patterns)
    requires patterns.email("") == None && patterns.phone("") == None
    requires patterns.jobs("") == [] && patterns.degrees("") == []
    ensures Extracted("", patterns) == EmptyResume
  {
    EmptyTextBlankInfo(patterns);
    assert SectionText("", ExperienceHeading, ExperienceStops) == "";
    assert SectionText("", EducationHeading, EducationStops) == "";
    SkillCatalogNonEmpty();
    NothingIncludedInEmpty(SkillCatalog);
  }

  lemma EmptyTextBlankInfo(patterns: Patterns)
    requires patterns.email("") == None && patterns.phone("") == None
    ensures ExtractedInfo("", patterns) == BlankInfo
  {
    assert NameCandidates("") == [];
    NoSummaryInEmptyText();
  }

  lemma SkillCatalogNonEmpty()
    ensures [] !in SkillCatalog
  {
    assert forall i :: 0 <= i < |SkillCatalog| ==> |SkillCatalog[i]| > 0;
  }

  lemma NoSummaryInEmptyText()
    ensures SummaryOf("", SummaryKeywords) == ""
  {
    forall k | 0 <= k < |SummaryKeywords|
      ensures SummaryMatch("", SummaryKeywords[k]).None?
    {
      assert SummaryAt("", SummaryKeywords[k], 0).None?;
    }
  }

  lemma {:induction false} NothingIncludedInEmpty(catalog: seq<string>)
    requires [] !in catalog
    ensures SkillsIn(Lower(""), catalog) == []
  {
    if catalog != [] {
      NothingIncludedInEmpty(catalog[1..]);
    }
  }

  // ----------------------------------------------------------------------------------
  // Manual paths

  /** `handleManualTextProcess`: blank text is refused before extraction; otherwise the
      untrimmed text is extracted. */
  method ProcessManualText(manualText: string, patterns: Patterns) returns (r: Option<ResumeData>)
    ensures r.None? <==> Trim(manualText) == ""
    ensures r.Some? ==> r.value == Extracted(manualText, patterns)
  {
    if Trim(manualText) == "" {
      return None;
    }
    var data := ParseResumeText(manualText, patterns);
    r := Some(data);
  }

  /** `handleManualEntry`: a blank record with exactly one blank experience entry and one
      blank education entry, and no skills or projects. */
  function ManualEntryTemplate(): (r: ResumeData)
    ensures r.personalInfo == BlankInfo
    ensures r.experience == [Experience("", "", "", "")]
    ensures r.education == [Education("", "", "", "")]
    ensures r.skills == [] && r.projects == []
  {
    ResumeData(BlankInfo, [Experience("", "", "", "")], [Education("", "", "", "")], [], [])
  }
}
