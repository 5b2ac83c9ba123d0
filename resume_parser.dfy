/** The deterministic side of resume structuring: the text extractor's outcome chain,
    the rule-based field extractor with its sentinels, the additive score, and the
    policy that falls back from the remote model to the rule-based parser.

    Regular expressions are abstract: `Engine` gives, for a pattern and a text, the
    list of matches `re.finditer` would produce, left to right; `re.search` is the
    first of them. The PDF libraries and the file system are abstract outcomes. */
module ResumeParser {
  import opened Common

  // ---------------------------------------------------------------------------
  // Patterns and matches

  /** The regular expressions the rule-based extractor uses. */
  datatype Pattern =
    | NamePattern              // two capitalised words
    | EmailPattern             // local@domain.tld
    | PhonePattern             // US-style number with optional +1, parentheses, separators
    | SkillPattern(skill: string)  // the skill between word boundaries, ignoring case
    | DegreeThenSchool         // degree keyword, then institution keyword
    | SchoolThenDegree         // institution keyword, then degree keyword
    | RoleThenCompany          // job title, then company suffix
    | CompanyThenRole          // company suffix, then job title

  /** One match: the whole matched text (`group(0)`) and the first two groups. */
  datatype Match = Match(text: string, group1: string, group2: string)

  /** `re.finditer(pattern, text)` as a list of matches. */
  type Engine = (Pattern, string) -> seq<Match>

  const NotFound := "Not found"
  const NotSpecified := "Not specified"

  // ---------------------------------------------------------------------------
  // Skills

  /** The fixed skill vocabulary, in the order it is scanned, as the five rows in
      which it is written. */
  const SkillRow1: seq<string> := ["Python", "Java", "JavaScript", "React", "Node.js", "SQL", "MongoDB"]
  const SkillRow2: seq<string> := ["AWS", "Docker", "Kubernetes", "Git", "HTML", "CSS", "TypeScript"]
  const SkillRow3: seq<string> := ["Angular", "Vue.js", "PHP", "C++", "C#", ".NET", "Ruby", "Go"]
  const SkillRow4: seq<string> := ["Rust", "Swift", "Kotlin", "Scala", "R", "MATLAB", "TensorFlow"]
  const SkillRow5: seq<string> := ["PyTorch", "Machine Learning", "Data Science", "DevOps", "Agile"]
  const TechnicalSkills: seq<string> := SkillRow1 + SkillRow2 + SkillRow3 + SkillRow4 + SkillRow5

  const MaxSkills := 10

  lemma RowFacts()
    ensures Distinct(SkillRow1) && Distinct(SkillRow2) && Distinct(SkillRow3)
    ensures Distinct(SkillRow4) && Distinct(SkillRow5)
  {
  }

  // No row repeats an entry of the rows before it.

  lemma Row2Fresh()
    ensures forall x | x in SkillRow1 :: x !in SkillRow2
  {
  }

  lemma Row3Fresh()
    ensures forall x | x in SkillRow1 + SkillRow2 :: x !in SkillRow3
  {
  }

  lemma Row4Fresh()
    ensures forall x | x in SkillRow1 + SkillRow2 + SkillRow3 :: x !in SkillRow4
  {
  }

  lemma Row5Fresh()
    ensures forall x | x in SkillRow1 + SkillRow2 + SkillRow3 + SkillRow4 :: x !in SkillRow5
  {
  }

  lemma VocabularyFacts()
    ensures |TechnicalSkills| == 34 && Distinct(TechnicalSkills)
  {
    var r12 := SkillRow1 + SkillRow2;
    RowFacts();
    Row2Fresh();
    Row3Fresh();
    Row4Fresh();
    Row5Fresh();
    DistinctAppend(SkillRow1, SkillRow2);
    DistinctAppend(r12, SkillRow3);
    DistinctAppend(r12 + SkillRow3, SkillRow4);
    DistinctAppend(r12 + SkillRow3 + SkillRow4, SkillRow5);
  }

  /** The skill's word-boundary, case-insensitive search succeeds on the text. */
  predicate Mentions(engine: Engine, text: string, skill: string) {
    |engine(SkillPattern(skill), text)| > 0
  }

  function Mentioned(engine: Engine, text: string): string -> bool {
    s => Mentions(engine, text, s)
  }

  /** The vocabulary entries satisfying `p`, in vocabulary order, cut to `limit`. */
  function Scan(vocab: seq<string>, p: string -> bool, limit: nat): (r: seq<string>)
    ensures |r| <= limit
    ensures forall s | s in r :: s in vocab && p(s)
  {
    Take(Filter(vocab, p), limit)
  }

  /** What `extract_skills` returns. */
  function Skills(engine: Engine, text: string): (r: seq<string>)
    ensures |r| <= MaxSkills
    ensures forall s | s in r :: s in TechnicalSkills && Mentions(engine, text, s)
  {
    Scan(TechnicalSkills, Mentioned(engine, text), MaxSkills)
  }

  /** The scan over the vocabulary, appending each skill found, then the cut to ten. */
  method ExtractSkills(engine: Engine, text: string) returns (found: seq<string>)
    ensures found == Skills(engine, text)
  {
    var p := Mentioned(engine, text);
    var all: seq<string> := [];
    for i := 0 to |TechnicalSkills|
      invariant all == Filter(TechnicalSkills[..i], p)
    {
      var skill := TechnicalSkills[i];
      assert TechnicalSkills[..i + 1] == TechnicalSkills[..i] + [skill];
      FilterSnoc(TechnicalSkills[..i], skill, p);
      if Mentions(engine, text, skill) {
        all := all + [skill];
      }
    }
    assert TechnicalSkills[..|TechnicalSkills|] == TechnicalSkills;
    found := Take(all, MaxSkills);
  }

  /** Over a vocabulary without repetitions, the scan has none either, keeps the
      vocabulary's order, and leaves out an entry satisfying `p` only when `limit`
      earlier entries were kept. */
  lemma {:induction false} ScanInOrder(vocab: seq<string>, p: string -> bool, limit: nat)
    requires Distinct(vocab)
    ensures Distinct(Scan(vocab, p, limit))
    ensures InOrderOf(Scan(vocab, p, limit), vocab)
    ensures forall s | s in vocab && p(s) && s !in Scan(vocab, p, limit) ::
      |Scan(vocab, p, limit)| == limit
      && forall k | 0 <= k < limit :: Precedes(vocab, Scan(vocab, p, limit)[k], s)
  {
    var all := Filter(vocab, p);
    var r := Scan(vocab, p, limit);
    FilterDistinct(vocab, p);
    FilterInOrder(vocab, p);
    assert r == all[..|r|];
    forall i, j | 0 <= i < j < |r| ensures r[i] != r[j] && Precedes(vocab, r[i], r[j]) {
      assert r[i] == all[i] && r[j] == all[j];
    }
    forall s | s in vocab && p(s) && s !in r
      ensures |r| == limit && forall k | 0 <= k < limit :: Precedes(vocab, r[k], s)
    {
      FilterComplete(vocab, p, s);
      var m :| 0 <= m < |all| && all[m] == s;
      assert s !in all[..|r|];
      assert m >= |r|;
      assert |all| > limit;
      forall k | 0 <= k < limit ensures Precedes(vocab, r[k], s) {
        assert r[k] == all[k];
      }
    }
  }

  /** The skills found have no repetitions and keep the vocabulary's order (not the
      order in which they appear in the text); a skill that is mentioned is missing
      only when ten skills earlier in the vocabulary were kept. */
  lemma SkillsInVocabularyOrder(engine: Engine, text: string)
    ensures Distinct(Skills(engine, text))
    ensures InOrderOf(Skills(engine, text), TechnicalSkills)
    ensures forall s | s in TechnicalSkills && Mentions(engine, text, s) && s !in Skills(engine, text) ::
      |Skills(engine, text)| == MaxSkills
      && forall k | 0 <= k < MaxSkills :: Precedes(TechnicalSkills, Skills(engine, text)[k], s)
  {
    VocabularyFacts();
    ScanInOrder(TechnicalSkills, Mentioned(engine, text), MaxSkills);
  }

  /** When exactly two vocabulary entries satisfy `p`, the scan is those two in
      vocabulary order. */
  lemma ScanOfTwo(vocab: seq<string>, p: string -> bool, limit: nat, ia: nat, ib: nat)
    requires Distinct(vocab) && ia < ib < |vocab| && 2 <= limit
    requires forall s | s in vocab :: p(s) <==> s == vocab[ia] || s == vocab[ib]
    ensures Scan(vocab, p, limit) == [vocab[ia], vocab[ib]]
  {
    var a, b := vocab[ia], vocab[ib];
    var s1, s2, s3 := vocab[..ia], vocab[ia + 1..ib], vocab[ib + 1..];
    assert vocab == s1 + [a] + s2 + [b] + s3;
    forall x | x in s1 ensures !p(x) {
      var k :| 0 <= k < ia && s1[k] == x;
      assert vocab[k] == x;
    }
    forall x | x in s2 ensures !p(x) {
      var k :| 0 <= k < |s2| && s2[k] == x;
      assert vocab[ia + 1 + k] == x;
    }
    forall x | x in s3 ensures !p(x) {
      var k :| 0 <= k < |s3| && s3[k] == x;
      assert vocab[ib + 1 + k] == x;
    }
    FilterTwoHits(s1, a, s2, b, s3, p);
  }

  /** A text whose only vocabulary matches are Python and React yields exactly those
      two, in vocabulary order. */
  lemma SkillsOfPythonAndReact(engine: Engine, text: string)
    requires forall s | s in TechnicalSkills :: Mentions(engine, text, s) <==> s == "Python" || s == "React"
    ensures Skills(engine, text) == ["Python", "React"]
  {
    VocabularyFacts();
    assert TechnicalSkills[0] == "Python" && TechnicalSkills[3] == "React";
    ScanOfTwo(TechnicalSkills, Mentioned(engine, text), MaxSkills, 0, 3);
  }

  // ---------------------------------------------------------------------------
  // Education and experience

  /** The entries built from every match of each pattern, pattern by pattern. */
  function Entries<T>(engine: Engine, text: string, patterns: seq<Pattern>, entry: Match -> T): seq<T> {
    if patterns == [] then []
    else Entries(engine, text, patterns[..|patterns| - 1], entry)
         + Map(engine(patterns[|patterns| - 1], text), entry)
  }

  /** The two nested loops shared by both extractors: for each pattern, for each of
      its matches, append one entry. */
  method CollectEntries<T>(engine: Engine, text: string, patterns: seq<Pattern>, entry: Match -> T)
    returns (entries: seq<T>)
    ensures entries == Entries(engine, text, patterns, entry)
  {
    entries := [];
    for i := 0 to |patterns|
      invariant entries == Entries(engine, text, patterns[..i], entry)
    {
      var matches := engine(patterns[i], text);
      ghost var earlier := entries;
      for j := 0 to |matches|
        invariant entries == earlier + Map(matches[..j], entry)
      {
        assert matches[..j + 1][..j] == matches[..j];
        entries := entries + [entry(matches[j])];
      }
      assert matches[..|matches|] == matches;
      assert patterns[..i + 1][..i] == patterns[..i];
    }
    assert patterns[..|patterns|] == patterns;
  }

  /** The entries of two patterns in turn, or the single sentinel when there are none. */
  function EntriesOr<T>(engine: Engine, text: string, p1: Pattern, p2: Pattern, entry: Match -> T, none: T)
    : seq<T>
  {
    var found := Entries(engine, text, [p1, p2], entry);
    if found == [] then [none] else found
  }

  lemma TwoPatternEntries<T>(engine: Engine, text: string, p1: Pattern, p2: Pattern, entry: Match -> T)
    ensures Entries(engine, text, [p1, p2], entry) == Map(engine(p1, text), entry) + Map(engine(p2, text), entry)
  {
    var ps := [p1, p2];
    assert ps[..1] == [p1];
    assert [p1][..0] == [];
    assert Entries(engine, text, [p1], entry) == Map(engine(p1, text), entry);
  }

  lemma EntriesOrShape<T>(engine: Engine, text: string, p1: Pattern, p2: Pattern, entry: Match -> T, none: T)
    ensures var r := EntriesOr(engine, text, p1, p2, entry, none);
      var m1 := engine(p1, text);
      var m2 := engine(p2, text);
      && |r| >= 1
      && (|m1| + |m2| == 0 ==> r == [none])
      && (|m1| + |m2| > 0 ==>
            && |r| == |m1| + |m2|
            && (forall k | 0 <= k < |m1| :: r[k] == entry(m1[k]))
            && (forall k | 0 <= k < |m2| :: r[|m1| + k] == entry(m2[k])))
  {
    TwoPatternEntries(engine, text, p1, p2, entry);
    MapConcatIndex(engine(p1, text), engine(p2, text), entry);
  }

  lemma MapConcatIndex<A, B>(x: seq<A>, y: seq<A>, f: A -> B)
    ensures var r := Map(x, f) + Map(y, f);
      && |r| == |x| + |y|
      && (forall k | 0 <= k < |x| :: r[k] == f(x[k]))
      && (forall k | 0 <= k < |y| :: r[|x| + k] == f(y[k]))
  {
    var a, b := Map(x, f), Map(y, f);
    forall k | 0 <= k < |y| ensures (a + b)[|x| + k] == f(y[k]) {
      assert (a + b)[|a| + k] == b[k];
    }
  }

  datatype Education = Education(degree: string, institution: string, years: string)

  const DegreePatterns := [DegreeThenSchool, SchoolThenDegree]
  const NoEducation := Education(NotSpecified, NotSpecified, NotSpecified)

  function DegreeEntry(m: Match): Education {
    Education(m.text, "University/College", NotSpecified)
  }

  /** What `extract_education` returns: never empty, and the all-"Not specified"
      entry alone exactly when neither degree pattern matches. */
  function EducationEntries(engine: Engine, text: string): (r: seq<Education>)
    ensures |r| >= 1
    ensures r == [NoEducation] <==> |engine(DegreeThenSchool, text)| + |engine(SchoolThenDegree, text)| == 0
  {
    EntriesOrShape(engine, text, DegreeThenSchool, SchoolThenDegree, DegreeEntry, NoEducation);
    var m1, m2 := engine(DegreeThenSchool, text), engine(SchoolThenDegree, text);
    var r := EntriesOr(engine, text, DegreeThenSchool, SchoolThenDegree, DegreeEntry, NoEducation);
    assert |m1| + |m2| > 0 ==> r[0] == DegreeEntry(if |m1| > 0 then m1[0] else m2[0]);
    r
  }

  method ExtractEducation(engine: Engine, text: string) returns (education: seq<Education>)
    ensures education == EducationEntries(engine, text)
  {
    education := CollectEntries(engine, text, DegreePatterns, DegreeEntry);
    assert DegreePatterns == [DegreeThenSchool, SchoolThenDegree];
    if education == [] {
      education := [NoEducation];
    }
  }

  /** Never empty; the single all-"Not specified" entry exactly when neither pattern
      matches; otherwise one entry per match, every match of the first pattern before
      every match of the second, each holding the whole match as its degree and the
      two placeholders. */
  lemma EducationShape(engine: Engine, text: string)
    ensures var r := EducationEntries(engine, text);
      var m1 := engine(DegreeThenSchool, text);
      var m2 := engine(SchoolThenDegree, text);
      && |r| >= 1
      && (|m1| + |m2| == 0 ==> r == [NoEducation])
      && (|m1| + |m2| > 0 ==>
            && |r| == |m1| + |m2|
            && (forall k | 0 <= k < |m1| :: r[k] == DegreeEntry(m1[k]))
            && (forall k | 0 <= k < |m2| :: r[|m1| + k] == DegreeEntry(m2[k]))
            && (forall k | 0 <= k < |r| :: r[k].institution == "University/College" && r[k].years == NotSpecified))
  {
    EntriesOrShape(engine, text, DegreeThenSchool, SchoolThenDegree, DegreeEntry, NoEducation);
  }

  datatype Experience = Experience(jobRole: string, company: string, duration: string, responsibilities: seq<string>)

  const JobPatterns := [RoleThenCompany, CompanyThenRole]
  const NoExperience := Experience(NotSpecified, NotSpecified, NotSpecified, ["No experience found"])

  /** `group if group else "Not specified"` */
  function OrNotSpecified(group: string): string {
    if group != "" then group else NotSpecified
  }

  function JobEntry(m: Match): Experience {
    Experience(OrNotSpecified(m.group1), OrNotSpecified(m.group2), NotSpecified,
               ["Responsibility details not extracted"])
  }

  /** What `extract_experience` returns: never empty, and the "No experience found"
      entry alone exactly when neither job pattern matches. */
  function ExperienceEntries(engine: Engine, text: string): (r: seq<Experience>)
    ensures |r| >= 1
    ensures r == [NoExperience] <==> |engine(RoleThenCompany, text)| + |engine(CompanyThenRole, text)| == 0
  {
    EntriesOrShape(engine, text, RoleThenCompany, CompanyThenRole, JobEntry, NoExperience);
    var m1, m2 := engine(RoleThenCompany, text), engine(CompanyThenRole, text);
    var r := EntriesOr(engine, text, RoleThenCompany, CompanyThenRole, JobEntry, NoExperience);
    assert |m1| + |m2| > 0 ==> r[0] == JobEntry(if |m1| > 0 then m1[0] else m2[0]);
    r
  }

  method ExtractExperience(engine: Engine, text: string) returns (experience: seq<Experience>)
    ensures experience == ExperienceEntries(engine, text)
  {
    experience := CollectEntries(engine, text, JobPatterns, JobEntry);
    assert JobPatterns == [RoleThenCompany, CompanyThenRole];
    if experience == [] {
      experience := [NoExperience];
    }
  }

  /** Never empty; the "No experience found" entry exactly when neither pattern
      matches; otherwise one entry per match, first-pattern matches first, each with
      the two groups (or "Not specified" for an empty group) and the placeholders. */
  lemma ExperienceShape(engine: Engine, text: string)
    ensures var r := ExperienceEntries(engine, text);
      var m1 := engine(RoleThenCompany, text);
      var m2 := engine(CompanyThenRole, text);
      && |r| >= 1
      && (|m1| + |m2| == 0 ==> r == [NoExperience])
      && (|m1| + |m2| > 0 ==>
            && |r| == |m1| + |m2|
            && (forall k | 0 <= k < |m1| :: r[k] == JobEntry(m1[k]))
            && (forall k | 0 <= k < |m2| :: r[|m1| + k] == JobEntry(m2[k]))
            && (forall k | 0 <= k < |r| ::
                  r[k].duration == NotSpecified && r[k].responsibilities == ["Responsibility details not extracted"]))
  {
    EntriesOrShape(engine, text, RoleThenCompany, CompanyThenRole, JobEntry, NoExperience);
  }

  // ---------------------------------------------------------------------------
  // Score

  const BaseScore := 50
  const MaxScore := 95

  /** `min(50 + 2 * skills + 5 * education + 10 * experience, 95)` */
  function ResumeScore(skills: nat, education: nat, experience: nat): (r: int)
    ensures BaseScore <= r <= MaxScore
  {
    var raw := BaseScore + 2 * skills + 5 * education + 10 * experience;
    if raw <= MaxScore then raw else MaxScore
  }

  /** The score, built up one term at a time and then capped. */
  method CalculateResumeScore(skills: seq<string>, education: seq<Education>, experience: seq<Experience>)
    returns (score: int)
    ensures score == ResumeScore(|skills|, |education|, |experience|)
    ensures BaseScore <= score <= MaxScore
  {
    score := BaseScore;
    score := score + |skills| * 2;
    score := score + |education| * 5;
    score := score + |experience| * 10;
    if score > MaxScore {
      score := MaxScore;
    }
  }

  /** More skills, degrees or positions never lower the score. */
  lemma ScoreMonotone(s: nat, e: nat, x: nat, s': nat, e': nat, x': nat)
    requires s <= s' && e <= e' && x <= x'
    ensures ResumeScore(s, e, x) <= ResumeScore(s', e', x')
  {
  }

  lemma ScoreExample()
    ensures ResumeScore(3, 1, 0) == 61
    ensures ResumeScore(10, 2, 3) == MaxScore
  {
  }

  // ---------------------------------------------------------------------------
  // The rule-based parser

  const SummaryPlaceholder := "Professional summary extracted from resume"

  datatype Resume = Resume(
    name: string, email: string, phone: string, summary: string,
    skills: seq<string>, experience: seq<Experience>, education: seq<Education>,
    resumeScore: int, parsedDate: string)

  /** A group of the leftmost match (what `re.search` finds), or the "Not found"
      sentinel when there is none. */
  function FirstOr(ms: seq<Match>, whole: bool): string {
    if |ms| == 0 then NotFound else if whole then ms[0].text else ms[0].group1
  }

  /** `parse_resume_basic(text)`, with `now` the formatted timestamp. */
  function BasicParse(engine: Engine, text: string, now: string): (r: Resume)
    ensures r.name == (if |engine(NamePattern, text)| > 0 then engine(NamePattern, text)[0].group1 else NotFound)
    ensures r.email == (if |engine(EmailPattern, text)| > 0 then engine(EmailPattern, text)[0].text else NotFound)
    ensures r.phone == (if |engine(PhonePattern, text)| > 0 then engine(PhonePattern, text)[0].group1 else NotFound)
    ensures r.summary == SummaryPlaceholder && r.parsedDate == now
    ensures r.skills == Skills(engine, text) && |r.skills| <= MaxSkills
    ensures r.education == EducationEntries(engine, text) && |r.education| >= 1
    ensures r.experience == ExperienceEntries(engine, text) && |r.experience| >= 1
    ensures r.resumeScore == ResumeScore(|r.skills|, |r.education|, |r.experience|)
    ensures 65 <= r.resumeScore <= MaxScore
  {
    var skills := Skills(engine, text);
    var experience := ExperienceEntries(engine, text);
    var education := EducationEntries(engine, text);
    Resume(
      FirstOr(engine(NamePattern, text), false),
      FirstOr(engine(EmailPattern, text), true),
      FirstOr(engine(PhonePattern, text), false),
      SummaryPlaceholder,
      skills, experience, education,
      ResumeScore(|skills|, |education|, |experience|),
      now)
  }

  // ---------------------------------------------------------------------------
  // Text extraction

  /** Reading the file as UTF-8 text: its contents, or any failure (a decode error
      or another exception), after which extraction goes on. */
  datatype PlainRead = TextRead(text: string) | ReadFailed

  /** A PDF library on the file: the text of each page in order, or an exception
      (while opening or on any page). */
  datatype PdfRead = Pages(pages: seq<string>) | PdfFailed

  /** Everything extraction can observe about the stored file. */
  datatype StoredFile = StoredFile(present: bool, size: nat, asText: PlainRead, mupdf: PdfRead, pypdf2: PdfRead)

  predicate ReadsAsText(f: StoredFile) {
    f.asText.TextRead? && f.asText.text != ""
  }

  /** The outcome of one PDF library: its joined text unless that is blank. */
  function PdfText(pages: seq<string>): (r: Option<string>)
    ensures r.None? <==> IsBlank(Concat(pages))
    ensures r.Some? ==> r.value == Concat(pages) && r.value != ""
  {
    var text := Concat(pages);
    if IsBlank(text) then None else Some(text)
  }

  /** What `extract_text_from_pdf` returns (None for Python's None). */
  function ExtractedText(f: StoredFile): (r: Option<string>)
    ensures !f.present || f.size == 0 ==> r == None
    ensures f.present && f.size > 0 && ReadsAsText(f) ==> r == Some(f.asText.text)
    ensures r.Some? ==> r.value != ""
    ensures r.Some? && !ReadsAsText(f) ==> !IsBlank(r.value)
    ensures f.present && f.size > 0 && !ReadsAsText(f) && f.mupdf.Pages? ==> r == PdfText(f.mupdf.pages)
    ensures f.present && f.size > 0 && !ReadsAsText(f) && f.mupdf.PdfFailed? ==>
      r == (if f.pypdf2.Pages? then PdfText(f.pypdf2.pages) else None)
  {
    if !f.present || f.size == 0 then None
    else if ReadsAsText(f) then Some(f.asText.text)
    else match f.mupdf
      case Pages(pages) => PdfText(pages)
      case PdfFailed =>
        match f.pypdf2
        case Pages(pages) => PdfText(pages)
        case PdfFailed => None
  }

  /** The second library is consulted only when the first one raised: once the first
      one produced pages, the second one's outcome does not matter. */
  lemma SecondLibraryOnlyAfterFailure(f: StoredFile, other: PdfRead)
    requires f.mupdf.Pages?
    ensures ExtractedText(f) == ExtractedText(f.(pypdf2 := other))
  {
  }

  /** Blank text from the first library ends extraction with None. */
  lemma BlankFirstLibraryIsFinal(f: StoredFile)
    requires f.present && f.size > 0 && !ReadsAsText(f)
    requires f.mupdf.Pages? && IsBlank(Concat(f.mupdf.pages))
    ensures ExtractedText(f) == None
  {
  }

  /** `text = ""; for page in pages: text += page_text` */
  method JoinPages(pages: seq<string>) returns (text: string)
    ensures text == Concat(pages)
  {
    text := "";
    for i := 0 to |pages|
      invariant text == Concat(pages[..i])
    {
      assert pages[..i + 1][..i] == pages[..i];
      text := text + pages[i];
    }
    assert pages[..|pages|] == pages;
  }

  method PdfAttempt(pages: seq<string>) returns (r: Option<string>)
    ensures r == PdfText(pages)
  {
    var text := JoinPages(pages);
    if IsBlank(text) {
      return None;
    }
    return Some(text);
  }

  method ExtractTextFromPdf(f: StoredFile) returns (r: Option<string>)
    ensures r == ExtractedText(f)
  {
    if !f.present {
      return None;
    }
    if f.size == 0 {
      return None;
    }
    if f.asText.TextRead? && f.asText.text != "" {
      return Some(f.asText.text);
    }
    match f.mupdf {
      case Pages(pages) =>
        r := PdfAttempt(pages);
      case PdfFailed =>
        match f.pypdf2 {
          case Pages(pages) =>
            r := PdfAttempt(pages);
          case PdfFailed =>
            r := None;
        }
    }
  }

  // ---------------------------------------------------------------------------
  // Orchestration

  datatype ParseResult =
    | Parsed(resume: Resume)                       // the rule-based record
    | AiParsed(payload: string, parsedDate: string)  // the model's reply with `parsed_date` added
    | ParseError(message: string)                  // `{"error": message}`

  const ExtractionError := "Could not extract text from the uploaded file"

  /** Saving the upload to the temporary path: done, or an exception. */
  datatype SaveOutcome = Saved | SaveRaised(reason: string)

  /** `parse_resume_text`: the model's reply when there is one, otherwise, whether the
      model is unavailable or raised, the rule-based record; never an error. */
  function ParseResumeText(engine: Engine, text: string, ai: AiCall, now: string): (r: ParseResult)
    ensures !r.ParseError?
    ensures ai.Replied? ==> r == AiParsed(ai.payload, now)
    ensures !ai.Replied? ==> r.Parsed? && r.resume == BasicParse(engine, text, now)
  {
    match ai
    case Replied(payload) => AiParsed(payload, now)
    case _ => Parsed(BasicParse(engine, text, now))
  }

  /** `parse_resume_file`: save, extract, then the same policy as `parse_resume_text`. */
  function ParseResumeFile(engine: Engine, save: SaveOutcome, f: StoredFile, ai: AiCall, now: string)
    : (r: ParseResult)
    ensures save.SaveRaised? ==> r == ParseError("Error processing resume: " + save.reason)
    ensures save.Saved? && ExtractedText(f).None? ==> r == ParseError(ExtractionError)
    ensures r.ParseError? ==> save.SaveRaised? || ExtractedText(f).None?
    ensures save.Saved? && ExtractedText(f).Some? && ai.Replied? ==> r == AiParsed(ai.payload, now)
    ensures save.Saved? && ExtractedText(f).Some? && !ai.Replied? ==>
      r == Parsed(BasicParse(engine, ExtractedText(f).value, now))
  {
    match save
    case SaveRaised(reason) => ParseError("Error processing resume: " + reason)
    case Saved =>
      var text := ExtractedText(f);
      if text.None? || text.value == "" then ParseError(ExtractionError)
      else ParseResumeText(engine, text.value, ai, now)
  }

  /** When extraction fails, neither the model nor the rule-based parser has any
      influence on the result. */
  lemma ExtractionFailureIsFinal(e1: Engine, e2: Engine, f: StoredFile, ai1: AiCall, ai2: AiCall, n1: string, n2: string)
    requires ExtractedText(f).None?
    ensures ParseResumeFile(e1, Saved, f, ai1, n1) == ParseResumeFile(e2, Saved, f, ai2, n2) == ParseError(ExtractionError)
  {
  }
}
