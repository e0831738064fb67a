/** The resume parser: the text of a PDF or Word resume, and the skills, years of
    experience, keywords and summary drawn from it. Reading the files and running
    the regular expressions are parameters: `readPdf` and `readDocx` stand for the
    two readers, and a `Patterns` value for the regular-expression searches. */
module ResumeParser {
  import opened Wrappers
  import opened Text

  /** The results of the parser's regular-expression searches, as functions of
      the text searched. */
  datatype Patterns = Patterns(
    // for each experience pattern, in order, the numbers it captures
    experienceCaptures: string -> seq<seq<nat>>,
    // the number of year ranges ("2019 - 2021", "2020 - present")
    yearRanges: string -> nat,
    // the matches of the keyword patterns, pattern by pattern, in order
    keywordMatches: string -> seq<string>,
    // the capitalised terms ("Machine Learning"), in order
    capitalizedTerms: string -> seq<string>,
    // for each summary-header pattern, the text that follows the header, if it matches
    summarySections: string -> seq<Option<string>>)

  // ---- extract_text_from_file ----

  /** Index of the last occurrence of `c`, or -1. */
  function LastIndexOf(s: string, c: char): (r: int)
    ensures -1 <= r < |s|
    ensures r >= 0 ==> s[r] == c && c !in s[r + 1..]
    ensures r == -1 ==> c !in s
  {
    if s == [] then -1
    else if s[|s| - 1] == c then |s| - 1
    else
      var r := LastIndexOf(s[..|s| - 1], c);
      LastIndexStep(s, c, r);
      r
  }

  lemma LastIndexStep(s: string, c: char, r: int)
    requires s != [] && s[|s| - 1] != c && -1 <= r < |s| - 1
    requires r >= 0 ==> s[..|s| - 1][r] == c && c !in s[..|s| - 1][r + 1..]
    requires r == -1 ==> c !in s[..|s| - 1]
    ensures r >= 0 ==> s[r] == c && c !in s[r + 1..]
    ensures r == -1 ==> c !in s
  {
    var t := s[..|s| - 1];
    assert s == t + [s[|s| - 1]];
    if r >= 0 {
      assert s[r + 1..] == t[r + 1..] + [s[|s| - 1]];
    }
  }

  predicate AllDots(s: string) {
    forall k :: 0 <= k < |s| ==> s[k] == '.'
  }

  /** `os.path.splitext(path)[1]`: from the last dot of the file name to the end, or
      "" when the name has no dot other than leading ones. */
  function Extension(path: string): (ext: string)
    ensures ext != "" ==> ext[0] == '.' && '.' !in ext[1..] && '/' !in ext
    ensures ext != "" ==> |ext| <= |path| && path[|path| - |ext|..] == ext
  {
    var sep := LastIndexOf(path, '/');
    var dot := LastIndexOf(path, '.');
    if dot > sep && !AllDots(path[sep + 1..dot]) then
      assert path[dot..][1..] == path[dot + 1..];
      assert forall k :: dot <= k < |path| ==> path[k] == path[sep + 1..][k - sep - 1];
      path[dot..]
    else ""
  }

  /** `extract_text_from_file(path)`: the PDF reader for ".pdf", the Word reader for
      ".doc" and ".docx", in any case, and an error for any other extension. */
  function ExtractTextFromFile(path: string, readPdf: string -> Result<string>, readDocx: string -> Result<string>): (r: Result<string>)
    ensures Lower(Extension(path)) == ".pdf" ==> r == readPdf(path)
    ensures Lower(Extension(path)) in [".doc", ".docx"] ==> r == readDocx(path)
    ensures Lower(Extension(path)) !in [".pdf", ".doc", ".docx"] ==>
      r == Err("Unsupported file type: " + Lower(Extension(path)))
  {
    var ext := Lower(Extension(path));
    if ext == ".pdf" then readPdf(path)
    else if ext in [".doc", ".docx"] then readDocx(path)
    else Err("Unsupported file type: " + ext)
  }

  // ---- extract_skills ----

  /** The skills looked for when the caller gives none. */
  const BuiltInSkills: seq<string> := [
    "Python", "JavaScript", "TypeScript", "Java", "C++", "Go", "Rust", "Ruby",
    "React", "Vue", "Angular", "Node.js", "Express", "FastAPI", "Django", "Flask",
    "PostgreSQL", "MySQL", "MongoDB", "Redis", "Elasticsearch",
    "AWS", "Azure", "GCP", "Docker", "Kubernetes", "CI/CD",
    "Machine Learning", "Deep Learning", "TensorFlow", "PyTorch",
    "Git", "Linux", "Agile", "Scrum"]

  /** The skills of `skills` that occur, ignoring case, in `textLower`. */
  function Mentioned(textLower: string, skills: seq<string>): (found: seq<string>)
    ensures forall s :: s in found <==> s in skills && Contains(textLower, Lower(s))
  {
    if skills == [] then []
    else
      var rest := Mentioned(textLower, skills[1..]);
      if Contains(textLower, Lower(skills[0])) then [skills[0]] + rest else rest
  }

  /** `extract_skills(text, known_skills)`; a missing or empty list of known skills
      means the built-in list. */
  function ExtractSkills(text: string, known: Option<seq<string>>): (skills: seq<string>)
    ensures var list := if known.None? || known.value == [] then BuiltInSkills else known.value;
      forall s :: s in skills <==> s in list && Contains(Lower(text), Lower(s))
    ensures forall i, j :: 0 <= i < j < |skills| ==> skills[i] != skills[j]
  {
    var list := if known.None? || known.value == [] then BuiltInSkills else known.value;
    Dedup(Mentioned(Lower(text), list))
  }

  lemma {:induction false} MentionedAppend(textLower: string, a: seq<string>, b: seq<string>)
    ensures Mentioned(textLower, a + b) == Mentioned(textLower, a) + Mentioned(textLower, b)
  {
    if a == [] {
      assert a + b == b;
    } else {
      assert (a + b)[1..] == a[1..] + b;
      MentionedAppend(textLower, a[1..], b);
    }
  }

  /** The loop of `extract_skills`: one pass over the skills, appending each one
      the lowercased text mentions. */
  method FindMentioned(textLower: string, list: seq<string>) returns (found: seq<string>)
    ensures found == Mentioned(textLower, list)
  {
    found := [];
    var i := 0;
    while i < |list|
      invariant 0 <= i <= |list|
      invariant found == Mentioned(textLower, list[..i])
    {
      var skill := list[i];
      assert list[..i + 1] == list[..i] + [skill];
      MentionedAppend(textLower, list[..i], [skill]);
      assert Mentioned(textLower, [skill]) == if Contains(textLower, Lower(skill)) then [skill] else [];
      if Contains(textLower, Lower(skill)) {
        found := found + [skill];
      }
      i := i + 1;
    }
    assert list[..i] == list;
  }

  /** `extract_skills` as the source runs it: the loop, then the duplicates dropped. */
  method CollectSkills(text: string, known: Option<seq<string>>) returns (skills: seq<string>)
    ensures skills == ExtractSkills(text, known)
  {
    var list := if known.None? || known.value == [] then BuiltInSkills else known.value;
    var found := FindMentioned(Lower(text), list);
    skills := Dedup(found);
  }

  // ---- extract_experience_years ----

  /** The position of the first non-empty list, if any. */
  function FirstNonEmpty(lists: seq<seq<nat>>): (r: Option<nat>)
    ensures r.Some? ==> r.value < |lists| && lists[r.value] != [] && forall p :: 0 <= p < r.value ==> lists[p] == []
    ensures r.None? ==> forall p :: 0 <= p < |lists| ==> lists[p] == []
  {
    if lists == [] then None
    else if lists[0] != [] then Some(0)
    else
      var r := FirstNonEmpty(lists[1..]);
      if r.None? then None else Some(r.value + 1)
  }

  function Max(xs: seq<nat>): (m: nat)
    requires xs != []
    ensures m in xs && forall x :: x in xs ==> x <= m
  {
    if |xs| == 1 then xs[0]
    else
      var rest := Max(xs[1..]);
      assert forall x :: x in xs ==> x == xs[0] || x in xs[1..];
      if xs[0] >= rest then xs[0] else rest
  }

  /** `extract_experience_years(text)`: the largest number captured by the first
      experience pattern that matches, otherwise the number of year ranges (0 when
      there is none). */
  function ExtractExperienceYears(text: string, patterns: Patterns): (years: nat)
    ensures var captures := patterns.experienceCaptures(text);
      (exists p :: 0 <= p < |captures| && captures[p] != []) ==>
        exists p :: 0 <= p < |captures| && captures[p] != [] && (forall q :: 0 <= q < p ==> captures[q] == []) &&
          years in captures[p] && forall v :: v in captures[p] ==> v <= years
    ensures var captures := patterns.experienceCaptures(text);
      (forall p :: 0 <= p < |captures| ==> captures[p] == []) ==> years == patterns.yearRanges(text)
  {
    var captures := patterns.experienceCaptures(text);
    var first := FirstNonEmpty(captures);
    if first.Some? then Max(captures[first.value]) else patterns.yearRanges(text)
  }

  /** `extract_experience_years` as the source runs it: the patterns in order,
      returning at the first one that captures something, else the year ranges. */
  method ExperienceYears(text: string, patterns: Patterns) returns (years: nat)
    ensures years == ExtractExperienceYears(text, patterns)
  {
    var captures := patterns.experienceCaptures(text);
    var p := 0;
    while p < |captures|
      invariant 0 <= p <= |captures|
      invariant forall q :: 0 <= q < p ==> captures[q] == []
    {
      if captures[p] != [] {
        assert FirstNonEmpty(captures) == Some(p);
        return Max(captures[p]);
      }
      p := p + 1;
    }
    return patterns.yearRanges(text);
  }

  // ---- extract_keywords ----

  const MaxKeywords: nat := 20

  /** The capitalised terms longer than three characters, in order. */
  function LongTerms(terms: seq<string>): (long: seq<string>)
    ensures forall t :: t in long <==> t in terms && |t| > 3
  {
    if terms == [] then []
    else
      var rest := LongTerms(terms[1..]);
      if |terms[0]| > 3 then [terms[0]] + rest else rest
  }

  /** The keyword candidates: the keyword-pattern matches in the lowercased text,
      then the long capitalised terms. */
  function KeywordCandidates(text: string, patterns: Patterns): seq<string> {
    patterns.keywordMatches(Lower(text)) + LongTerms(patterns.capitalizedTerms(text))
  }

  /** `extract_keywords(text)`: the distinct values among the first twenty candidates. */
  function ExtractKeywords(text: string, patterns: Patterns): (keywords: seq<string>)
    ensures |keywords| <= MaxKeywords
    ensures forall i, j :: 0 <= i < j < |keywords| ==> keywords[i] != keywords[j]
    ensures var candidates := KeywordCandidates(text, patterns);
      forall k :: k in keywords <==> exists i :: 0 <= i < |candidates| && i < MaxKeywords && candidates[i] == k
  {
    var candidates := KeywordCandidates(text, patterns);
    var first := if |candidates| <= MaxKeywords then candidates else candidates[..MaxKeywords];
    Dedup(first)
  }

  /** A capitalised term of three characters or fewer is a keyword only when a
      keyword pattern also matched it. */
  lemma ShortTermsDropped(text: string, patterns: Patterns, term: string)
    requires |term| <= 3 && term !in patterns.keywordMatches(Lower(text))
    ensures term !in ExtractKeywords(text, patterns)
  {
    var matches := patterns.keywordMatches(Lower(text));
    var long := LongTerms(patterns.capitalizedTerms(text));
    var candidates := matches + long;
    forall i | 0 <= i < |candidates|
      ensures candidates[i] != term
    {
      if i >= |matches| {
        assert candidates[i] == long[i - |matches|] && candidates[i] in long;
      }
    }
  }

  // ---- extract_summary ----

  /** `re.sub(r'\s+', ' ', s)`: every run of whitespace becomes one space. */
  function CollapseSpaces(s: string): (r: string)
    ensures |r| <= |s|
    ensures s != [] ==> r != []
    ensures forall i :: 0 <= i < |r| && IsSpace(r[i]) ==> r[i] == ' '
    decreases |s|
  {
    if s == [] then []
    else if IsSpace(s[0]) then " " + CollapseSpaces(TrimStart(s[1..]))
    else [s[0]] + CollapseSpaces(s[1..])
  }

  function Take(s: string, n: nat): (r: string)
    ensures |r| <= n && |r| <= |s|
    ensures s != [] && n > 0 ==> r != []
  {
    if |s| <= n then s else s[..n]
  }

  const MaxSummary: nat := 500

  /** The summary from the first header pattern whose section, stripped and with its
      whitespace collapsed, is longer than 50 characters. */
  function SectionSummary(sections: seq<Option<string>>): (r: Option<string>)
    ensures r.Some? ==> r.value != [] && |r.value| <= MaxSummary
  {
    if sections == [] then None
    else if sections[0].Some? && |CollapseSpaces(Strip(sections[0].value))| > 50 then
      Some(Take(CollapseSpaces(Strip(sections[0].value)), MaxSummary))
    else SectionSummary(sections[1..])
  }

  /** Index of the first blank line ("\n\n"), or -1. */
  function BlankLineAt(s: string): (r: int)
    ensures -1 <= r && (r >= 0 ==> r + 2 <= |s|)
    ensures r >= 0 ==> s[r] == '\n' && s[r + 1] == '\n'
    ensures forall k :: 0 <= k < (if r < 0 then |s| - 1 else r) ==> !(s[k] == '\n' && s[k + 1] == '\n')
  {
    if |s| < 2 then -1
    else if s[0] == '\n' && s[1] == '\n' then 0
    else
      var k := BlankLineAt(s[1..]);
      if k < 0 then -1 else k + 1
  }

  /** `s.split('\n\n')`. */
  function SplitBlankLines(s: string): (parts: seq<string>)
    ensures |parts| >= 1
    decreases |s|
  {
    var i := BlankLineAt(s);
    if i < 0 then [s] else [s[..i]] + SplitBlankLines(s[i + 2..])
  }

  /** The stripped pieces, without the empty ones. */
  function NonEmptyStripped(parts: seq<string>): (r: seq<string>)
    ensures forall p :: p in r ==> p != []
  {
    if parts == [] then []
    else
      var rest := NonEmptyStripped(parts[1..]);
      if Strip(parts[0]) != [] then [Strip(parts[0])] + rest else rest
  }

  /** The paragraphs of a text: its stripped, non-empty blank-line-separated pieces. */
  function Paragraphs(text: string): seq<string> {
    NonEmptyStripped(SplitBlankLines(text))
  }

  const ContactHeaders: seq<string> := ["email", "phone", "address", "education", "experience", "skills"]

  /** The paragraph opens, in any case, with a contact or section header. */
  predicate OpensWithHeader(para: string) {
    exists h :: h in ContactHeaders && StartsWith(Lower(para), h)
  }

  /** A paragraph that reads like a summary: over 100 characters, not a header, and
      with a full stop and more than 15 words. */
  predicate SummaryLike(para: string) {
    |para| > 100 && !OpensWithHeader(para) && '.' in para && |Words(para)| > 15
  }

  /** The first summary-like paragraph. */
  function FirstSummaryLike(paras: seq<string>): (r: Option<string>)
    ensures r.Some? ==> r.value in paras && SummaryLike(r.value)
    ensures r.None? ==> forall p :: p in paras ==> !SummaryLike(p)
  {
    if paras == [] then None
    else if SummaryLike(paras[0]) then Some(paras[0])
    else FirstSummaryLike(paras[1..])
  }

  /** The summary written from the years of experience and the top skills when the
      text has none of its own. */
  function GeneratedSummary(years: nat, topSkills: seq<string>): (s: string)
    ensures s == "" <==> topSkills == []
  {
    if topSkills == [] then ""
    else if years > 0 then ExperiencedSummary(years, Join(topSkills, ", "))
    else SkilledSummary(Join(topSkills, ", "))
  }

  /** The generated summary of someone with years of experience. */
  function ExperiencedSummary(years: nat, skills: string): (s: string)
    ensures s != ""
  {
    "Experienced professional with " + NatToString(years) + " years of experience in " + skills +
    ". Seeking opportunities to leverage expertise and drive impactful results."
  }

  /** The generated summary when the years are unknown. */
  function SkilledSummary(skills: string): (s: string)
    ensures s != ""
  {
    "Skilled professional with expertise in " + skills +
    ". Passionate about continuous learning and delivering high-quality solutions."
  }

  /** The first `n` elements (`xs[:n]`). */
  function Prefix<T>(xs: seq<T>, n: nat): (r: seq<T>)
    ensures |r| <= n && |r| <= |xs| && xs[..|r|] == r
    ensures |xs| >= n ==> |r| == n
  {
    if |xs| <= n then xs else xs[..n]
  }

  /** `extract_summary(text)`: a header section, else one of the first three
      paragraphs, else a summary generated from the experience and up to five skills. */
  function ExtractSummary(text: string, patterns: Patterns): (summary: string)
    ensures var section := SectionSummary(patterns.summarySections(text));
      var para := FirstSummaryLike(Prefix(Paragraphs(text), 3));
      (section.Some? ==> summary == section.value) &&
      (section.None? && para.Some? ==> summary == Take(CollapseSpaces(para.value), MaxSummary)) &&
      (section.None? && para.None? ==>
        summary == GeneratedSummary(ExtractExperienceYears(text, patterns), Prefix(ExtractSkills(text, None), 5)))
  {
    var section := SectionSummary(patterns.summarySections(text));
    if section.Some? then section.value
    else
      var para := FirstSummaryLike(Prefix(Paragraphs(text), 3));
      if para.Some? then Take(CollapseSpaces(para.value), MaxSummary)
      else GeneratedSummary(ExtractExperienceYears(text, patterns), Prefix(ExtractSkills(text, None), 5))
  }

  /** A summary taken from the text is at most 500 characters; the summary is empty
      exactly when the text has no usable section or paragraph and mentions none of
      the built-in skills. */
  lemma SummaryBounds(text: string, patterns: Patterns)
    ensures var section := SectionSummary(patterns.summarySections(text));
      var para := FirstSummaryLike(Prefix(Paragraphs(text), 3));
      (section.Some? || para.Some? ==> |ExtractSummary(text, patterns)| <= MaxSummary)
    ensures var section := SectionSummary(patterns.summarySections(text));
      var para := FirstSummaryLike(Prefix(Paragraphs(text), 3));
      ExtractSummary(text, patterns) == "" <==>
        section.None? && para.None? && ExtractSkills(text, None) == []
  {
    var para := FirstSummaryLike(Prefix(Paragraphs(text), 3));
    if para.Some? {
      assert para.value in Paragraphs(text);
      assert CollapseSpaces(para.value) != [];
    }
  }

  // ---- parse_resume ----

  /** The dictionary `parse_resume` returns; `error` is present only on failure. */
  datatype ParsedResume = ParsedResume(
    resumeText: string,
    skills: seq<string>,
    experienceYears: nat,
    keywords: seq<string>,
    summary: string,
    parsedSuccessfully: bool,
    error: Option<string>)

  /** `parse_resume(path)`: the text and what is drawn from it, or, when the text
      cannot be read, the empty record with the error's message. It never raises. */
  function ParseResume(path: string, readPdf: string -> Result<string>, readDocx: string -> Result<string>, patterns: Patterns): (d: ParsedResume)
    ensures var read := ExtractTextFromFile(path, readPdf, readDocx);
      d.parsedSuccessfully == read.Ok? && (d.error.Some? <==> read.Err?)
    ensures var read := ExtractTextFromFile(path, readPdf, readDocx);
      read.Err? ==> d == ParsedResume("", [], 0, [], "", false, Some(read.error))
    ensures var read := ExtractTextFromFile(path, readPdf, readDocx);
      read.Ok? ==>
        d.resumeText == read.value && d.skills == ExtractSkills(read.value, None) &&
        d.experienceYears == ExtractExperienceYears(read.value, patterns) &&
        d.keywords == ExtractKeywords(read.value, patterns) && d.summary == ExtractSummary(read.value, patterns)
  {
    match ExtractTextFromFile(path, readPdf, readDocx)
    case Err(message) => ParsedResume("", [], 0, [], "", false, Some(message))
    case Ok(text) =>
      ParsedResume(text, ExtractSkills(text, None), ExtractExperienceYears(text, patterns),
                   ExtractKeywords(text, patterns), ExtractSummary(text, patterns), true, None)
  }

  /** A file with another extension is never read, and the record says why. */
  lemma UnsupportedFileRecord(path: string, readPdf: string -> Result<string>, readDocx: string -> Result<string>, patterns: Patterns)
    requires Lower(Extension(path)) !in [".pdf", ".doc", ".docx"]
    ensures ParseResume(path, readPdf, readDocx, patterns) ==
      ParsedResume("", [], 0, [], "", false, Some("Unsupported file type: " + Lower(Extension(path))))
  {
  }

  /** A parsed resume keeps at most twenty distinct keywords and no repeated skill. */
  lemma ParsedResumeBounds(path: string, readPdf: string -> Result<string>, readDocx: string -> Result<string>, patterns: Patterns)
    ensures var d := ParseResume(path, readPdf, readDocx, patterns);
      |d.keywords| <= MaxKeywords &&
      (forall i, j :: 0 <= i < j < |d.keywords| ==> d.keywords[i] != d.keywords[j]) &&
      (forall i, j :: 0 <= i < j < |d.skills| ==> d.skills[i] != d.skills[j])
  {
  }
}
