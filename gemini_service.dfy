/** The heuristic scorer of `services/geminiService.ts` (`analyzeResumeForATS`),
    which despite its file name calls no remote service: one pass over the
    lower-cased text that adds and subtracts fixed points, and three runs of
    guarded `push`es with fixed fallbacks. The function is modelled as its
    four stages, each a method proved against a function stating its
    result. The two regular-expression tests are inputs (`Patterns`); the
    two-second delay is not modelled. */
module GeminiService {
  import opened Common
  import opened Types
  import opened Text

  /** The outcomes of the phone-number test (line 17) and of the
      quantified-achievement test (line 30) on the lower-cased text. */
  datatype Patterns = Patterns(hasPhone: bool, hasNumbers: bool)

  const ActionVerbs: seq<string> := [
    "managed", "developed", "created", "implemented", "designed", "led",
    "improved", "achieved", "delivered", "collaborated", "analyzed", "optimized"]

  const TechKeywords: seq<string> := [
    "javascript", "python", "react", "node", "sql", "aws",
    "docker", "git", "agile", "scrum", "api", "database"]

  /** What every stage reads: the lower-cased text, its number of
      `split(/\s+/)` pieces, and the action verbs and technical keywords
      it includes. */
  datatype Findings = Findings(text: string, wordCount: nat, verbs: seq<string>, tech: seq<string>)

  function FindingsOf(resumeText: string): (f: Findings)
    ensures |f.verbs| <= 12 && |f.tech| <= 12
    ensures forall k :: k in f.tech <==> k in TechKeywords && Contains(f.text, k)
  {
    var text := ToLower(resumeText);
    assert |ActionVerbs| == 12 && |TechKeywords| == 12;
    forall k ensures k in Found(text, TechKeywords) <==> k in TechKeywords && Contains(text, k) {
      FoundMembership(text, TechKeywords, k);
    }
    Findings(text, |Split(text)|, Found(text, ActionVerbs), Found(text, TechKeywords))
  }

  // The score.

  /** Five for an `@` with `.com` or `.org`, five for a phone number. */
  function ContactPoints(text: string, p: Patterns): real {
    (if Contains(text, "@") && (Contains(text, ".com") || Contains(text, ".org")) then 5.0 else 0.0)
    + (if p.hasPhone then 5.0 else 0.0)
  }

  /** Eight, six and seven for the experience, education and skills words. */
  function SectionPoints(text: string): real {
    (if Contains(text, "experience") || Contains(text, "work history") then 8.0 else 0.0)
    + (if Contains(text, "education") || Contains(text, "degree") then 6.0 else 0.0)
    + (if Contains(text, "skills") || Contains(text, "technical") then 7.0 else 0.0)
  }

  /** `Math.min(n * 2, 10)` and `Math.min(n * 1.5, 8)`. */
  function KeywordPoints(f: Findings): real {
    Min(|f.verbs| * 2, 10) as real + RealMin(|f.tech| as real * 1.5, 8.0)
  }

  /** Ten off below 200 pieces, five off above 1000, three off for
      "responsible for". */
  function Penalty(f: Findings): real {
    (if f.wordCount < 200 then 10.0 else 0.0) + (if f.wordCount > 1000 then 5.0 else 0.0)
    + (if Contains(f.text, "responsible for") then 3.0 else 0.0)
  }

  /** `score` before rounding: base 50, the points, eight for quantified
      achievements, less the penalty. It lies in [37, 107]: at most 13 can
      be taken off, since a text cannot be both short and long, and at most
      57 added. */
  function RawScore(f: Findings, p: Patterns): (r: real)
    ensures 37.0 <= r <= 107.0
  {
    50.0 + ContactPoints(f.text, p) + SectionPoints(f.text) + KeywordPoints(f)
    + (if p.hasNumbers then 8.0 else 0.0) - Penalty(f)
  }

  /** `Math.max(0, Math.min(100, Math.round(score)))`. */
  function Clamped(raw: real): int {
    Max(0, Min(100, Round(raw)))
  }

  /** The clamp to 0 never binds; the one to 100 does exactly when the
      rounded score exceeds 100, and the result lies in [37, 100]. */
  lemma ScoreBounds(f: Findings, p: Patterns)
    ensures 37 <= Clamped(RawScore(f, p)) <= 100
    ensures Clamped(RawScore(f, p)) == Min(100, Round(RawScore(f, p)))
    ensures Clamped(RawScore(f, p)) == 100 <==> RawScore(f, p) >= 99.5
  {
  }

  /** The score part of `analyzeResumeForATS`, one `+=`/`-=` at a time. */
  method Score(f: Findings, p: Patterns) returns (score: int)
    ensures score == Clamped(RawScore(f, p))
  {
    var text := f.text;
    var points := 50.0;
    if Contains(text, "@") && (Contains(text, ".com") || Contains(text, ".org")) {
      points := points + 5.0;
    }
    if p.hasPhone {
      points := points + 5.0;
    }
    assert points == 50.0 + ContactPoints(text, p);
    if Contains(text, "experience") || Contains(text, "work history") {
      points := points + 8.0;
    }
    if Contains(text, "education") || Contains(text, "degree") {
      points := points + 6.0;
    }
    if Contains(text, "skills") || Contains(text, "technical") {
      points := points + 7.0;
    }
    assert points == 50.0 + ContactPoints(text, p) + SectionPoints(text);
    points := points + Min(|f.verbs| * 2, 10) as real;
    if p.hasNumbers {
      points := points + 8.0;
    }
    points := points + RealMin(|f.tech| as real * 1.5, 8.0);
    ghost var gained := points;
    if f.wordCount < 200 {
      points := points - 10.0;
    }
    if f.wordCount > 1000 {
      points := points - 5.0;
    }
    if Contains(text, "responsible for") {
      points := points - 3.0;
    }
    assert points == gained - Penalty(f);
    assert points == RawScore(f, p);
    score := Max(0, Min(100, Round(points)));
  }

  // Strengths, in the order they are tested.
  const VerbStrength := "Strong use of action verbs throughout the resume"
  const NumbersStrength := "Includes quantifiable achievements and metrics"
  const TechStrength := "Good technical keyword coverage"
  const EducationStrength := "Clear educational background section"
  const LengthStrength := "Appropriate resume length and content density"

  const StrengthMessages: seq<string> := [
    VerbStrength, NumbersStrength, TechStrength, EducationStrength, LengthStrength]

  /** The two pushed when none of the others is. */
  const DefaultStrengths: seq<string> := [
    "Resume contains relevant professional information",
    "Basic structure and formatting appear appropriate"]

  lemma StrengthMessagesCount()
    ensures |StrengthMessages| == 5
  {
  }

  function StrengthConditions(f: Findings, p: Patterns): (r: seq<bool>)
    ensures |r| == |StrengthMessages|
  {
    [|f.verbs| > 3, p.hasNumbers, |f.tech| > 2, Contains(f.text, "education"),
     300 <= f.wordCount <= 800]
  }

  /** The strengths `analyzeResumeForATS` returns. */
  function StrengthsOf(f: Findings, p: Patterns): seq<string> {
    var found := Select(StrengthMessages, StrengthConditions(f, p));
    if |found| == 0 then DefaultStrengths else found
  }

  lemma StrengthMessagesDistinct()
    ensures NoDuplicates(StrengthMessages)
    ensures forall k :: 0 <= k < |StrengthMessages| ==> StrengthMessages[k] != DefaultStrengths[0]
  {
    forall i, j | 0 <= i < j < |StrengthMessages| ensures StrengthMessages[i] != StrengthMessages[j] {
      assert i == 0 || i == 1 || i == 2 || i == 3;
      assert j == 1 || j == 2 || j == 3 || j == 4;
    }
    forall k | 0 <= k < |StrengthMessages| ensures StrengthMessages[k] != DefaultStrengths[0] {
      assert k == 0 || k == 1 || k == 2 || k == 3 || k == 4;
    }
  }

  /** The `i`-th strength is listed exactly when its test passes; the list
      has no repeats, and it is the two defaults exactly when no test
      passes, so it is never empty. */
  lemma StrengthsMeaning(f: Findings, p: Patterns, i: nat)
    requires i < |StrengthMessages|
    ensures StrengthMessages[i] in StrengthsOf(f, p) <==> StrengthConditions(f, p)[i]
    ensures NoDuplicates(StrengthsOf(f, p))
    ensures StrengthsOf(f, p) == DefaultStrengths <==>
              forall j :: 0 <= j < |StrengthMessages| ==> !StrengthConditions(f, p)[j]
    ensures |StrengthsOf(f, p)| >= 1
  {
    var keep := StrengthConditions(f, p);
    var found := Select(StrengthMessages, keep);
    StrengthMessagesDistinct();
    SelectEmpty(StrengthMessages, keep);
    SelectDistinctBy(StrengthMessages, keep, (m: string) => m);
    if keep[i] {
      SelectKept(StrengthMessages, keep, i);
    }
    if StrengthMessages[i] in found {
      SelectOnlyKept(StrengthMessages, keep, StrengthMessages[i]);
    }
    if found == [] {
      assert StrengthMessages[i] != DefaultStrengths[1] by {
        assert i == 0 || i == 1 || i == 2 || i == 3 || i == 4;
      }
    } else {
      SelectOnlyKept(StrengthMessages, keep, found[0]);
      assert found[0] != DefaultStrengths[0];
    }
  }

  /** The strengths part of `analyzeResumeForATS`. */
  method Strengths(f: Findings, p: Patterns) returns (strengths: seq<string>)
    ensures strengths == StrengthsOf(f, p)
  {
    ghost var keep := StrengthConditions(f, p);
    ghost var messages := StrengthMessages;
    StrengthMessagesCount();
    strengths := [];
    if |f.verbs| > 3 {
      strengths := strengths + [VerbStrength];
    }
    if p.hasNumbers {
      strengths := strengths + [NumbersStrength];
    }
    if |f.tech| > 2 {
      strengths := strengths + [TechStrength];
    }
    if Contains(f.text, "education") {
      strengths := strengths + [EducationStrength];
    }
    if f.wordCount >= 300 && f.wordCount <= 800 {
      strengths := strengths + [LengthStrength];
    }
    SelectFive(messages, keep);
    if |strengths| == 0 {
      strengths := strengths + [DefaultStrengths[0]];
      strengths := strengths + [DefaultStrengths[1]];
    }
  }

  // Recommendations, in the order they are tested.
  const VerbsAdvice := Recommendation("Action Verbs",
    "Use more strong action verbs like 'developed', 'managed', 'implemented', 'optimized' to start your bullet points")
  const ResultsAdvice := Recommendation("Quantifiable Results",
    "Add specific numbers, percentages, or metrics to demonstrate your impact (e.g., 'Increased sales by 25%')")
  const KeywordsAdvice := Recommendation("Keywords",
    "Include more industry-specific keywords and technical skills relevant to your target positions")
  const LengthAdvice := Recommendation("Content Length",
    "Expand your resume with more detailed descriptions of your experience and achievements")
  const LanguageAdvice := Recommendation("Language Strength",
    "Replace passive phrases like 'responsible for' with active accomplishment statements")
  const ContactAdvice := Recommendation("Contact Information",
    "Ensure your email address and phone number are clearly visible at the top of your resume")

  const Advice: seq<Recommendation> := [
    VerbsAdvice, ResultsAdvice, KeywordsAdvice, LengthAdvice, LanguageAdvice, ContactAdvice]

  /** The two pushed when no other advice is. */
  const DefaultAdvice: seq<Recommendation> := [
    Recommendation("Formatting",
      "Ensure consistent formatting throughout your resume with clear section headers"),
    Recommendation("Customization",
      "Tailor your resume for each job application by matching relevant keywords from job descriptions")]

  lemma AdviceCount()
    ensures |Advice| == 6
  {
  }

  function AdviceConditions(f: Findings, p: Patterns): (r: seq<bool>)
    ensures |r| == |Advice|
  {
    [|f.verbs| < 3, !p.hasNumbers, |f.tech| < 3, f.wordCount < 200,
     Contains(f.text, "responsible for"), !Contains(f.text, "@")]
  }

  /** The recommendations `analyzeResumeForATS` returns. */
  function RecommendationsOf(f: Findings, p: Patterns): seq<Recommendation> {
    var found := Select(Advice, AdviceConditions(f, p));
    if |found| == 0 then DefaultAdvice else found
  }

  function Area(r: Recommendation): string {
    r.area
  }

  /** No two of the eight possible recommendations share an area. */
  lemma AreasDistinct()
    ensures forall i, j :: 0 <= i < j < |Advice + DefaultAdvice| ==>
              Area((Advice + DefaultAdvice)[i]) != Area((Advice + DefaultAdvice)[j])
  {
    var all := Advice + DefaultAdvice;
    forall i, j | 0 <= i < j < |all| ensures Area(all[i]) != Area(all[j]) {
      assert i == 0 || i == 1 || i == 2 || i == 3 || i == 4 || i == 5 || i == 6;
      assert j == 1 || j == 2 || j == 3 || j == 4 || j == 5 || j == 6 || j == 7;
    }
  }

  /** The `i`-th advice is given exactly when its test passes, no area is
      advised on twice, and the two defaults come back exactly when no test
      passes; in particular a text without `@` is always told to add
      contact details, so it never gets the defaults. */
  lemma RecommendationsMeaning(f: Findings, p: Patterns, i: nat)
    requires i < |Advice|
    ensures Advice[i] in RecommendationsOf(f, p) <==> AdviceConditions(f, p)[i]
    ensures forall j, k :: 0 <= j < k < |RecommendationsOf(f, p)| ==>
              RecommendationsOf(f, p)[j].area != RecommendationsOf(f, p)[k].area
    ensures RecommendationsOf(f, p) == DefaultAdvice <==>
              forall j :: 0 <= j < |Advice| ==> !AdviceConditions(f, p)[j]
    ensures !Contains(f.text, "@") ==> ContactAdvice in RecommendationsOf(f, p)
  {
    var keep := AdviceConditions(f, p);
    var all := Advice + DefaultAdvice;
    AreasDistinct();
    forall j, k | 0 <= j < k < |Advice| && keep[j] && keep[k] ensures Area(Advice[j]) != Area(Advice[k]) {
      assert all[j] == Advice[j] && all[k] == Advice[k];
    }
    var found := Select(Advice, keep);
    SelectDistinctBy(Advice, keep, Area);
    SelectEmpty(Advice, keep);
    if keep[i] {
      SelectKept(Advice, keep, i);
    }
    if Advice[i] in found {
      SelectOnlyKept(Advice, keep, Advice[i]);
      var j :| 0 <= j < |Advice| && keep[j] && Advice[j] == Advice[i];
      assert all[j] == Advice[j] && all[i] == Advice[i];
    }
    if !Contains(f.text, "@") {
      SelectKept(Advice, keep, 5);
    }
    if |found| == 0 {
      assert DefaultAdvice[0] == all[6] && DefaultAdvice[1] == all[7] && all[6].area != all[7].area;
    } else {
      SelectOnlyKept(Advice, keep, found[0]);
      var k :| 0 <= k < |Advice| && keep[k] && Advice[k] == found[0];
      assert Area(all[k]) != Area(all[6]);
    }
  }

  /** The recommendations part of `analyzeResumeForATS`. */
  method Recommendations(f: Findings, p: Patterns) returns (recommendations: seq<Recommendation>)
    ensures recommendations == RecommendationsOf(f, p)
  {
    ghost var keep := AdviceConditions(f, p);
    ghost var advice := Advice;
    AdviceCount();
    recommendations := [];
    if |f.verbs| < 3 {
      recommendations := recommendations + [VerbsAdvice];
    }
    if !p.hasNumbers {
      recommendations := recommendations + [ResultsAdvice];
    }
    if |f.tech| < 3 {
      recommendations := recommendations + [KeywordsAdvice];
    }
    if f.wordCount < 200 {
      recommendations := recommendations + [LengthAdvice];
    }
    if Contains(f.text, "responsible for") {
      recommendations := recommendations + [LanguageAdvice];
    }
    if !Contains(f.text, "@") {
      recommendations := recommendations + [ContactAdvice];
    }
    SelectSix(advice, keep);
    if |recommendations| == 0 {
      recommendations := recommendations + [DefaultAdvice[0]];
      recommendations := recommendations + [DefaultAdvice[1]];
    }
  }

  // Job suggestions: the roles the text points at, in order, then generic
  // roles up to five.
  const FrontendJob := JobSuggestion("Frontend Developer", "Strong frontend technology skills detected in your resume")
  const DataJob := JobSuggestion("Data Analyst", "Data analysis and programming skills align with this role")
  const ManagerJob := JobSuggestion("Project Manager", "Leadership and management experience evident in your background")
  const DevOpsJob := JobSuggestion("DevOps Engineer", "Cloud and containerization technologies match DevOps requirements")
  const MarketingJob := JobSuggestion("Digital Marketing Specialist",
    "Marketing experience and digital skills are relevant for this position")

  const SpecificJobs: seq<JobSuggestion> := [FrontendJob, DataJob, ManagerJob, DevOpsJob, MarketingJob]

  /** `genericJobs`. */
  const GenericJobs: seq<JobSuggestion> := [
    JobSuggestion("Business Analyst", "Analytical skills and business acumen from your experience"),
    JobSuggestion("Operations Coordinator", "Organizational and coordination skills demonstrated"),
    JobSuggestion("Customer Success Manager", "Communication and relationship management capabilities"),
    JobSuggestion("Technical Writer", "Communication skills and technical knowledge combination"),
    JobSuggestion("Quality Assurance Specialist", "Attention to detail and systematic approach evident")]

  lemma JobTablesCount()
    ensures |SpecificJobs| == 5 && |GenericJobs| == 5
  {
  }

  /** The tests, on the keywords found or on the text, that add each of
      `SpecificJobs`. */
  function JobConditions(f: Findings): (r: seq<bool>)
    ensures |r| == |SpecificJobs|
  {
    ["javascript" in f.tech || "react" in f.tech,
     "python" in f.tech || "sql" in f.tech,
     Contains(f.text, "manage") || Contains(f.text, "lead") || Contains(f.text, "team"),
     "aws" in f.tech || "docker" in f.tech,
     Contains(f.text, "marketing") || Contains(f.text, "social media")]
  }

  /** `suggestedJobs.find(j => j.title === title)` finds something. */
  predicate TitleListed(jobs: seq<JobSuggestion>, title: string) {
    exists k :: 0 <= k < |jobs| && jobs[k].title == title
  }

  /** No two of `jobs` share a title. */
  predicate TitlesDistinct(jobs: seq<JobSuggestion>) {
    forall j, k :: 0 <= j < k < |jobs| ==> jobs[j].title != jobs[k].title
  }

  /** The inner `for` loop over `generic`: each role is appended when no
      listed role has its title and fewer than five are listed. What was
      listed stays in front, and the list grows past five only if it
      started there. */
  function FillFrom(jobs: seq<JobSuggestion>, generic: seq<JobSuggestion>): (r: seq<JobSuggestion>)
    ensures |jobs| <= |r| <= Max(|jobs|, 5)
    ensures r[..|jobs|] == jobs
    decreases |generic|
  {
    if generic == [] then jobs
    else FillFrom(Push(jobs, !TitleListed(jobs, generic[0].title) && |jobs| < 5, generic[0]), generic[1..])
  }

  /** Moving the head of `ys` to the end of `xs` keeps `xs` followed by a
      prefix of `ys`. */
  lemma MoveHead<T>(xs: seq<T>, ys: seq<T>, n: nat)
    requires 0 < n <= |ys|
    ensures (xs + [ys[0]]) + ys[1..][..n - 1] == xs + ys[..n]
    ensures (xs + [ys[0]]) + ys[1..] == xs + ys
  {
    assert ys[..n] == [ys[0]] + ys[1..][..n - 1];
    assert ys == [ys[0]] + ys[1..];
  }

  /** The first role after `jobs` has a title none of `jobs` has. */
  lemma NextTitleFresh(jobs: seq<JobSuggestion>, generic: seq<JobSuggestion>)
    requires TitlesDistinct(jobs + generic) && generic != []
    ensures !TitleListed(jobs, generic[0].title)
  {
    var all := jobs + generic;
    assert generic[0] == all[|jobs|];
    forall k | 0 <= k < |jobs| ensures jobs[k].title != generic[0].title {
      assert jobs[k] == all[k];
    }
  }

  /** When no title repeats, the fill appends the first roles of `generic`
      until five are listed or `generic` runs out. */
  lemma {:induction false} FillFromDistinct(jobs: seq<JobSuggestion>, generic: seq<JobSuggestion>)
    requires TitlesDistinct(jobs + generic) && |jobs| <= 5
    ensures FillFrom(jobs, generic) == jobs + generic[..Min(|generic|, 5 - |jobs|)]
    decreases |generic|
  {
    if generic == [] {
      assert generic[..0] == [];
    } else if |jobs| < 5 {
      NextTitleFresh(jobs, generic);
      MoveHead(jobs, generic, Min(|generic|, 5 - |jobs|));
      FillFromDistinct(jobs + [generic[0]], generic[1..]);
    } else {
      var r := FillFrom(jobs, generic);
      assert r == r[..|jobs|];
      assert generic[..0] == [];
    }
  }

  /** Keeping some of `xs` keeps the titles of what is kept, followed by
      `ys`, distinct. */
  lemma SelectTitlesDistinct(xs: seq<JobSuggestion>, keep: seq<bool>, ys: seq<JobSuggestion>)
    requires |xs| == |keep| && TitlesDistinct(xs + ys)
    ensures TitlesDistinct(Select(xs, keep) + ys)
  {
    var all := xs + ys;
    var kept := Select(xs, keep);
    forall i, j | 0 <= i < j < |xs| && keep[i] && keep[j] ensures xs[i].title != xs[j].title {
      assert xs[i] == all[i] && xs[j] == all[j];
    }
    SelectDistinctBy(xs, keep, (job: JobSuggestion) => job.title);
    forall i, j | 0 <= i < j < |kept + ys| ensures (kept + ys)[i].title != (kept + ys)[j].title {
      if j < |kept| {
        assert (kept + ys)[i] == kept[i] && (kept + ys)[j] == kept[j];
      } else if i < |kept| {
        SelectOnlyKept(xs, keep, kept[i]);
        var m :| 0 <= m < |xs| && keep[m] && xs[m] == kept[i];
        assert all[m] == kept[i] && all[|xs| + j - |kept|] == (kept + ys)[j];
      } else {
        assert (kept + ys)[i] == all[|xs| + i - |kept|] && (kept + ys)[j] == all[|xs| + j - |kept|];
      }
    }
  }

  /** The ten titles are distinct. */
  lemma JobTitlesDistinct()
    ensures TitlesDistinct(SpecificJobs + GenericJobs)
  {
    var all := SpecificJobs + GenericJobs;
    forall i, j | 0 <= i < j < |all| ensures all[i].title != all[j].title {
      assert i == 0 || i == 1 || i == 2 || i == 3 || i == 4 || i == 5 || i == 6 || i == 7 || i == 8;
      assert j == 1 || j == 2 || j == 3 || j == 4 || j == 5 || j == 6 || j == 7 || j == 8 || j == 9;
    }
  }

  /** The jobs `analyzeResumeForATS` returns: the roles whose tests pass,
      the generic fill while fewer than five, and `slice(0, 5)`. */
  function JobsOf(f: Findings, generic: seq<JobSuggestion>): seq<JobSuggestion> {
    var specific := Select(SpecificJobs, JobConditions(f));
    var suggested := if |specific| < 5 then FillFrom(specific, generic) else specific;
    suggested[..Min(5, |suggested|)]
  }

  /** When no title repeats, the returned jobs are the roles whose tests
      pass followed by the first generic roles, up to five, with no title
      twice. */
  lemma JobsClosedForm(f: Findings, generic: seq<JobSuggestion>)
    requires TitlesDistinct(SpecificJobs + generic)
    ensures |Select(SpecificJobs, JobConditions(f))| <= 5
    ensures JobsOf(f, generic) == Select(SpecificJobs, JobConditions(f))
              + generic[..Min(|generic|, 5 - |Select(SpecificJobs, JobConditions(f))|)]
    ensures TitlesDistinct(Select(SpecificJobs, JobConditions(f)) + generic)
  {
    var specific := Select(SpecificJobs, JobConditions(f));
    JobTablesCount();
    SelectTitlesDistinct(SpecificJobs, JobConditions(f), generic);
    if |specific| < 5 {
      FillFromDistinct(specific, generic);
    } else {
      assert generic[..0] == [] && specific[..5] == specific;
    }
  }

  /** A specific role is kept exactly when its test passes, and it is
      none of the generic roles, whose titles differ from its own. */
  lemma SpecificListed(f: Findings, generic: seq<JobSuggestion>, i: nat, n: nat)
    requires TitlesDistinct(SpecificJobs + generic) && i < |SpecificJobs| && n <= |generic|
    ensures SpecificJobs[i] in Select(SpecificJobs, JobConditions(f)) + generic[..n] <==> JobConditions(f)[i]
  {
    var keep := JobConditions(f);
    var all := SpecificJobs + generic;
    if keep[i] {
      SelectKept(SpecificJobs, keep, i);
    }
    if SpecificJobs[i] in Select(SpecificJobs, keep) {
      SelectOnlyKept(SpecificJobs, keep, SpecificJobs[i]);
      var m :| 0 <= m < |SpecificJobs| && keep[m] && SpecificJobs[m] == SpecificJobs[i];
      assert all[m] == SpecificJobs[m] && all[i] == SpecificJobs[i];
    }
    forall k | 0 <= k < n ensures generic[..n][k] != SpecificJobs[i] {
      assert all[|SpecificJobs| + k] == generic[..n][k] && all[i] == SpecificJobs[i];
    }
  }

  /** Dropping the tail of the second part keeps titles distinct. */
  lemma DistinctPrefix(xs: seq<JobSuggestion>, ys: seq<JobSuggestion>, n: nat)
    requires TitlesDistinct(xs + ys) && n <= |ys|
    ensures TitlesDistinct(xs + ys[..n])
  {
    assert xs + ys[..n] == (xs + ys)[..|xs| + n];
  }

  /** With at least five generic roles, none sharing a title with a
      specific one, exactly five jobs come back, with distinct titles:
      first the roles whose tests pass, in the fixed order, then generic
      roles from the top of their list; each specific role is among them
      exactly when its test passes. */
  lemma JobsMeaning(f: Findings, generic: seq<JobSuggestion>, i: nat)
    requires TitlesDistinct(SpecificJobs + generic) && |generic| >= 5
    requires i < |SpecificJobs|
    ensures |JobsOf(f, generic)| == 5
    ensures SpecificJobs[i] in JobsOf(f, generic) <==> JobConditions(f)[i]
    ensures JobsOf(f, generic)[..|Select(SpecificJobs, JobConditions(f))|] == Select(SpecificJobs, JobConditions(f))
    ensures TitlesDistinct(JobsOf(f, generic))
  {
    var specific := Select(SpecificJobs, JobConditions(f));
    JobsClosedForm(f, generic);
    SpecificListed(f, generic, i, 5 - |specific|);
    DistinctPrefix(specific, generic, 5 - |specific|);
  }

  /** The `while` around the generic fill, whose `break` makes it run at
      most once, and its `for` loop. */
  method FillWithGeneric(jobs: seq<JobSuggestion>, generic: seq<JobSuggestion>) returns (suggested: seq<JobSuggestion>)
    ensures suggested == if |jobs| < 5 then FillFrom(jobs, generic) else jobs
  {
    suggested := jobs;
    if |suggested| < 5 {
      for i := 0 to |generic|
        invariant FillFrom(suggested, generic[i..]) == FillFrom(jobs, generic)
      {
        var job := generic[i];
        assert generic[i..][1..] == generic[i + 1..];
        if !TitleListed(suggested, job.title) && |suggested| < 5 {
          suggested := suggested + [job];
        }
      }
      assert generic[|generic|..] == [];
    }
  }

  /** The five guarded pushes of specific roles. */
  method MatchSpecificJobs(f: Findings) returns (suggestedJobs: seq<JobSuggestion>)
    ensures suggestedJobs == Select(SpecificJobs, JobConditions(f))
  {
    ghost var keep := JobConditions(f);
    ghost var table := SpecificJobs;
    JobTablesCount();
    suggestedJobs := [];
    if "javascript" in f.tech || "react" in f.tech {
      suggestedJobs := suggestedJobs + [FrontendJob];
    }
    if "python" in f.tech || "sql" in f.tech {
      suggestedJobs := suggestedJobs + [DataJob];
    }
    if Contains(f.text, "manage") || Contains(f.text, "lead") || Contains(f.text, "team") {
      suggestedJobs := suggestedJobs + [ManagerJob];
    }
    if "aws" in f.tech || "docker" in f.tech {
      suggestedJobs := suggestedJobs + [DevOpsJob];
    }
    if Contains(f.text, "marketing") || Contains(f.text, "social media") {
      suggestedJobs := suggestedJobs + [MarketingJob];
    }
    SelectFive(table, keep);
  }

  /** The job part of `analyzeResumeForATS`: the specific roles, the
      generic fill and `slice(0, 5)`. */
  method SuggestJobs(f: Findings, generic: seq<JobSuggestion>) returns (jobs: seq<JobSuggestion>)
    ensures jobs == JobsOf(f, generic)
  {
    var suggestedJobs := MatchSpecificJobs(f);
    suggestedJobs := FillWithGeneric(suggestedJobs, generic);
    jobs := suggestedJobs[..Min(5, |suggestedJobs|)];
  }

  /** `analyzeResumeForATS(resumeText)`, without its delay; `p` holds the
      outcomes of the two regular-expression tests on the lower-cased text. */
  method AnalyzeResumeForAts(resumeText: string, p: Patterns) returns (result: AnalysisResult)
    ensures result.atsScore == Clamped(RawScore(FindingsOf(resumeText), p))
    ensures 37 <= result.atsScore <= 100
    ensures result.strengths == StrengthsOf(FindingsOf(resumeText), p)
    ensures result.recommendations == RecommendationsOf(FindingsOf(resumeText), p)
    ensures result.suggestedJobs == JobsOf(FindingsOf(resumeText), GenericJobs)
    ensures |result.suggestedJobs| == 5 && TitlesDistinct(result.suggestedJobs)
  {
    var text := ToLower(resumeText);
    var words := Split(text);
    var wordCount := |words|;
    var foundActionVerbs := Found(text, ActionVerbs);
    var foundTechKeywords := Found(text, TechKeywords);
    var f := Findings(text, wordCount, foundActionVerbs, foundTechKeywords);
    assert f == FindingsOf(resumeText);
    var score := Score(f, p);
    ScoreBounds(f, p);
    var strengths := Strengths(f, p);
    var recommendations := Recommendations(f, p);
    var suggestedJobs := SuggestJobs(f, GenericJobs);
    JobTitlesDistinct();
    JobTablesCount();
    JobsMeaning(f, GenericJobs, 0);
    result := AnalysisResult(score, strengths, recommendations, suggestedJobs);
  }
}
