/** The category-weighted scorer of `services/resumeAnalyzer.ts`. The
    analyzer object only ever holds what its constructor computed, so it is
    a value here; every `calculate*`/`identify*`/`generate*`/`suggest*`
    member is a method over it that is proved against a function stating
    its result. The regular-expression tests on the raw text are inputs
    (`Signals`); keyword search is `includes` on the normalised text. */
module ResumeAnalyzer {
  import opened Common
  import opened Types
  import opened Text

  datatype KeywordCategory = KeywordCategory(name: string, keywords: seq<string>, weight: real)

  const TechnicalSkills: seq<string> := [
    "javascript", "python", "java", "react", "angular", "vue", "node.js", "typescript",
    "html", "css", "sql", "mongodb", "postgresql", "mysql", "git", "docker", "kubernetes",
    "aws", "azure", "gcp", "linux", "windows", "macos", "agile", "scrum", "devops",
    "ci/cd", "jenkins", "terraform", "ansible", "microservices", "api", "rest", "graphql"]

  const ActionVerbs: seq<string> := [
    "achieved", "managed", "led", "developed", "created", "implemented", "designed",
    "optimized", "improved", "increased", "reduced", "streamlined", "collaborated",
    "coordinated", "supervised", "trained", "mentored", "analyzed", "researched",
    "established", "launched", "delivered", "executed", "facilitated", "negotiated"]

  const SoftSkills: seq<string> := [
    "leadership", "communication", "teamwork", "problem-solving", "analytical",
    "creative", "adaptable", "organized", "detail-oriented", "time management",
    "project management", "critical thinking", "collaboration", "innovation",
    "strategic planning", "customer service", "presentation", "negotiation"]

  const IndustryTerms: seq<string> := [
    "software development", "web development", "mobile development", "data analysis",
    "machine learning", "artificial intelligence", "cybersecurity", "cloud computing",
    "digital marketing", "product management", "user experience", "user interface",
    "quality assurance", "business analysis", "project coordination", "sales",
    "marketing", "finance", "accounting", "human resources", "operations"]

  /** `KEYWORD_CATEGORIES`. */
  const KeywordCategories: seq<KeywordCategory> := [
    KeywordCategory("Technical Skills", TechnicalSkills, 0.3),
    KeywordCategory("Action Verbs", ActionVerbs, 0.25),
    KeywordCategory("Soft Skills", SoftSkills, 0.2),
    KeywordCategory("Industry Terms", IndustryTerms, 0.25)]

  datatype JobRole = JobRole(title: string, keywords: seq<string>, requiredCount: nat)

  /** `COMMON_JOB_ROLES`. */
  const JobRoles: seq<JobRole> := [
    JobRole("Software Engineer",
      ["javascript", "python", "java", "react", "node.js", "git", "api", "software development"], 3),
    JobRole("Frontend Developer",
      ["javascript", "react", "angular", "vue", "html", "css", "typescript", "web development"], 4),
    JobRole("Backend Developer",
      ["python", "java", "node.js", "sql", "api", "microservices", "database"], 3),
    JobRole("Full Stack Developer",
      ["javascript", "react", "node.js", "sql", "html", "css", "api", "git"], 4),
    JobRole("Data Analyst",
      ["python", "sql", "data analysis", "excel", "tableau", "power bi", "statistics"], 3),
    JobRole("DevOps Engineer",
      ["docker", "kubernetes", "aws", "azure", "ci/cd", "jenkins", "terraform", "linux"], 3),
    JobRole("Product Manager",
      ["product management", "agile", "scrum", "project management", "analytics", "strategy"], 3),
    JobRole("UX/UI Designer",
      ["user experience", "user interface", "figma", "sketch", "adobe", "design", "prototyping"], 3),
    JobRole("Digital Marketing Specialist",
      ["digital marketing", "seo", "sem", "social media", "analytics", "content marketing"], 3),
    JobRole("Business Analyst",
      ["business analysis", "requirements", "process improvement", "stakeholder", "documentation"], 3)]

  /** The fields the constructor fills in. */
  datatype Analyzer = Analyzer(resumeText: string, normalizedText: string, words: seq<string>, lines: seq<string>)

  /** The outcomes of the regular-expression tests on the raw text:
      the email, phone, date and bullet patterns, the number of matches of
      the wide quantifier pattern (line 199, with `[0-9,]+`) and of the
      narrow one (lines 249 and 318), and the summary, skills and education
      heading patterns. A `match` that finds nothing counts as 0. */
  datatype Signals = Signals(
    hasEmail: bool, hasPhone: bool, hasDate: bool, hasBullets: bool,
    quantifierMatches: nat, achievementMatches: nat,
    hasSummary: bool, hasSkillsHeading: bool, hasEducation: bool)

  /** `new ResumeAnalyzer(resumeText)`. */
  function NewAnalyzer(resumeText: string): (a: Analyzer)
    ensures a.resumeText == resumeText
    ensures |a.normalizedText| == |ToLower(resumeText)|
    ensures forall i :: 0 <= i < |a.normalizedText| ==>
              (IsWordChar(a.normalizedText[i]) || IsSpace(a.normalizedText[i])) && !IsAsciiUpper(a.normalizedText[i])
    ensures forall i :: 0 <= i < |a.words| ==> a.words[i] != ""
    ensures forall i, j :: 0 <= i < |a.words| && 0 <= j < |a.words[i]| ==>
              IsWordChar(a.words[i][j]) && !IsAsciiUpper(a.words[i][j])
    ensures |a.words| == WordRuns(a.normalizedText)
    ensures forall i :: 0 <= i < |a.lines| ==> HasText(a.lines[i])
  {
    var normalized := Normalize(resumeText);
    WordsMeaning(normalized);
    NormalizedWords(resumeText);
    Analyzer(resumeText, normalized, Words(normalized), Lines(resumeText))
  }

  /** Four of the listed keywords hold `.`, `/` or `-`, which normalisation
      turns into spaces, so no resume can ever be credited with them. */
  lemma UnreachableKeywords(resumeText: string)
    ensures !Contains(NewAnalyzer(resumeText).normalizedText, "node.js")
    ensures !Contains(NewAnalyzer(resumeText).normalizedText, "ci/cd")
    ensures !Contains(NewAnalyzer(resumeText).normalizedText, "problem-solving")
    ensures !Contains(NewAnalyzer(resumeText).normalizedText, "detail-oriented")
  {
    NormalizedNeverContains(resumeText, "node.js", 4);
    NormalizedNeverContains(resumeText, "ci/cd", 2);
    NormalizedNeverContains(resumeText, "problem-solving", 7);
    NormalizedNeverContains(resumeText, "detail-oriented", 6);
  }

  /** `Math.min(100, (found / size) * 100)`. */
  function CategoryScore(text: string, c: KeywordCategory): (r: real)
    requires |c.keywords| > 0
    ensures 0.0 <= r <= 100.0
  {
    var found := |Found(text, c.keywords)|;
    assert found as real / |c.keywords| as real <= 1.0 by {
      FractionAtMostOne(found, |c.keywords|);
    }
    RealMin(100.0, (found as real / |c.keywords| as real) * 100.0)
  }

  lemma FractionAtMostOne(m: nat, n: nat)
    requires 0 < n && m <= n
    ensures 0.0 <= m as real / n as real <= 1.0
  {
    var q := m as real / n as real;
    assert q * n as real == m as real;
  }

  /** Every category lists at least one keyword, so its percentage is defined. */
  predicate CategoriesListed(cs: seq<KeywordCategory>) {
    forall i :: 0 <= i < |cs| ==> |cs[i].keywords| > 0
  }

  /** ... and no category carries a negative weight. */
  predicate Weighted(cs: seq<KeywordCategory>) {
    CategoriesListed(cs) && forall i :: 0 <= i < |cs| ==> cs[i].weight >= 0.0
  }

  /** `totalScore` after the categories `cs`. */
  function WeightedTotal(text: string, cs: seq<KeywordCategory>): real
    requires CategoriesListed(cs)
  {
    if cs == [] then 0.0
    else WeightedTotal(text, cs[..|cs| - 1]) + CategoryScore(text, cs[|cs| - 1]) * cs[|cs| - 1].weight
  }

  /** `totalWeight` after the categories `cs`. */
  function TotalWeight(cs: seq<KeywordCategory>): real {
    if cs == [] then 0.0 else TotalWeight(cs[..|cs| - 1]) + cs[|cs| - 1].weight
  }

  /** The value `calculateKeywordScore` returns for the categories `cs`. */
  function KeywordMean(text: string, cs: seq<KeywordCategory>): real
    requires CategoriesListed(cs)
  {
    var total := TotalWeight(cs);
    if total > 0.0 then WeightedTotal(text, cs) / total else 0.0
  }

  /** A percentage scaled by a non-negative weight stays within 0 and 100
      times that weight. */
  lemma ScaledPercent(score: real, weight: real)
    requires 0.0 <= score <= 100.0 && 0.0 <= weight
    ensures 0.0 <= score * weight <= 100.0 * weight
  {
  }

  /** Adding a term within 0 and 100 times its weight keeps a total within
      0 and 100 times the total weight. */
  lemma SumBounds(total: real, term: real, totalWeight: real, weight: real)
    requires 0.0 <= total <= 100.0 * totalWeight && 0.0 <= term <= 100.0 * weight
    ensures 0.0 <= total + term <= 100.0 * (totalWeight + weight)
  {
  }

  /** One more category in the loop of `calculateKeywordScore`. */
  lemma WeightedStep(text: string, cs: seq<KeywordCategory>, k: nat)
    requires CategoriesListed(cs) && k < |cs|
    ensures WeightedTotal(text, cs[..k + 1]) == WeightedTotal(text, cs[..k]) + CategoryScore(text, cs[k]) * cs[k].weight
    ensures TotalWeight(cs[..k + 1]) == TotalWeight(cs[..k]) + cs[k].weight
  {
    assert cs[..k + 1][..k] == cs[..k];
  }

  /** Dropping the last category keeps the categories weighted. */
  lemma WeightedInit(cs: seq<KeywordCategory>)
    requires Weighted(cs) && cs != []
    ensures Weighted(cs[..|cs| - 1])
  {
    var init := cs[..|cs| - 1];
    forall i | 0 <= i < |init| ensures |init[i].keywords| > 0 && init[i].weight >= 0.0 {
      assert init[i] == cs[i];
    }
  }

  /** With non-negative weights, the running total stays between 0 and 100
      times the running weight. */
  lemma {:induction false} WeightedTotalBounds(text: string, cs: seq<KeywordCategory>)
    requires Weighted(cs)
    ensures 0.0 <= TotalWeight(cs)
    ensures 0.0 <= WeightedTotal(text, cs) <= 100.0 * TotalWeight(cs)
  {
    if cs != [] {
      var n := |cs| - 1;
      WeightedInit(cs);
      WeightedTotalBounds(text, cs[..n]);
      WeightedStep(text, cs, n);
      assert cs[..n + 1] == cs;
      var score := CategoryScore(text, cs[n]);
      ScaledPercent(score, cs[n].weight);
      SumBounds(WeightedTotal(text, cs[..n]), score * cs[n].weight, TotalWeight(cs[..n]), cs[n].weight);
    }
  }

  /** Dividing a total within 0 and 100 times a positive weight by that
      weight gives a percentage. */
  lemma MeanBounds(total: real, weight: real)
    requires 0.0 < weight && 0.0 <= total <= 100.0 * weight
    ensures 0.0 <= total / weight <= 100.0
  {
    var mean := total / weight;
    assert mean * weight == total;
  }

  /** A weighted mean of percentages is a percentage. */
  lemma KeywordMeanBounds(text: string, cs: seq<KeywordCategory>)
    requires Weighted(cs)
    ensures 0.0 <= KeywordMean(text, cs) <= 100.0
  {
    WeightedTotalBounds(text, cs);
    var total := TotalWeight(cs);
    if total > 0.0 {
      MeanBounds(WeightedTotal(text, cs), total);
    }
  }

  lemma KeywordCategoriesWeighted()
    ensures Weighted(KeywordCategories)
  {
  }

  /** The weights of `KEYWORD_CATEGORIES` sum to one, so the keyword score
      is the weighted total itself, undivided. */
  lemma KeywordMeanIsWeightedSum(text: string)
    ensures CategoriesListed(KeywordCategories)
    ensures TotalWeight(KeywordCategories) == 1.0
    ensures KeywordMean(text, KeywordCategories) == WeightedTotal(text, KeywordCategories)
  {
    var cs := KeywordCategories;
    assert cs[..4] == cs;
    assert cs[..4][..3] == cs[..3] && cs[..3][..2] == cs[..2] && cs[..2][..1] == cs[..1] && cs[..1][..0] == [];
    assert TotalWeight(cs[..1]) == 0.3;
    assert TotalWeight(cs[..2]) == 0.55;
    assert TotalWeight(cs[..3]) == 0.75;
  }

  /** `calculateKeywordScore` over the categories `categories`. */
  method KeywordScore(a: Analyzer, categories: seq<KeywordCategory>) returns (score: real)
    requires CategoriesListed(categories)
    ensures score == KeywordMean(a.normalizedText, categories)
  {
    var totalScore := 0.0;
    var totalWeight := 0.0;
    for i := 0 to |categories|
      invariant totalScore == WeightedTotal(a.normalizedText, categories[..i])
      invariant totalWeight == TotalWeight(categories[..i])
    {
      var category := categories[i];
      var foundKeywords := Found(a.normalizedText, category.keywords);
      var categoryScore := RealMin(100.0, (|foundKeywords| as real / |category.keywords| as real) * 100.0);
      WeightedStep(a.normalizedText, categories, i);
      totalScore := totalScore + categoryScore * category.weight;
      totalWeight := totalWeight + category.weight;
    }
    assert categories[..|categories|] == categories;
    score := if totalWeight > 0.0 then totalScore / totalWeight else 0.0;
  }

  /** The value `calculateFormatScore` returns: 15 off for a missing email,
      10 each for a missing phone number, date and bullets. */
  function FormatPoints(s: Signals): (r: int)
    ensures 55 <= r <= 100
    ensures r == 100 <==> s.hasEmail && s.hasPhone && s.hasDate && s.hasBullets
    ensures r == 55 <==> !s.hasEmail && !s.hasPhone && !s.hasDate && !s.hasBullets
  {
    100 - (if s.hasEmail then 0 else 15) - (if s.hasPhone then 0 else 10)
        - (if s.hasDate then 0 else 10) - (if s.hasBullets then 0 else 10)
  }

  /** `calculateFormatScore`: the final `Math.max(0, score)` never binds. */
  method FormatScore(s: Signals) returns (score: int)
    ensures score == FormatPoints(s)
  {
    score := 100;
    if !s.hasEmail {
      score := score - 15;
    }
    if !s.hasPhone {
      score := score - 10;
    }
    if !s.hasDate {
      score := score - 10;
    }
    if !s.hasBullets {
      score := score - 10;
    }
    score := Max(0, score);
  }

  /** `KEYWORD_CATEGORIES.find(cat => cat.name === name)`. */
  function FindCategory(cs: seq<KeywordCategory>, name: string): Option<KeywordCategory> {
    if cs == [] then None
    else if cs[0].name == name then Some(cs[0])
    else FindCategory(cs[1..], name)
  }

  /** `find` comes back empty exactly when no category has the name, and
      otherwise returns the first category that has it. */
  lemma {:induction false} FindCategoryMeaning(cs: seq<KeywordCategory>, name: string)
    ensures FindCategory(cs, name).None? <==> forall i :: 0 <= i < |cs| ==> cs[i].name != name
    ensures FindCategory(cs, name).Some? ==>
              exists i :: 0 <= i < |cs| && cs[i] == FindCategory(cs, name).value && cs[i].name == name
                          && forall j :: 0 <= j < i ==> cs[j].name != name
  {
    if cs != [] && cs[0].name != name {
      var r := FindCategory(cs[1..], name);
      FindCategoryMeaning(cs[1..], name);
      if r.Some? {
        var i :| 0 <= i < |cs[1..]| && cs[1..][i] == r.value && r.value.name == name
                 && forall j :: 0 <= j < i ==> cs[1..][j].name != name;
        assert cs[i + 1] == r.value;
        forall j | 0 <= j < i + 1 ensures cs[j].name != name {
          if j > 0 {
            assert cs[j] == cs[1..][j - 1];
          }
        }
      } else {
        forall i | 0 <= i < |cs| ensures cs[i].name != name {
          if i > 0 {
            assert cs[i] == cs[1..][i - 1];
          }
        }
      }
    }
  }

  /** `find(...)?.keywords.filter(k => text.includes(k)).length || 0`: the
      number of the named category's keywords in the text, 0 if there is no
      such category. */
  function CategoryCount(text: string, cs: seq<KeywordCategory>, name: string): nat {
    match FindCategory(cs, name)
    case None => 0
    case Some(c) => |Found(text, c.keywords)|
  }

  /** `actionVerbsFound`. */
  function ActionVerbCount(a: Analyzer, cs: seq<KeywordCategory>): nat {
    CategoryCount(a.normalizedText, cs, "Action Verbs")
  }

  /** `techSkillsFound`. */
  function TechSkillCount(a: Analyzer, cs: seq<KeywordCategory>): nat {
    CategoryCount(a.normalizedText, cs, "Technical Skills")
  }

  /** In `KEYWORD_CATEGORIES` the two lookups find the technical skills and
      the action verbs. */
  lemma DefaultLookups()
    ensures FindCategory(KeywordCategories, "Technical Skills") == Some(KeywordCategories[0])
    ensures FindCategory(KeywordCategories, "Action Verbs") == Some(KeywordCategories[1])
  {
    var cs := KeywordCategories;
    assert cs[0].name[0] != "Action Verbs"[0];
    assert cs[1..][0] == cs[1];
  }

  /** So over `KEYWORD_CATEGORIES` the counts are those of the two lists. */
  lemma DefaultCounts(a: Analyzer)
    ensures ActionVerbCount(a, KeywordCategories) == |Found(a.normalizedText, ActionVerbs)|
    ensures TechSkillCount(a, KeywordCategories) == |Found(a.normalizedText, TechnicalSkills)|
  {
    DefaultLookups();
  }

  /** The value `calculateContentScore` returns: 30 or 15 for three or one
      quantifier matches, two per action verb up to 25, and 15 for each of
      the summary, skills and education headings. The parts add up to at
      most 100, so the final `Math.min(100, score)` never binds. */
  function ContentPoints(verbs: nat, s: Signals): (r: int)
    ensures 0 <= r <= 100
    ensures r == (if s.quantifierMatches >= 3 then 30 else if s.quantifierMatches >= 1 then 15 else 0)
                 + Min(25, 2 * verbs)
                 + (if s.hasSummary then 15 else 0) + (if s.hasSkillsHeading then 15 else 0)
                 + (if s.hasEducation then 15 else 0)
  {
    var quantified := if s.quantifierMatches >= 3 then 30 else if s.quantifierMatches >= 1 then 15 else 0;
    var headings := (if s.hasSummary then 15 else 0) + (if s.hasSkillsHeading then 15 else 0)
                    + (if s.hasEducation then 15 else 0);
    Min(100, quantified + Min(25, verbs * 2) + headings)
  }

  /** `calculateContentScore`. */
  method ContentScore(a: Analyzer, s: Signals, categories: seq<KeywordCategory>) returns (score: int)
    ensures score == ContentPoints(ActionVerbCount(a, categories), s)
  {
    score := 0;
    if s.quantifierMatches >= 3 {
      score := score + 30;
    } else if s.quantifierMatches >= 1 {
      score := score + 15;
    }
    var actionVerbsFound := ActionVerbCount(a, categories);
    score := score + Min(25, actionVerbsFound * 2);
    if s.hasSummary {
      score := score + 15;
    }
    if s.hasSkillsHeading {
      score := score + 15;
    }
    if s.hasEducation {
      score := score + 15;
    }
    score := Min(100, score);
  }

  /** `calculateLengthScore` on the number of words. */
  function LengthScore(wordCount: nat): (r: int)
    ensures r == 40 || r == 60 || r == 80 || r == 100
    ensures r == 100 <==> 300 <= wordCount <= 800
    ensures r == 80 <==> 200 <= wordCount < 300 || 800 < wordCount <= 1000
    ensures r == 60 <==> 150 <= wordCount < 200 || 1000 < wordCount <= 1200
    ensures r == 40 <==> wordCount < 150 || wordCount > 1200
  {
    if wordCount >= 300 && wordCount <= 800 then 100
    else if wordCount >= 200 && wordCount < 300 then 80
    else if wordCount > 800 && wordCount <= 1000 then 80
    else if wordCount >= 150 && wordCount < 200 then 60
    else if wordCount > 1000 && wordCount <= 1200 then 60
    else 40
  }

  /** The weighted combination `analyze` computes, before rounding. */
  function AtsRaw(a: Analyzer, s: Signals, cs: seq<KeywordCategory>): real
    requires CategoriesListed(cs)
  {
    KeywordMean(a.normalizedText, cs) * 0.4 + FormatPoints(s) as real * 0.25
    + ContentPoints(ActionVerbCount(a, cs), s) as real * 0.25 + LengthScore(|a.words|) as real * 0.1
  }

  /** The combined score is at least 0.25 * 55 + 0.1 * 40 = 17.75 and at
      most 100, so after rounding it lies in [18, 100] and the clamp to
      [0, 100] in `analyze` never binds. */
  lemma AtsScoreBounds(a: Analyzer, s: Signals, cs: seq<KeywordCategory>)
    requires Weighted(cs)
    ensures 17.75 <= AtsRaw(a, s, cs) <= 100.0
    ensures 18 <= Round(AtsRaw(a, s, cs)) <= 100
  {
    KeywordMeanBounds(a.normalizedText, cs);
  }

  /** The strengths `identifyStrengths` can push, in the order it tests them. */
  const StrengthMessages: seq<string> := [
    "Includes quantifiable achievements and metrics",
    "Strong use of action verbs throughout",
    "Comprehensive technical skills listed",
    "Complete contact information provided",
    "Well-structured with bullet points for readability",
    "Appropriate resume length for ATS scanning"]

  const QuantifiedStrength := StrengthMessages[0]
  const ActionVerbStrength := StrengthMessages[1]
  const TechnicalStrength := StrengthMessages[2]
  const ContactStrength := StrengthMessages[3]
  const StructureStrength := StrengthMessages[4]
  const LengthStrength := StrengthMessages[5]
  /** Pushed when none of the others is. */
  const FallbackStrength := "Resume contains relevant professional information"

  lemma StrengthMessagesCount()
    ensures |StrengthMessages| == 6
  {
  }

  /** The condition under which each of `StrengthMessages` is pushed, given
      the action verbs and technical skills found and the word count. */
  function StrengthConditions(verbs: nat, skills: nat, wordCount: nat, s: Signals): (r: seq<bool>)
    ensures |r| == |StrengthMessages|
  {
    [s.achievementMatches >= 2, verbs >= 5, skills >= 5, s.hasEmail && s.hasPhone,
     s.hasBullets, 300 <= wordCount <= 800]
  }

  /** The list `identifyStrengths` returns. */
  function StrengthsOf(verbs: nat, skills: nat, wordCount: nat, s: Signals): seq<string> {
    var found := Select(StrengthMessages, StrengthConditions(verbs, skills, wordCount, s));
    if |found| == 0 then [FallbackStrength] else found
  }

  lemma StrengthMessagesDistinct()
    ensures NoDuplicates(StrengthMessages)
    ensures FallbackStrength !in StrengthMessages
  {
    forall i, j | 0 <= i < j < |StrengthMessages| ensures StrengthMessages[i] != StrengthMessages[j] {
      assert i == 0 || i == 1 || i == 2 || i == 3 || i == 4;
      assert j == 1 || j == 2 || j == 3 || j == 4 || j == 5;
    }
  }

  /** The `i`-th strength is listed exactly when its condition holds; the
      list has no repeats, is never empty, and is the single fallback
      exactly when no condition holds. */
  lemma StrengthsMeaning(verbs: nat, skills: nat, wordCount: nat, s: Signals, i: nat)
    requires i < |StrengthMessages|
    ensures StrengthsOf(verbs, skills, wordCount, s) != []
    ensures NoDuplicates(StrengthsOf(verbs, skills, wordCount, s))
    ensures StrengthMessages[i] in StrengthsOf(verbs, skills, wordCount, s) <==>
              StrengthConditions(verbs, skills, wordCount, s)[i]
    ensures StrengthsOf(verbs, skills, wordCount, s) == [FallbackStrength] <==>
              forall j :: 0 <= j < |StrengthMessages| ==> !StrengthConditions(verbs, skills, wordCount, s)[j]
  {
    var keep := StrengthConditions(verbs, skills, wordCount, s);
    var found := Select(StrengthMessages, keep);
    StrengthMessagesDistinct();
    SelectEmpty(StrengthMessages, keep);
    SelectDistinctBy(StrengthMessages, keep, (m: string) => m);
    if keep[i] {
      SelectKept(StrengthMessages, keep, i);
    }
    if StrengthMessages[i] in found {
      SelectOnlyKept(StrengthMessages, keep, StrengthMessages[i]);
    }
    if found != [] {
      if FallbackStrength in found {
        SelectOnlyKept(StrengthMessages, keep, FallbackStrength);
      }
      assert found != [FallbackStrength];
    }
  }

  /** `identifyStrengths`. */
  method IdentifyStrengths(a: Analyzer, s: Signals, categories: seq<KeywordCategory>) returns (strengths: seq<string>)
    ensures strengths == StrengthsOf(ActionVerbCount(a, categories), TechSkillCount(a, categories), |a.words|, s)
  {
    var actionVerbsFound := ActionVerbCount(a, categories);
    var techSkillsFound := TechSkillCount(a, categories);
    var wordCount := |a.words|;
    ghost var keep := StrengthConditions(actionVerbsFound, techSkillsFound, wordCount, s);
    ghost var messages := StrengthMessages;
    StrengthMessagesCount();
    strengths := [];
    if s.achievementMatches >= 2 {
      strengths := strengths + [QuantifiedStrength];
    }
    if actionVerbsFound >= 5 {
      strengths := strengths + [ActionVerbStrength];
    }
    if techSkillsFound >= 5 {
      strengths := strengths + [TechnicalStrength];
    }
    if s.hasEmail && s.hasPhone {
      strengths := strengths + [ContactStrength];
    }
    if s.hasBullets {
      strengths := strengths + [StructureStrength];
    }
    if wordCount >= 300 && wordCount <= 800 {
      strengths := strengths + [LengthStrength];
    }
    SelectSix(messages, keep);
    if |strengths| == 0 {
      strengths := strengths + [FallbackStrength];
    }
  }

  // The advice `generateRecommendations` can push, in the order it tests it.
  const KeywordsAdvice := Recommendation("Keywords",
    "Add more relevant technical skills and industry keywords to improve ATS matching")
  const ActionVerbsAdvice := Recommendation("Action Verbs",
    "Use more strong action verbs like \"achieved,\" \"managed,\" \"developed,\" and \"implemented\"")
  const AchievementsAdvice := Recommendation("Achievements",
    "Include more quantifiable achievements with specific numbers, percentages, or dollar amounts")
  const ContactAdvice := Recommendation("Contact Information",
    "Ensure complete contact information including email and phone number is clearly visible")
  const FormattingAdvice := Recommendation("Formatting",
    "Use bullet points to organize information and improve readability for ATS systems")
  const ExpandAdvice := Recommendation("Content Length",
    "Expand your resume with more detailed descriptions of your experience and achievements")
  const CondenseAdvice := Recommendation("Content Length",
    "Consider condensing your resume to focus on the most relevant and impactful information")
  const SkillsAdvice := Recommendation("Skills Section",
    "Add a dedicated skills section to highlight your technical and professional competencies")

  const Advice: seq<Recommendation> := [
    KeywordsAdvice, ActionVerbsAdvice, AchievementsAdvice, ContactAdvice,
    FormattingAdvice, ExpandAdvice, CondenseAdvice, SkillsAdvice]

  lemma AdviceCount()
    ensures |Advice| == 8
  {
  }

  /** The condition under which each entry of `Advice` is pushed. */
  function AdviceConditions(verbs: nat, skills: nat, wordCount: nat, s: Signals): (r: seq<bool>)
    ensures |r| == |Advice|
  {
    [skills < 3, verbs < 3, s.achievementMatches < 2, !s.hasEmail || !s.hasPhone,
     !s.hasBullets, wordCount < 200, wordCount > 1000, !s.hasSkillsHeading]
  }

  /** The list `generateRecommendations` returns. */
  function RecommendationsOf(verbs: nat, skills: nat, wordCount: nat, s: Signals): seq<Recommendation> {
    Select(Advice, AdviceConditions(verbs, skills, wordCount, s))
  }

  function Area(r: Recommendation): string {
    r.area
  }

  /** The `i`-th piece of advice is given exactly when its condition holds,
      and no area is advised on twice, so in particular there is at most one
      'Content Length' entry. */
  lemma RecommendationsMeaning(verbs: nat, skills: nat, wordCount: nat, s: Signals, i: nat)
    requires i < |Advice|
    ensures Advice[i] in RecommendationsOf(verbs, skills, wordCount, s) <==>
              AdviceConditions(verbs, skills, wordCount, s)[i]
    ensures forall j, k :: 0 <= j < k < |RecommendationsOf(verbs, skills, wordCount, s)| ==>
              RecommendationsOf(verbs, skills, wordCount, s)[j].area != RecommendationsOf(verbs, skills, wordCount, s)[k].area
  {
    var keep := AdviceConditions(verbs, skills, wordCount, s);
    forall j, k | 0 <= j < k < |Advice| && keep[j] && keep[k] ensures Area(Advice[j]) != Area(Advice[k]) {
      assert j == 0 || j == 1 || j == 2 || j == 3 || j == 4 || j == 5 || j == 6;
      assert k == 1 || k == 2 || k == 3 || k == 4 || k == 5 || k == 6 || k == 7;
    }
    SelectDistinctBy(Advice, keep, Area);
    if keep[i] {
      SelectKept(Advice, keep, i);
    }
    if Advice[i] in RecommendationsOf(verbs, skills, wordCount, s) {
      SelectOnlyKept(Advice, keep, Advice[i]);
      var j :| 0 <= j < |Advice| && keep[j] && Advice[j] == Advice[i];
      assert j == i by {
        assert Advice[j].suggestion == Advice[i].suggestion;
        assert i == 0 || i == 1 || i == 2 || i == 3 || i == 4 || i == 5 || i == 6 || i == 7;
        assert j == 0 || j == 1 || j == 2 || j == 3 || j == 4 || j == 5 || j == 6 || j == 7;
      }
    }
  }

  /** `generateRecommendations`. */
  method GenerateRecommendations(a: Analyzer, s: Signals, categories: seq<KeywordCategory>)
    returns (recommendations: seq<Recommendation>)
    ensures recommendations == RecommendationsOf(ActionVerbCount(a, categories), TechSkillCount(a, categories), |a.words|, s)
  {
    var techSkillsFound := TechSkillCount(a, categories);
    var actionVerbsFound := ActionVerbCount(a, categories);
    var wordCount := |a.words|;
    ghost var keep := AdviceConditions(actionVerbsFound, techSkillsFound, wordCount, s);
    ghost var advice := Advice;
    AdviceCount();
    recommendations := [];
    if techSkillsFound < 3 {
      recommendations := recommendations + [KeywordsAdvice];
    }
    if actionVerbsFound < 3 {
      recommendations := recommendations + [ActionVerbsAdvice];
    }
    if s.achievementMatches < 2 {
      recommendations := recommendations + [AchievementsAdvice];
    }
    if !s.hasEmail || !s.hasPhone {
      recommendations := recommendations + [ContactAdvice];
    }
    if !s.hasBullets {
      recommendations := recommendations + [FormattingAdvice];
    }
    if wordCount < 200 {
      recommendations := recommendations + [ExpandAdvice];
    } else if wordCount > 1000 {
      recommendations := recommendations + [CondenseAdvice];
    }
    if !s.hasSkillsHeading {
      recommendations := recommendations + [SkillsAdvice];
    }
    SelectEight(advice, keep);
  }

  /** `Math.round((matches / size) * 100)`. */
  function Percent(matches: nat, size: nat): (r: nat)
    requires 0 < size && matches <= size
    ensures r <= 100
  {
    FractionAtMostOne(matches, size);
    Round((matches as real / size as real) * 100.0)
  }

  /** The `reason` of a suggested role. */
  function MatchReason(percent: nat, matching: seq<string>): string {
    NatToString(percent) + "%"
    + (" keyword match - Strong alignment with required skills: " + Join(matching[..Min(3, |matching|)], ", "))
  }

  /** The suggestion pushed for a role. */
  function Suggestion(text: string, role: JobRole): JobSuggestion
    requires |role.keywords| > 0
  {
    var matching := Found(text, role.keywords);
    JobSuggestion(role.title, MatchReason(Percent(|matching|, |role.keywords|), matching))
  }

  predicate Qualifies(text: string, role: JobRole) {
    |Found(text, role.keywords)| >= role.requiredCount
  }

  predicate RolesListed(roles: seq<JobRole>) {
    forall i :: 0 <= i < |roles| ==> |roles[i].keywords| > 0
  }

  /** `suggestions` after the loop over the roles `roles`. */
  function Qualifying(text: string, roles: seq<JobRole>): seq<JobSuggestion>
    requires RolesListed(roles)
  {
    if roles == [] then []
    else
      var role := roles[|roles| - 1];
      Qualifying(text, roles[..|roles| - 1]) + (if Qualifies(text, role) then [Suggestion(text, role)] else [])
  }

  /** The sort key the comparator reads back from a reason, with `|| '0'`. */
  function PercentKey(j: JobSuggestion): int {
    match FirstPercent(j.reason)
    case Some(v) => v
    case None => 0
  }

  /** `suggestions.sort((a, b) => bMatch - aMatch)`, which `Array.prototype.sort`
      is required to perform stably. */
  function SortByPercent(s: seq<JobSuggestion>): seq<JobSuggestion> {
    SortDescending(s, PercentKey)
  }

  /** The key read back from a suggestion is the percentage written into it. */
  lemma SuggestionKey(text: string, role: JobRole)
    requires |role.keywords| > 0
    ensures PercentKey(Suggestion(text, role)) ==
              Percent(|Found(text, role.keywords)|, |role.keywords|)
  {
    var matching := Found(text, role.keywords);
    PercentRoundTrip(Percent(|matching|, |role.keywords|),
      " keyword match - Strong alignment with required skills: " + Join(matching[..Min(3, |matching|)], ", "));
  }

  const TechFallback: seq<JobSuggestion> := [
    JobSuggestion("Software Developer", "Technical skills present - consider highlighting programming experience"),
    JobSuggestion("IT Specialist", "Technology-related keywords found in resume"),
    JobSuggestion("Technical Analyst", "Analytical and technical skills indicated")]

  const GeneralFallback: seq<JobSuggestion> := [
    JobSuggestion("Project Coordinator", "Organizational and coordination skills suggested by resume content"),
    JobSuggestion("Business Analyst", "Professional experience indicates analytical capabilities"),
    JobSuggestion("Administrative Specialist", "Professional background suitable for administrative roles")]

  lemma JobRolesListed()
    ensures RolesListed(JobRoles)
  {
  }

  /** The list `suggestJobs` returns for the roles `roles`. */
  function JobsOf(a: Analyzer, cs: seq<KeywordCategory>, roles: seq<JobRole>): seq<JobSuggestion>
    requires RolesListed(roles)
  {
    var sorted := SortByPercent(Qualifying(a.normalizedText, roles));
    if sorted == [] then (if TechSkillCount(a, cs) > 0 then TechFallback else GeneralFallback)
    else sorted[..Min(5, |sorted|)]
  }

  /** `suggestJobs` over the roles `roles`. */
  method SuggestJobs(a: Analyzer, categories: seq<KeywordCategory>, roles: seq<JobRole>) returns (jobs: seq<JobSuggestion>)
    requires RolesListed(roles)
    ensures jobs == JobsOf(a, categories, roles)
  {
    var suggestions := [];
    for i := 0 to |roles|
      invariant suggestions == Qualifying(a.normalizedText, roles[..i])
    {
      var jobRole := roles[i];
      var matchingKeywords := Found(a.normalizedText, jobRole.keywords);
      assert roles[..i + 1][..i] == roles[..i];
      if |matchingKeywords| >= jobRole.requiredCount {
        var matchPercentage := Percent(|matchingKeywords|, |jobRole.keywords|);
        suggestions := suggestions + [JobSuggestion(jobRole.title, MatchReason(matchPercentage, matchingKeywords))];
      }
    }
    assert roles[..|roles|] == roles;
    suggestions := SortByPercent(suggestions);
    if |suggestions| == 0 {
      var techSkillsFound := TechSkillCount(a, categories);
      if techSkillsFound > 0 {
        suggestions := suggestions + TechFallback;
      } else {
        suggestions := suggestions + GeneralFallback;
      }
    }
    jobs := suggestions[..Min(5, |suggestions|)];
  }

  /** Every suggestion is made for a role with enough of its keywords
      present. */
  lemma {:induction false} QualifyingSound(text: string, roles: seq<JobRole>, j: JobSuggestion)
    requires RolesListed(roles) && j in Qualifying(text, roles)
    ensures exists i :: 0 <= i < |roles| && Qualifies(text, roles[i]) && j == Suggestion(text, roles[i])
  {
    var n := |roles| - 1;
    var init := roles[..n];
    if j in Qualifying(text, init) {
      QualifyingSound(text, init, j);
      var i :| 0 <= i < |init| && Qualifies(text, init[i]) && j == Suggestion(text, init[i]);
      assert roles[i] == init[i];
    }
  }

  /** A role with enough of its keywords present gets its suggestion. */
  lemma {:induction false} QualifyingComplete(text: string, roles: seq<JobRole>, i: nat)
    requires RolesListed(roles) && i < |roles| && Qualifies(text, roles[i])
    ensures Suggestion(text, roles[i]) in Qualifying(text, roles)
  {
    var n := |roles| - 1;
    if i < n {
      var init := roles[..n];
      assert init[i] == roles[i];
      QualifyingComplete(text, init, i);
    }
  }

  /** With some role qualifying, at most five suggestions come back, each
      for a qualifying role, ordered by descending percentage, and they are
      the first ones of the stable sort of all qualifying roles. With none
      qualifying, exactly three generic roles come back, chosen by whether
      any technical skill was found. */
  lemma SuggestJobsMeaning(a: Analyzer, cs: seq<KeywordCategory>, roles: seq<JobRole>, j: JobSuggestion)
    requires RolesListed(roles)
    ensures |JobsOf(a, cs, roles)| <= 5
    ensures Qualifying(a.normalizedText, roles) != [] ==>
              SortedDescending(JobsOf(a, cs, roles), PercentKey)
              && JobsOf(a, cs, roles) <= SortByPercent(Qualifying(a.normalizedText, roles))
              && |JobsOf(a, cs, roles)| == Min(5, |Qualifying(a.normalizedText, roles)|)
              && (j in JobsOf(a, cs, roles) ==> exists i :: 0 <= i < |roles| && Qualifies(a.normalizedText, roles[i])
                                                  && j == Suggestion(a.normalizedText, roles[i]))
    ensures Qualifying(a.normalizedText, roles) == [] ==>
              JobsOf(a, cs, roles) == (if TechSkillCount(a, cs) > 0 then TechFallback else GeneralFallback)
  {
    var q := Qualifying(a.normalizedText, roles);
    var sorted := SortByPercent(q);
    SortDescendingMeaning(q, PercentKey);
    assert |sorted| == |q| by {
      assert |multiset(sorted)| == |multiset(q)|;
    }
    if q != [] {
      assert sorted != [];
      var top := sorted[..Min(5, |sorted|)];
      assert SortedDescending(top, PercentKey) by {
        forall x, y | 0 <= x < y < |top| ensures PercentKey(top[x]) >= PercentKey(top[y]) {
          assert top[x] == sorted[x] && top[y] == sorted[y];
        }
      }
      if j in top {
        assert j in multiset(sorted);
        QualifyingSound(a.normalizedText, roles, j);
      }
    } else {
      assert sorted == [] by {
        assert |multiset(sorted)| == 0;
      }
    }
  }

  /** `analyze()` with the keyword categories `categories` and the roles
      `roles`; the regular-expression outcomes `s` are those of the
      analyzer's raw text. */
  method Analyze(a: Analyzer, s: Signals, categories: seq<KeywordCategory>, roles: seq<JobRole>)
    returns (result: AnalysisResult)
    requires Weighted(categories) && RolesListed(roles)
    ensures result.atsScore == Round(AtsRaw(a, s, categories))
    ensures 18 <= result.atsScore <= 100
    ensures result.strengths == StrengthsOf(ActionVerbCount(a, categories), TechSkillCount(a, categories), |a.words|, s)
    ensures result.recommendations ==
              RecommendationsOf(ActionVerbCount(a, categories), TechSkillCount(a, categories), |a.words|, s)
    ensures result.suggestedJobs == JobsOf(a, categories, roles)
  {
    var keywordScore := KeywordScore(a, categories);
    var formatScore := FormatScore(s);
    var contentScore := ContentScore(a, s, categories);
    var lengthScore := LengthScore(|a.words|);
    var atsScore := Round(keywordScore * 0.4 + formatScore as real * 0.25
                          + contentScore as real * 0.25 + lengthScore as real * 0.1);
    AtsScoreBounds(a, s, categories);
    var strengths := IdentifyStrengths(a, s, categories);
    var recommendations := GenerateRecommendations(a, s, categories);
    var suggestedJobs := SuggestJobs(a, categories, roles);
    result := AnalysisResult(Min(100, Max(0, atsScore)), strengths, recommendations, suggestedJobs);
  }

  /** The exported `analyzeResumeForATS` of this file, without its delay:
      the analyzer runs over `KEYWORD_CATEGORIES` and `COMMON_JOB_ROLES`. */
  method AnalyzeResume(resumeText: string, s: Signals) returns (result: AnalysisResult)
    ensures CategoriesListed(KeywordCategories) && RolesListed(JobRoles)
    ensures result.atsScore == Round(AtsRaw(NewAnalyzer(resumeText), s, KeywordCategories))
    ensures 18 <= result.atsScore <= 100
    ensures var a := NewAnalyzer(resumeText);
            result.strengths == StrengthsOf(|Found(a.normalizedText, ActionVerbs)|,
                                            |Found(a.normalizedText, TechnicalSkills)|, |a.words|, s)
            && result.recommendations == RecommendationsOf(|Found(a.normalizedText, ActionVerbs)|,
                                            |Found(a.normalizedText, TechnicalSkills)|, |a.words|, s)
            && result.suggestedJobs == JobsOf(a, KeywordCategories, JobRoles)
  {
    var analyzer := NewAnalyzer(resumeText);
    KeywordCategoriesWeighted();
    JobRolesListed();
    DefaultCounts(analyzer);
    result := Analyze(analyzer, s, KeywordCategories, JobRoles);
  }
}
