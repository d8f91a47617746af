/** The records of `types.ts`: the resume document, its style, the section
    visibility flags and order, and the analysis result returned by both
    scorers. The per-section item shapes, which the source keys by a string
    section name, are one tagged datatype here, one constructor per section. */
module Types {

  /** The keys of `SectionVisibility`; `sectionOrder` is a sequence of them. */
  datatype SectionKey =
    | ProfessionalSummary | WorkExperience | Education | Skills | Projects | Certifications

  /** The five sections that hold lists of items (`ADD_ITEM` and friends only
      accept these). */
  type ItemSection = k: SectionKey | k != ProfessionalSummary witness WorkExperience

  /** The six keys, in which every `sectionOrder` must be a permutation. */
  const AllSectionKeys: seq<SectionKey> :=
    [ProfessionalSummary, WorkExperience, Education, Skills, Projects, Certifications]

  datatype TemplateOption = Professional | Creative | Modern | Minimalist
  datatype FontFamily = Inter | Roboto | Lato | Montserrat
  datatype ColorScheme = Blue | Purple | Green | Gray | Cyan | Pink

  datatype PersonalInfo = PersonalInfo(
    fullName: string, email: string, phone: string,
    location: string, linkedin: string, website: string)

  /** One item of one of the five list sections; every shape carries its `id`. */
  datatype Item =
    | WorkItem(id: string, jobTitle: string, company: string,
               startDate: string, endDate: string, description: string)
    | EducationItem(id: string, institution: string, degree: string,
                    startDate: string, endDate: string)
    | SkillItem(id: string, name: string)
    | ProjectItem(id: string, projectName: string, description: string,
                  link: string, technologies: string)
    | CertificationItem(id: string, name: string, organization: string,
                        about: string, date: string)

  datatype ResumeData = ResumeData(
    personalInfo: PersonalInfo,
    professionalSummary: string,
    workExperience: seq<Item>,
    education: seq<Item>,
    skills: seq<Item>,
    projects: seq<Item>,
    certifications: seq<Item>)

  /** `columnWidth`, `fontSize`, `rowGap` and `columnGap` are JavaScript
      numbers; they are only stored and, for `rowGap`, scaled by 16. */
  datatype ResumeStyle = ResumeStyle(
    template: TemplateOption,
    fontFamily: FontFamily,
    colorScheme: ColorScheme,
    columnWidth: real,
    fontSize: real,
    rowGap: real,
    columnGap: real)

  datatype SectionVisibility = SectionVisibility(
    professionalSummary: bool, workExperience: bool, education: bool,
    skills: bool, projects: bool, certifications: bool)

  datatype ResumeState = ResumeState(
    data: ResumeData,
    style: ResumeStyle,
    sections: SectionVisibility,
    sectionOrder: seq<SectionKey>)

  /** The list held by one of the five item sections. */
  function Items(d: ResumeData, s: ItemSection): seq<Item> {
    match s
    case WorkExperience => d.workExperience
    case Education => d.education
    case Skills => d.skills
    case Projects => d.projects
    case Certifications => d.certifications
  }

  /** `{ ...data, [section]: items }`. */
  function WithItems(d: ResumeData, s: ItemSection, items: seq<Item>): (r: ResumeData)
    ensures Items(r, s) == items
    ensures forall k: ItemSection :: k != s ==> Items(r, k) == Items(d, k)
    ensures r.personalInfo == d.personalInfo && r.professionalSummary == d.professionalSummary
  {
    match s
    case WorkExperience => d.(workExperience := items)
    case Education => d.(education := items)
    case Skills => d.(skills := items)
    case Projects => d.(projects := items)
    case Certifications => d.(certifications := items)
  }

  /** `sections[key]`. */
  function IsVisible(v: SectionVisibility, k: SectionKey): bool {
    match k
    case ProfessionalSummary => v.professionalSummary
    case WorkExperience => v.workExperience
    case Education => v.education
    case Skills => v.skills
    case Projects => v.projects
    case Certifications => v.certifications
  }

  /** An item has the shape of the section that holds it. */
  predicate ItemFits(s: ItemSection, it: Item) {
    match s
    case WorkExperience => it.WorkItem?
    case Education => it.EducationItem?
    case Skills => it.SkillItem?
    case Projects => it.ProjectItem?
    case Certifications => it.CertificationItem?
  }

  predicate WellShaped(d: ResumeData) {
    forall s: ItemSection, i :: 0 <= i < |Items(d, s)| ==> ItemFits(s, Items(d, s)[i])
  }

  /** The result of both scorers (`AnalysisResult`). */
  datatype Recommendation = Recommendation(area: string, suggestion: string)
  datatype JobSuggestion = JobSuggestion(title: string, reason: string)
  datatype AnalysisResult = AnalysisResult(
    atsScore: int,
    strengths: seq<string>,
    recommendations: seq<Recommendation>,
    suggestedJobs: seq<JobSuggestion>)
}
