/** Which sections `ResumeTemplate` renders, in which order and in which
    column, and how many measurable items each contributes. Only the
    selection is modelled: markup, classes and colours are presentation. */
module ResumeLayout {
  import opened Common
  import opened Types

  /** `modern` and `creative` lay the page out in two columns. */
  predicate IsTwoColumn(t: TemplateOption) {
    t == Modern || t == Creative
  }

  /** `mainSections` of the two-column layout. */
  predicate IsMainSection(k: SectionKey) {
    k == ProfessionalSummary || k == WorkExperience || k == Education || k == Projects
  }

  /** `sideSections` of the two-column layout. */
  predicate IsSideSection(k: SectionKey) {
    k == Skills || k == Certifications
  }

  /** `renderSectionContent(key)` returns something: a summary needs
      non-empty text, a list section at least one entry. */
  predicate HasContent(d: ResumeData, k: SectionKey) {
    match k
    case ProfessionalSummary => d.professionalSummary != ""
    case WorkExperience => |d.workExperience| > 0
    case Education => |d.education| > 0
    case Skills => |d.skills| > 0
    case Projects => |d.projects| > 0
    case Certifications => |d.certifications| > 0
  }

  /** The number of `data-type="item"` units a rendered section holds: the
      summary and the joined skills line are one item each, every other
      list entry is an item of its own. */
  function RenderedItemCount(d: ResumeData, k: SectionKey): (n: nat)
    ensures n > 0 <==> HasContent(d, k)
    ensures k != ProfessionalSummary && k != Skills ==> n == |Items(d, k)|
    ensures k == ProfessionalSummary || k == Skills ==> n <= 1
  {
    match k
    case ProfessionalSummary => if d.professionalSummary != "" then 1 else 0
    case Skills => if |d.skills| > 0 then 1 else 0
    case WorkExperience => |d.workExperience|
    case Education => |d.education|
    case Projects => |d.projects|
    case Certifications => |d.certifications|
  }

  /** `sections[key]` as a filter predicate. */
  function Visible(state: ResumeState): SectionKey -> bool {
    (k: SectionKey) => IsVisible(state.sections, k)
  }

  /** `mainSections.includes(s) && sections[s]`. */
  function MainVisible(state: ResumeState): SectionKey -> bool {
    (k: SectionKey) => IsMainSection(k) && IsVisible(state.sections, k)
  }

  /** `sideSections.includes(s) && sections[s]`. */
  function SideVisible(state: ResumeState): SectionKey -> bool {
    (k: SectionKey) => IsSideSection(k) && IsVisible(state.sections, k)
  }

  /** `renderSectionContent(key)` is not null. */
  function Filled(state: ResumeState): SectionKey -> bool {
    (k: SectionKey) => HasContent(state.data, k)
  }

  /** Single-column body: `sectionOrder.filter(s => sections[s])`, each
      rendered only when it has content. */
  function SingleColumnSections(state: ResumeState): seq<SectionKey> {
    Filter(Filter(state.sectionOrder, Visible(state)), Filled(state))
  }

  /** Main column: `sectionOrder.filter(s => mainSections.includes(s) && sections[s])`, with content. */
  function MainColumnSections(state: ResumeState): seq<SectionKey> {
    Filter(Filter(state.sectionOrder, MainVisible(state)), Filled(state))
  }

  /** Side column (after the always-present Contact box): the same filter over `sideSections`. */
  function SideColumnSections(state: ResumeState): seq<SectionKey> {
    Filter(Filter(state.sectionOrder, SideVisible(state)), Filled(state))
  }

  /** The sections whose units the paginator measures: the whole body for a
      single-column template, only the main column for a two-column one. */
  function PaginatedSections(state: ResumeState): seq<SectionKey> {
    if IsTwoColumn(state.style.template) then MainColumnSections(state) else SingleColumnSections(state)
  }

  /** The non-empty contact details, in the order email, phone, location,
      LinkedIn, website (`[...].filter(Boolean)`). */
  function ContactDetails(p: PersonalInfo): (r: seq<string>)
    ensures forall i :: 0 <= i < |r| ==> r[i] != ""
  {
    Filter(ContactFields(p), (s: string) => s != "")
  }

  /** The five contact fields in the order the header lists them. */
  function ContactFields(p: PersonalInfo): seq<string> {
    [p.email, p.phone, p.location, p.linkedin, p.website]
  }

  /** The header lists exactly the non-empty contact fields, in field order,
      each as often as it occurs among the fields. */
  lemma ContactDetailsMeaning(p: PersonalInfo)
    ensures forall s :: s in ContactDetails(p) <==> s in ContactFields(p) && s != ""
    ensures IsSubsequence(ContactDetails(p), ContactFields(p))
    ensures forall s :: multiset(ContactDetails(p))[s] ==
                        if s != "" then multiset(ContactFields(p))[s] else 0
  {
    var keep := (s: string) => s != "";
    forall s ensures s in ContactDetails(p) <==> s in ContactFields(p) && s != "" {
      FilterMembership(ContactFields(p), keep, s);
    }
    FilterIsSubsequence(ContactFields(p), keep);
    forall s ensures multiset(ContactDetails(p))[s] == if s != "" then multiset(ContactFields(p))[s] else 0 {
      FilterMultiset(ContactFields(p), keep, s);
    }
  }

  /** A section is rendered by the single-column template exactly when it is
      in the order, visible and has content; the result keeps the relative
      order of `sectionOrder` and has no repeated key. */
  lemma SingleColumnSelection(state: ResumeState, k: SectionKey)
    requires NoDuplicates(state.sectionOrder)
    ensures k in SingleColumnSections(state) <==>
              k in state.sectionOrder && IsVisible(state.sections, k) && HasContent(state.data, k)
    ensures IsSubsequence(SingleColumnSections(state), state.sectionOrder)
    ensures NoDuplicates(SingleColumnSections(state))
  {
    var both := (j: SectionKey) => IsVisible(state.sections, j) && HasContent(state.data, j);
    FilterFilter(state.sectionOrder, Visible(state), Filled(state), both);
    FilterMembership(state.sectionOrder, both, k);
    FilterIsSubsequence(state.sectionOrder, both);
    FilterNoDuplicates(state.sectionOrder, both);
  }

  /** The main column of a two-column template is the single-column
      selection restricted to `mainSections`: a key is there exactly when it
      is a main key in the order, visible and with content, in the relative
      order of `sectionOrder` and without repeats. */
  lemma MainColumnSelection(state: ResumeState, k: SectionKey)
    requires NoDuplicates(state.sectionOrder)
    ensures MainColumnSections(state) == Filter(SingleColumnSections(state), IsMainSection)
    ensures k in MainColumnSections(state) <==>
              IsMainSection(k) && k in state.sectionOrder && IsVisible(state.sections, k) && HasContent(state.data, k)
    ensures IsSubsequence(MainColumnSections(state), state.sectionOrder)
    ensures NoDuplicates(MainColumnSections(state))
  {
    var order := state.sectionOrder;
    var single := (j: SectionKey) => IsVisible(state.sections, j) && HasContent(state.data, j);
    var main := (j: SectionKey) => IsMainSection(j) && IsVisible(state.sections, j) && HasContent(state.data, j);
    FilterFilter(order, Visible(state), Filled(state), single);
    FilterFilter(order, single, IsMainSection, main);
    FilterFilter(order, MainVisible(state), Filled(state), main);
    FilterMembership(order, main, k);
    FilterIsSubsequence(order, main);
    FilterNoDuplicates(order, main);
  }

  /** The side column likewise is the single-column selection restricted to
      `sideSections`. */
  lemma SideColumnSelection(state: ResumeState, k: SectionKey)
    requires NoDuplicates(state.sectionOrder)
    ensures SideColumnSections(state) == Filter(SingleColumnSections(state), IsSideSection)
    ensures k in SideColumnSections(state) <==>
              IsSideSection(k) && k in state.sectionOrder && IsVisible(state.sections, k) && HasContent(state.data, k)
    ensures IsSubsequence(SideColumnSections(state), state.sectionOrder)
    ensures NoDuplicates(SideColumnSections(state))
  {
    var order := state.sectionOrder;
    var single := (j: SectionKey) => IsVisible(state.sections, j) && HasContent(state.data, j);
    var side := (j: SectionKey) => IsSideSection(j) && IsVisible(state.sections, j) && HasContent(state.data, j);
    FilterFilter(order, Visible(state), Filled(state), single);
    FilterFilter(order, single, IsSideSection, side);
    FilterFilter(order, SideVisible(state), Filled(state), side);
    FilterMembership(order, side, k);
    FilterIsSubsequence(order, side);
    FilterNoDuplicates(order, side);
  }

  /** Switching between a one- and a two-column template neither loses nor
      duplicates a section: every section the single-column body renders is
      in exactly one of the two columns, and nothing else is. */
  lemma ColumnsPartitionBody(state: ResumeState, k: SectionKey)
    requires NoDuplicates(state.sectionOrder)
    ensures k in SingleColumnSections(state) <==> k in MainColumnSections(state) || k in SideColumnSections(state)
    ensures !(k in MainColumnSections(state) && k in SideColumnSections(state))
  {
    SingleColumnSelection(state, k);
    MainColumnSelection(state, k);
    SideColumnSelection(state, k);
  }

  /** A skills list whose entries all have blank names still renders one
      (empty) item, since the check is on the list's length, not on the
      joined names. */
  lemma BlankSkillsStillRender(state: ResumeState)
    requires |state.data.skills| > 0
    requires forall i :: 0 <= i < |state.data.skills| ==> state.data.skills[i] == SkillItem(state.data.skills[i].id, "")
    ensures RenderedItemCount(state.data, Skills) == 1
  {
  }
}
