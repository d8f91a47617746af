/** The editor state of the resume builder: `initialState` and the closed
    set of transitions of `resumeReducer`. Every transition is a pure
    function from the old state to a new one; the lemmas below state what
    each changes and what it leaves alone. */
module ResumeReducer {
  import opened Common
  import opened Types

  const DefaultSectionOrder: seq<SectionKey> :=
    [ProfessionalSummary, WorkExperience, Education, Projects, Skills, Certifications]

  const InitialState: ResumeState := ResumeState(
    ResumeData(PersonalInfo("", "", "", "", "", ""), "", [], [], [], [], []),
    ResumeStyle(Professional, Inter, Blue, 33.0, 10.0, 1.2, 1.5),
    SectionVisibility(true, true, true, true, true, true),
    DefaultSectionOrder)

  datatype PersonalField = FullName | Email | Phone | Location | LinkedIn | Website

  /** The field names the form sends with `UPDATE_ITEM`. */
  datatype ItemField =
    | JobTitle | Company | StartDate | EndDate | Description | Institution | Degree
    | Name | ProjectName | Link | Technologies | Organization | About | Date

  /** `UPDATE_STYLE`: a style field together with a value of that field's type. */
  datatype StyleUpdate =
    | SetTemplate(template: TemplateOption)
    | SetFontFamily(fontFamily: FontFamily)
    | SetColorScheme(colorScheme: ColorScheme)
    | SetColumnWidth(columnWidth: real)
    | SetFontSize(fontSize: real)
    | SetRowGap(rowGap: real)
    | SetColumnGap(columnGap: real)

  /** A saved snapshot as `LOAD_STATE` receives it; `sectionOrder` may be
      missing from snapshots written before it existed. */
  datatype Snapshot = Snapshot(
    data: ResumeData,
    style: ResumeStyle,
    sections: SectionVisibility,
    sectionOrder: Option<seq<SectionKey>>)

  /** `ADD_ITEM` gets its `id` from the clock (`new Date().getTime().toString()`);
      here the caller supplies it. */
  datatype Action =
    | LoadState(payload: Snapshot)
    | UpdatePersonal(personalField: PersonalField, value: string)
    | UpdateSummary(summary: string)
    | AddItem(section: ItemSection, id: string)
    | UpdateItem(section: ItemSection, id: string, itemField: ItemField, value: string)
    | RemoveItem(section: ItemSection, id: string)
    | ToggleSection(key: SectionKey)
    | UpdateStyle(update: StyleUpdate)
    | ReorderSections(sourceIndex: int, destinationIndex: int)

  // ---------------------------------------------------------------- fields

  function PersonalValue(p: PersonalInfo, f: PersonalField): string {
    match f
    case FullName => p.fullName
    case Email => p.email
    case Phone => p.phone
    case Location => p.location
    case LinkedIn => p.linkedin
    case Website => p.website
  }

  /** `{ ...personalInfo, [field]: value }`. */
  function SetPersonal(p: PersonalInfo, f: PersonalField, v: string): PersonalInfo {
    match f
    case FullName => p.(fullName := v)
    case Email => p.(email := v)
    case Phone => p.(phone := v)
    case Location => p.(location := v)
    case LinkedIn => p.(linkedin := v)
    case Website => p.(website := v)
  }

  /** The value of a named field of an item, if the item's shape has it. */
  function FieldValue(it: Item, f: ItemField): Option<string> {
    match (it, f)
    case (WorkItem(_, t, _, _, _, _), JobTitle) => Some(t)
    case (WorkItem(_, _, c, _, _, _), Company) => Some(c)
    case (WorkItem(_, _, _, s, _, _), StartDate) => Some(s)
    case (WorkItem(_, _, _, _, e, _), EndDate) => Some(e)
    case (WorkItem(_, _, _, _, _, d), Description) => Some(d)
    case (EducationItem(_, i, _, _, _), Institution) => Some(i)
    case (EducationItem(_, _, d, _, _), Degree) => Some(d)
    case (EducationItem(_, _, _, s, _), StartDate) => Some(s)
    case (EducationItem(_, _, _, _, e), EndDate) => Some(e)
    case (SkillItem(_, n), Name) => Some(n)
    case (ProjectItem(_, n, _, _, _), ProjectName) => Some(n)
    case (ProjectItem(_, _, d, _, _), Description) => Some(d)
    case (ProjectItem(_, _, _, l, _), Link) => Some(l)
    case (ProjectItem(_, _, _, _, t), Technologies) => Some(t)
    case (CertificationItem(_, n, _, _, _), Name) => Some(n)
    case (CertificationItem(_, _, o, _, _), Organization) => Some(o)
    case (CertificationItem(_, _, _, a, _), About) => Some(a)
    case (CertificationItem(_, _, _, _, d), Date) => Some(d)
    case _ => None
  }

  /** `{ ...item, [field]: value }` for a field of the item's shape; a field
      the shape does not have leaves the item as it is. */
  function SetField(it: Item, f: ItemField, v: string): Item {
    match (it, f)
    case (WorkItem(i, t, c, b, e, d), JobTitle) => WorkItem(i, v, c, b, e, d)
    case (WorkItem(i, t, c, b, e, d), Company) => WorkItem(i, t, v, b, e, d)
    case (WorkItem(i, t, c, b, e, d), StartDate) => WorkItem(i, t, c, v, e, d)
    case (WorkItem(i, t, c, b, e, d), EndDate) => WorkItem(i, t, c, b, v, d)
    case (WorkItem(i, t, c, b, e, d), Description) => WorkItem(i, t, c, b, e, v)
    case (EducationItem(i, n, g, b, e), Institution) => EducationItem(i, v, g, b, e)
    case (EducationItem(i, n, g, b, e), Degree) => EducationItem(i, n, v, b, e)
    case (EducationItem(i, n, g, b, e), StartDate) => EducationItem(i, n, g, v, e)
    case (EducationItem(i, n, g, b, e), EndDate) => EducationItem(i, n, g, b, v)
    case (SkillItem(i, n), Name) => SkillItem(i, v)
    case (ProjectItem(i, n, d, l, t), ProjectName) => ProjectItem(i, v, d, l, t)
    case (ProjectItem(i, n, d, l, t), Description) => ProjectItem(i, n, v, l, t)
    case (ProjectItem(i, n, d, l, t), Link) => ProjectItem(i, n, d, v, t)
    case (ProjectItem(i, n, d, l, t), Technologies) => ProjectItem(i, n, d, l, v)
    case (CertificationItem(i, n, o, a, d), Name) => CertificationItem(i, v, o, a, d)
    case (CertificationItem(i, n, o, a, d), Organization) => CertificationItem(i, n, v, a, d)
    case (CertificationItem(i, n, o, a, d), About) => CertificationItem(i, n, o, v, d)
    case (CertificationItem(i, n, o, a, d), Date) => CertificationItem(i, n, o, a, v)
    case _ => it
  }

  /** Setting a field changes that field only: the id, the shape and every
      other field stay as they were. */
  lemma SetFieldOnlyTarget(it: Item, f: ItemField, v: string)
    ensures SetField(it, f, v).id == it.id
    ensures ItemKind(SetField(it, f, v)) == ItemKind(it)
    ensures FieldValue(it, f).Some? ==> FieldValue(SetField(it, f, v), f) == Some(v)
    ensures FieldValue(it, f).None? ==> SetField(it, f, v) == it
    ensures forall g :: g != f ==> FieldValue(SetField(it, f, v), g) == FieldValue(it, g)
  {
  }

  function ItemKind(it: Item): ItemSection {
    match it
    case WorkItem(_, _, _, _, _, _) => WorkExperience
    case EducationItem(_, _, _, _, _) => Education
    case SkillItem(_, _) => Skills
    case ProjectItem(_, _, _, _, _) => Projects
    case CertificationItem(_, _, _, _, _) => Certifications
  }

  /** The empty item `ADD_ITEM` appends to a section. */
  function NewItem(s: ItemSection, id: string): (it: Item)
    ensures it.id == id && ItemFits(s, it) && ItemKind(it) == s
    ensures forall f :: FieldValue(it, f).Some? ==> FieldValue(it, f) == Some("")
  {
    match s
    case WorkExperience => WorkItem(id, "", "", "", "", "")
    case Education => EducationItem(id, "", "", "", "")
    case Skills => SkillItem(id, "")
    case Projects => ProjectItem(id, "", "", "", "")
    case Certifications => CertificationItem(id, "", "", "", "")
  }

  function Ids(items: seq<Item>): seq<string> {
    if items == [] then [] else [items[0].id] + Ids(items[1..])
  }

  function ApplyStyle(st: ResumeStyle, u: StyleUpdate): ResumeStyle {
    match u
    case SetTemplate(t) => st.(template := t)
    case SetFontFamily(f) => st.(fontFamily := f)
    case SetColorScheme(c) => st.(colorScheme := c)
    case SetColumnWidth(w) => st.(columnWidth := w)
    case SetFontSize(z) => st.(fontSize := z)
    case SetRowGap(g) => st.(rowGap := g)
    case SetColumnGap(g) => st.(columnGap := g)
  }

  function Toggle(v: SectionVisibility, k: SectionKey): SectionVisibility {
    match k
    case ProfessionalSummary => v.(professionalSummary := !v.professionalSummary)
    case WorkExperience => v.(workExperience := !v.workExperience)
    case Education => v.(education := !v.education)
    case Skills => v.(skills := !v.skills)
    case Projects => v.(projects := !v.projects)
    case Certifications => v.(certifications := !v.certifications)
  }

  // --------------------------------------------------------------- reorder

  /** `splice(source, 1)` on a copy followed by `splice(destination, 0, moved)`. */
  function Move<T>(s: seq<T>, source: nat, destination: nat): (r: seq<T>)
    requires source < |s| && destination < |s|
    ensures |r| == |s| && r[destination] == s[source]
    ensures multiset(r) == multiset(s)
  {
    var rest := s[..source] + s[source + 1..];
    assert s == s[..source] + [s[source]] + s[source + 1..];
    assert rest == rest[..destination] + rest[destination..];
    assert multiset(s) == multiset(rest) + multiset{s[source]};
    rest[..destination] + [s[source]] + rest[destination..]
  }

  /** Moving back from the destination to the source undoes a move. */
  lemma MoveInverse<T>(s: seq<T>, source: nat, destination: nat)
    requires source < |s| && destination < |s|
    ensures Move(Move(s, source, destination), destination, source) == s
  {
    var m := Move(s, source, destination);
    var x := s[source];
    var rest := s[..source] + s[source + 1..];
    assert m == rest[..destination] + [x] + rest[destination..];
    assert m[..destination] == rest[..destination];
    assert m[destination + 1..] == rest[destination..];
    assert m[..destination] + m[destination + 1..] == rest by {
      assert rest == rest[..destination] + rest[destination..];
    }
    assert m[destination] == x;
    assert rest[..source] == s[..source];
    assert rest[source..] == s[source + 1..];
    assert Move(m, destination, source) == rest[..source] + [x] + rest[source..];
    assert s == s[..source] + [x] + s[source + 1..];
  }

  /** The elements strictly between the two positions shift by one towards
      the source; the others keep their places. */
  lemma MoveShifts<T>(s: seq<T>, source: nat, destination: nat, k: nat)
    requires source < |s| && destination < |s| && k < |s|
    ensures source <= destination && source <= k < destination ==> Move(s, source, destination)[k] == s[k + 1]
    ensures destination <= source && destination < k <= source ==> Move(s, source, destination)[k] == s[k - 1]
    ensures k < source && k < destination ==> Move(s, source, destination)[k] == s[k]
    ensures k > source && k > destination ==> Move(s, source, destination)[k] == s[k]
  {
  }

  // --------------------------------------------------------------- reducer

  predicate Applicable(state: ResumeState, a: Action) {
    a.ReorderSections? ==>
      0 <= a.sourceIndex < |state.sectionOrder| && 0 <= a.destinationIndex < |state.sectionOrder|
  }

  /** `resumeReducer(state, action)`. */
  function Reduce(state: ResumeState, a: Action): (r: ResumeState)
    requires Applicable(state, a)
    ensures !a.LoadState? && !a.ReorderSections? ==> r.sectionOrder == state.sectionOrder
    ensures !a.LoadState? ==> multiset(r.sectionOrder) == multiset(state.sectionOrder)
    ensures !a.LoadState? && !a.ToggleSection? ==> r.sections == state.sections
    ensures !a.LoadState? && !a.UpdateStyle? ==> r.style == state.style
    ensures a.ToggleSection? || a.UpdateStyle? || a.ReorderSections? ==> r.data == state.data
  {
    match a
    case LoadState(p) =>
      ResumeState(p.data, p.style, p.sections,
                  if p.sectionOrder.Some? then p.sectionOrder.value else InitialState.sectionOrder)
    case UpdatePersonal(f, v) =>
      state.(data := state.data.(personalInfo := SetPersonal(state.data.personalInfo, f, v)))
    case UpdateSummary(text) =>
      state.(data := state.data.(professionalSummary := text))
    case AddItem(s, id) =>
      state.(data := WithItems(state.data, s, Items(state.data, s) + [NewItem(s, id)]))
    case UpdateItem(s, id, f, v) =>
      state.(data := WithItems(state.data, s,
               seq(|Items(state.data, s)|, i requires 0 <= i < |Items(state.data, s)| =>
                 var it := Items(state.data, s)[i]; if it.id == id then SetField(it, f, v) else it)))
    case RemoveItem(s, id) =>
      state.(data := WithItems(state.data, s, Filter(Items(state.data, s), (it: Item) => it.id != id)))
    case ToggleSection(k) =>
      state.(sections := Toggle(state.sections, k))
    case UpdateStyle(u) =>
      state.(style := ApplyStyle(state.style, u))
    case ReorderSections(src, dst) =>
      state.(sectionOrder := Move(state.sectionOrder, src, dst))
  }

  /** Two data records agree on everything except the list of section `s`. */
  predicate SameExcept(d: ResumeData, e: ResumeData, s: ItemSection) {
    && d.personalInfo == e.personalInfo
    && d.professionalSummary == e.professionalSummary
    && forall k: ItemSection :: k != s ==> Items(d, k) == Items(e, k)
  }

  /** ADD_ITEM appends exactly one empty item of the section's shape, with
      the given id, to the end of that section and changes nothing else. */
  lemma AddItemAppends(state: ResumeState, s: ItemSection, id: string)
    ensures var r := Reduce(state, AddItem(s, id));
      && Items(r.data, s) == Items(state.data, s) + [NewItem(s, id)]
      && |Items(r.data, s)| == |Items(state.data, s)| + 1
      && SameExcept(r.data, state.data, s)
      && r.style == state.style && r.sections == state.sections
      && r.sectionOrder == state.sectionOrder
  {
  }

  /** REMOVE_ITEM keeps, in order, exactly the items of the section whose id
      differs, every copy of them, and changes nothing else. */
  lemma RemoveItemKeepsOthers(state: ResumeState, s: ItemSection, id: string)
    ensures var r := Reduce(state, RemoveItem(s, id));
      && IsSubsequence(Items(r.data, s), Items(state.data, s))
      && (forall it :: it in Items(r.data, s) <==> it in Items(state.data, s) && it.id != id)
      && (forall it :: multiset(Items(r.data, s))[it] == if it.id != id then multiset(Items(state.data, s))[it] else 0)
      && SameExcept(r.data, state.data, s)
      && r.style == state.style && r.sections == state.sections
      && r.sectionOrder == state.sectionOrder
  {
    var r := Reduce(state, RemoveItem(s, id));
    assert Items(r.data, s) == Filter(Items(state.data, s), (it: Item) => it.id != id);
    KeepOthers(Items(state.data, s), id);
  }

  /** What `items.filter(it => it.id !== id)` keeps: a subsequence holding
      every copy of every item whose id differs, and nothing else. */
  lemma KeepOthers(items: seq<Item>, id: string)
    ensures var kept := Filter(items, (it: Item) => it.id != id);
      && IsSubsequence(kept, items)
      && (forall it :: it in kept <==> it in items && it.id != id)
      && (forall it :: multiset(kept)[it] == if it.id != id then multiset(items)[it] else 0)
  {
    var p := (it: Item) => it.id != id;
    FilterIsSubsequence(items, p);
    forall it ensures it in Filter(items, p) <==> it in items && it.id != id {
      FilterMembership(items, p, it);
    }
    forall it ensures multiset(Filter(items, p))[it] == if it.id != id then multiset(items)[it] else 0 {
      FilterMultiset(items, p, it);
    }
  }

  lemma {:induction false} FilterAllPass(items: seq<Item>, id: string)
    requires id !in Ids(items)
    ensures Filter(items, (it: Item) => it.id != id) == items
  {
    if items != [] {
      FilterAllPass(items[1..], id);
    }
  }

  /** ADD_ITEM with a fresh id followed by REMOVE_ITEM of that id gives back
      the state it started from. */
  lemma AddThenRemoveRestores(state: ResumeState, s: ItemSection, id: string)
    requires id !in Ids(Items(state.data, s))
    ensures Reduce(Reduce(state, AddItem(s, id)), RemoveItem(s, id)) == state
  {
    var p := (it: Item) => it.id != id;
    var added := Reduce(state, AddItem(s, id));
    FilterConcat(Items(state.data, s), [NewItem(s, id)], p);
    FilterAllPass(Items(state.data, s), id);
    assert Filter([NewItem(s, id)], p) == [];
    var r := Reduce(added, RemoveItem(s, id));
    assert Items(r.data, s) == Items(state.data, s);
    assert r.data == state.data by {
      forall k: ItemSection ensures Items(r.data, k) == Items(state.data, k) { }
      match s
      case WorkExperience =>
      case Education =>
      case Skills =>
      case Projects =>
      case Certifications =>
    }
  }

  /** Without the freshness condition the round trip fails: when an item
      of the section already has the id (two timestamps can coincide), the
      removal takes it too, so the list comes back shorter and holds no item
      with that id. */
  lemma AddThenRemoveCollision(state: ResumeState, s: ItemSection, id: string)
    requires id in Ids(Items(state.data, s))
    ensures var r := Reduce(Reduce(state, AddItem(s, id)), RemoveItem(s, id));
      && id !in Ids(Items(r.data, s))
      && |Items(r.data, s)| < |Items(state.data, s)|
      && r != state
  {
    var p := (it: Item) => it.id != id;
    var before := Items(state.data, s);
    var added := NewItem(s, id);
    FilterConcat(before, [added], p);
    assert [added][1..] == [];
    assert Filter([added], p) == [];
    var r := Reduce(Reduce(state, AddItem(s, id)), RemoveItem(s, id));
    assert Items(r.data, s) == Filter(before, p);
    IdsMembership(before, id);
    var i :| 0 <= i < |before| && before[i].id == id;
    FilterDropsShorter(before, p, i);
    IdsMembership(Items(r.data, s), id);
  }

  /** An id is listed exactly when some item carries it. */
  lemma {:induction false} IdsMembership(items: seq<Item>, id: string)
    ensures id in Ids(items) <==> exists i :: 0 <= i < |items| && items[i].id == id
  {
    if items != [] {
      IdsMembership(items[1..], id);
      if id in Ids(items) && items[0].id != id {
        var j :| 0 <= j < |items[1..]| && items[1..][j].id == id;
        assert items[j + 1].id == id;
      }
      if (exists i :: 0 <= i < |items| && items[i].id == id) && items[0].id != id {
        var i :| 0 <= i < |items| && items[i].id == id;
        assert items[1..][i - 1].id == id;
      }
    }
  }

  /** UPDATE_ITEM keeps the section's length, order and ids, sets `field`
      to the value on the items with a matching id and on them only, and
      changes nothing else. */
  lemma UpdateItemOnlyTarget(state: ResumeState, s: ItemSection, id: string, f: ItemField, v: string)
    ensures var r := Reduce(state, UpdateItem(s, id, f, v));
      && |Items(r.data, s)| == |Items(state.data, s)|
      && Ids(Items(r.data, s)) == Ids(Items(state.data, s))
      && (forall i :: 0 <= i < |Items(state.data, s)| ==>
            && (Items(state.data, s)[i].id != id ==> Items(r.data, s)[i] == Items(state.data, s)[i])
            && (Items(state.data, s)[i].id == id ==>
                  && Items(r.data, s)[i] == SetField(Items(state.data, s)[i], f, v)
                  && (FieldValue(Items(state.data, s)[i], f).Some? ==> FieldValue(Items(r.data, s)[i], f) == Some(v))
                  && forall g :: g != f ==> FieldValue(Items(r.data, s)[i], g) == FieldValue(Items(state.data, s)[i], g)))
      && SameExcept(r.data, state.data, s)
      && r.style == state.style && r.sections == state.sections
      && r.sectionOrder == state.sectionOrder
  {
    var r := Reduce(state, UpdateItem(s, id, f, v));
    var before, after := Items(state.data, s), Items(r.data, s);
    forall i | 0 <= i < |before| && before[i].id == id
      ensures after[i].id == before[i].id
      ensures FieldValue(before[i], f).Some? ==> FieldValue(after[i], f) == Some(v)
      ensures forall g :: g != f ==> FieldValue(after[i], g) == FieldValue(before[i], g)
    {
      SetFieldOnlyTarget(before[i], f, v);
    }
    IdsPointwise(before, after);
  }

  lemma {:induction false} IdsPointwise(a: seq<Item>, b: seq<Item>)
    requires |a| == |b| && forall i :: 0 <= i < |a| ==> a[i].id == b[i].id
    ensures Ids(a) == Ids(b)
  {
    if a != [] {
      IdsPointwise(a[1..], b[1..]);
    }
  }

  /** UPDATE_PERSONAL sets one contact field and keeps all else. */
  lemma UpdatePersonalOnlyTarget(state: ResumeState, f: PersonalField, v: string)
    ensures var r := Reduce(state, UpdatePersonal(f, v));
      && PersonalValue(r.data.personalInfo, f) == v
      && (forall g :: g != f ==> PersonalValue(r.data.personalInfo, g) == PersonalValue(state.data.personalInfo, g))
      && r.data.professionalSummary == state.data.professionalSummary
      && (forall k: ItemSection :: Items(r.data, k) == Items(state.data, k))
      && r.style == state.style && r.sections == state.sections && r.sectionOrder == state.sectionOrder
  {
  }

  /** UPDATE_SUMMARY replaces the summary and keeps all else. */
  lemma UpdateSummaryOnlyTarget(state: ResumeState, text: string)
    ensures var r := Reduce(state, UpdateSummary(text));
      && r.data.professionalSummary == text
      && r.data.personalInfo == state.data.personalInfo
      && (forall k: ItemSection :: Items(r.data, k) == Items(state.data, k))
      && r.style == state.style && r.sections == state.sections && r.sectionOrder == state.sectionOrder
  {
  }

  /** UPDATE_STYLE changes the one style field it names. */
  lemma UpdateStyleOnlyTarget(state: ResumeState, u: StyleUpdate)
    ensures var r := Reduce(state, UpdateStyle(u));
      && r.data == state.data && r.sections == state.sections && r.sectionOrder == state.sectionOrder
      && (u.SetTemplate? ==> r.style.template == u.template)
      && (u.SetFontFamily? ==> r.style.fontFamily == u.fontFamily)
      && (u.SetColorScheme? ==> r.style.colorScheme == u.colorScheme)
      && (u.SetColumnWidth? ==> r.style.columnWidth == u.columnWidth)
      && (u.SetFontSize? ==> r.style.fontSize == u.fontSize)
      && (u.SetRowGap? ==> r.style.rowGap == u.rowGap)
      && (u.SetColumnGap? ==> r.style.columnGap == u.columnGap)
      && (!u.SetTemplate? ==> r.style.template == state.style.template)
      && (!u.SetFontFamily? ==> r.style.fontFamily == state.style.fontFamily)
      && (!u.SetColorScheme? ==> r.style.colorScheme == state.style.colorScheme)
      && (!u.SetColumnWidth? ==> r.style.columnWidth == state.style.columnWidth)
      && (!u.SetFontSize? ==> r.style.fontSize == state.style.fontSize)
      && (!u.SetRowGap? ==> r.style.rowGap == state.style.rowGap)
      && (!u.SetColumnGap? ==> r.style.columnGap == state.style.columnGap)
  {
  }

  /** TOGGLE_SECTION negates one flag; toggling the same key twice is the identity. */
  lemma ToggleSectionNegatesOne(state: ResumeState, k: SectionKey)
    ensures var r := Reduce(state, ToggleSection(k));
      && IsVisible(r.sections, k) == !IsVisible(state.sections, k)
      && (forall j :: j != k ==> IsVisible(r.sections, j) == IsVisible(state.sections, j))
      && r.data == state.data && r.style == state.style && r.sectionOrder == state.sectionOrder
      && Reduce(r, ToggleSection(k)) == state
  {
  }

  /** LOAD_STATE replaces the whole state; a snapshot without an order gets
      the default one. */
  lemma LoadStateReplaces(state: ResumeState, p: Snapshot)
    ensures var r := Reduce(state, LoadState(p));
      && r.data == p.data && r.style == p.style && r.sections == p.sections
      && (p.sectionOrder.None? ==> r.sectionOrder == DefaultSectionOrder)
      && (p.sectionOrder.Some? ==> r.sectionOrder == p.sectionOrder.value)
  {
  }

  /** REORDER_SECTIONS keeps the length and the multiset of keys, and puts
      the key from the source index at the destination index. */
  lemma ReorderIsMove(state: ResumeState, src: int, dst: int)
    requires 0 <= src < |state.sectionOrder| && 0 <= dst < |state.sectionOrder|
    ensures var r := Reduce(state, ReorderSections(src, dst));
      && |r.sectionOrder| == |state.sectionOrder|
      && multiset(r.sectionOrder) == multiset(state.sectionOrder)
      && r.sectionOrder[dst] == state.sectionOrder[src]
      && r.data == state.data && r.style == state.style && r.sections == state.sections
  {
  }

  // ------------------------------------------------------------ invariant

  /** `sectionOrder` is a permutation of the six section keys. */
  predicate IsKeyPermutation(order: seq<SectionKey>) {
    |order| == |AllSectionKeys| && NoDuplicates(order) && forall k: SectionKey :: k in order
  }

  predicate Valid(state: ResumeState) {
    IsKeyPermutation(state.sectionOrder) && WellShaped(state.data)
  }

  predicate ValidSnapshot(p: Snapshot) {
    WellShaped(p.data) && (p.sectionOrder.Some? ==> IsKeyPermutation(p.sectionOrder.value))
  }

  lemma DefaultOrderIsPermutation()
    ensures IsKeyPermutation(DefaultSectionOrder)
  {
    forall k: SectionKey ensures k in DefaultSectionOrder {
      match k
      case ProfessionalSummary => assert DefaultSectionOrder[0] == k;
      case WorkExperience => assert DefaultSectionOrder[1] == k;
      case Education => assert DefaultSectionOrder[2] == k;
      case Projects => assert DefaultSectionOrder[3] == k;
      case Skills => assert DefaultSectionOrder[4] == k;
      case Certifications => assert DefaultSectionOrder[5] == k;
    }
  }

  lemma {:induction false} NoDuplicatesByMultiset<T>(a: seq<T>, b: seq<T>)
    requires multiset(a) == multiset(b) && NoDuplicates(b)
    ensures NoDuplicates(a)
  {
    forall i, j | 0 <= i < j < |a| ensures a[i] != a[j] {
      if a[i] == a[j] {
        var x := a[i];
        assert multiset(a)[x] >= 2 by {
          assert a == a[..i] + [a[i]] + a[i + 1..j] + [a[j]] + a[j + 1..];
        }
        MultiplicityAtMostOne(b, x);
        assert false;
      }
    }
  }

  lemma {:induction false} MultiplicityAtMostOne<T>(s: seq<T>, x: T)
    requires NoDuplicates(s)
    ensures multiset(s)[x] <= 1
  {
    if s != [] {
      assert s == [s[0]] + s[1..];
      assert NoDuplicates(s[1..]) by {
        forall i, j | 0 <= i < j < |s[1..]| ensures s[1..][i] != s[1..][j] {
          assert s[1..][i] == s[i + 1] && s[1..][j] == s[j + 1];
        }
      }
      MultiplicityAtMostOne(s[1..], x);
      if s[0] == x {
        assert x !in s[1..];
      }
    }
  }

  /** Every transition keeps the order a permutation of the six keys and
      every item in the section of its shape (a loaded snapshot must itself
      be valid). */
  lemma {:induction false} ReducePreservesValid(state: ResumeState, a: Action)
    requires Valid(state) && Applicable(state, a)
    requires a.LoadState? ==> ValidSnapshot(a.payload)
    ensures Valid(Reduce(state, a))
  {
    var r := Reduce(state, a);
    match a
    case LoadState(p) =>
      if p.sectionOrder.None? { DefaultOrderIsPermutation(); }
    case UpdatePersonal(_, _) =>
      assert forall k: ItemSection :: Items(r.data, k) == Items(state.data, k);
    case UpdateSummary(_) =>
      assert forall k: ItemSection :: Items(r.data, k) == Items(state.data, k);
    case AddItem(s, id) => AddItemKeepsShape(state, s, id);
    case UpdateItem(s, id, f, v) => UpdateItemKeepsShape(state, s, id, f, v);
    case RemoveItem(s, id) => RemoveItemKeepsShape(state, s, id);
    case ToggleSection(_) =>
    case UpdateStyle(_) =>
    case ReorderSections(src, dst) =>
      NoDuplicatesByMultiset(r.sectionOrder, state.sectionOrder);
      forall k: SectionKey ensures k in r.sectionOrder {
        assert k in state.sectionOrder;
        assert multiset(r.sectionOrder) == multiset(state.sectionOrder);
        assert k in multiset(r.sectionOrder);
      }
  }

  lemma AddItemKeepsShape(state: ResumeState, s: ItemSection, id: string)
    requires WellShaped(state.data)
    ensures WellShaped(Reduce(state, AddItem(s, id)).data)
  {
    var r := Reduce(state, AddItem(s, id));
    forall k: ItemSection, i | 0 <= i < |Items(r.data, k)| ensures ItemFits(k, Items(r.data, k)[i]) {
      if k == s && i == |Items(state.data, s)| {
      } else {
        assert Items(r.data, k)[i] == Items(state.data, k)[i];
      }
    }
  }

  lemma UpdateItemKeepsShape(state: ResumeState, s: ItemSection, id: string, f: ItemField, v: string)
    requires WellShaped(state.data)
    ensures WellShaped(Reduce(state, UpdateItem(s, id, f, v)).data)
  {
    var r := Reduce(state, UpdateItem(s, id, f, v));
    forall k: ItemSection, i | 0 <= i < |Items(r.data, k)| ensures ItemFits(k, Items(r.data, k)[i]) {
      if k == s {
        SetFieldOnlyTarget(Items(state.data, s)[i], f, v);
        assert ItemFits(s, Items(state.data, s)[i]);
      } else {
        assert Items(r.data, k)[i] == Items(state.data, k)[i];
      }
    }
  }

  lemma RemoveItemKeepsShape(state: ResumeState, s: ItemSection, id: string)
    requires WellShaped(state.data)
    ensures WellShaped(Reduce(state, RemoveItem(s, id)).data)
  {
    var r := Reduce(state, RemoveItem(s, id));
    forall k: ItemSection, i | 0 <= i < |Items(r.data, k)| ensures ItemFits(k, Items(r.data, k)[i]) {
      if k == s {
        var p := (it: Item) => it.id != id;
        FilterMembership(Items(state.data, s), p, Items(r.data, k)[i]);
      } else {
        assert Items(r.data, k)[i] == Items(state.data, k)[i];
      }
    }
  }

  /** Replaying any sequence of dispatched actions. */
  function ReduceAll(state: ResumeState, actions: seq<Action>): ResumeState
    decreases |actions|
  {
    if actions == [] then state
    else if Applicable(state, actions[0]) then ReduceAll(Reduce(state, actions[0]), actions[1..])
    else ReduceAll(state, actions[1..])
  }

  /** After any sequence of edits, reorders included, the section order is
      still a permutation of the six keys. */
  lemma {:induction false} ReduceAllPreservesValid(state: ResumeState, actions: seq<Action>)
    requires Valid(state)
    requires forall i :: 0 <= i < |actions| && actions[i].LoadState? ==> ValidSnapshot(actions[i].payload)
    ensures Valid(ReduceAll(state, actions))
    ensures IsKeyPermutation(ReduceAll(state, actions).sectionOrder)
    decreases |actions|
  {
    if actions != [] {
      var next := if Applicable(state, actions[0]) then Reduce(state, actions[0]) else state;
      if Applicable(state, actions[0]) {
        ReducePreservesValid(state, actions[0]);
      }
      assert forall i :: 0 <= i < |actions[1..]| ==> actions[1..][i] == actions[i + 1];
      ReduceAllPreservesValid(next, actions[1..]);
    }
  }

  lemma InitialStateValid()
    ensures Valid(InitialState)
  {
    DefaultOrderIsPermutation();
  }
}
