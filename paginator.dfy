/** The preview's page splitter (`paginateSections` inside `ResumePreview`)
    and the assembly of its pages into one- or two-column A4 sheets.

    The DOM is replaced by what the splitter reads from it: for every
    `data-type="section"` node the height of its `h2` title (if there is
    one) and the heights of its `data-type="item"` nodes, all in pixels.
    A produced page is a list of fragments: the cloned header, or a chunk of
    consecutive items of one section under a copy of its title. */
module Paginator {
  import opened Common
  import opened Types
  import opened ResumeLayout

  const A4HeightPx: real := 1122.5
  const PaddingTopBottomPx: real := 80.0
  /** The usable height of one page. */
  const MaxContentHeight: real := A4HeightPx - PaddingTopBottomPx
  /** Added to every measured title height. */
  const TitleSpacingPx: real := 8.0
  /** Added to every measured item height. */
  const ItemSpacingPx: real := 12.0
  const RemPx: real := 16.0

  /** `rowGapInPx`: the gap in front of a section that does not open a page. */
  function RowGapPx(style: ResumeStyle): (px: real)
    ensures style.rowGap >= 0.0 ==> px >= 0.0
  {
    style.rowGap * RemPx
  }

  /** One `data-type="item"` node: which node of the document it is, and its
      height. Distinct DOM nodes are distinct objects, so `Measured` asks
      that no two items of the measured sections share a `node`. */
  datatype MeasuredItem = MeasuredItem(node: nat, height: real)

  /** One `data-type="section"` node: its key, the height of its title if it
      has one, and its items in document order. */
  datatype MeasuredSection = MeasuredSection(key: SectionKey, title: Option<real>, items: seq<MeasuredItem>)

  /** A fragment of a page: the cloned header, or the `count` consecutive
      items of section `section` from item `start` on, under a copy of the
      section's title (`renderSectionOnPage`). */
  datatype Fragment =
    | HeaderClone(height: real)
    | SectionChunk(section: nat, start: nat, count: nat)

  type Page = seq<Fragment>

  /** Bounding boxes have non-negative heights. */
  predicate SectionMeasured(s: MeasuredSection) {
    (s.title.Some? ==> s.title.value >= 0.0) &&
    forall i :: 0 <= i < |s.items| ==> s.items[i].height >= 0.0
  }

  /** What the measurement reports: non-negative heights, and every item a
      different node. */
  predicate Measured(sections: seq<MeasuredSection>) {
    (forall j :: 0 <= j < |sections| ==> SectionMeasured(sections[j])) &&
    NodesDistinct(Flatten(sections))
  }

  /** No node occurs twice in `items`. */
  predicate NodesDistinct(items: seq<MeasuredItem>) {
    forall a, b :: 0 <= a < b < |items| ==> items[a].node != items[b].node
  }

  /** No node occurs in both `x` and `y`. */
  predicate NodesApart(x: seq<MeasuredItem>, y: seq<MeasuredItem>) {
    forall a, b :: 0 <= a < |x| && 0 <= b < |y| ==> x[a].node != y[b].node
  }

  // ---------------------------------------------------------------------
  // The height the splitter charges for a page, and what a page holds
  // ---------------------------------------------------------------------

  /** The charge for a run of items: each measured height plus its spacing. */
  function ItemsHeight(items: seq<MeasuredItem>): real {
    if items == [] then 0.0
    else ItemsHeight(items[..|items| - 1]) + items[|items| - 1].height + ItemSpacingPx
  }

  /** `sectionTitleHeight` of section `i`. */
  function TitleCharge(sections: seq<MeasuredSection>, i: nat): real {
    if i < |sections| && sections[i].title.Some? then sections[i].title.value + TitleSpacingPx else 0.0
  }

  /** The items a fragment shows. */
  function FragmentItems(sections: seq<MeasuredSection>, f: Fragment): seq<MeasuredItem> {
    if f.SectionChunk? && f.section < |sections| && f.start + f.count <= |sections[f.section].items|
    then sections[f.section].items[f.start..f.start + f.count]
    else []
  }

  /** The running height after placing fragment `f` on a page of height `h`:
      a chunk pays the row gap if something is above it, then its title,
      then its items. */
  function AddFragment(sections: seq<MeasuredSection>, h: real, f: Fragment, gap: real): real {
    match f
    case HeaderClone(hh) => h + hh
    case SectionChunk(i, _, _) =>
      (if h > 0.0 then h + gap else h) + TitleCharge(sections, i) + ItemsHeight(FragmentItems(sections, f))
  }

  /** `currentPageHeight` once every fragment of the page is placed. */
  function PageHeight(sections: seq<MeasuredSection>, page: Page, gap: real): real {
    if page == [] then 0.0
    else AddFragment(sections, PageHeight(sections, page[..|page| - 1], gap), page[|page| - 1], gap)
  }

  /** The items a page shows, top to bottom. */
  function PageItems(sections: seq<MeasuredSection>, page: Page): seq<MeasuredItem> {
    if page == [] then []
    else PageItems(sections, page[..|page| - 1]) + FragmentItems(sections, page[|page| - 1])
  }

  /** The items all pages show, in page order. */
  function AllItems(sections: seq<MeasuredSection>, pages: seq<Page>): seq<MeasuredItem> {
    if pages == [] then []
    else AllItems(sections, pages[..|pages| - 1]) + PageItems(sections, pages[|pages| - 1])
  }

  /** A section node without a title or without items is skipped. */
  function Placeable(s: MeasuredSection): seq<MeasuredItem> {
    if s.title.Some? && |s.items| > 0 then s.items else []
  }

  /** The items the splitter is to place: those of every section it does not skip. */
  function Covered(sections: seq<MeasuredSection>): seq<MeasuredItem> {
    if sections == [] then [] else Covered(sections[..|sections| - 1]) + Placeable(sections[|sections| - 1])
  }

  /** Every item of every section, skipped or not. */
  function Flatten(sections: seq<MeasuredSection>): seq<MeasuredItem> {
    if sections == [] then [] else Flatten(sections[..|sections| - 1]) + sections[|sections| - 1].items
  }

  /** A concatenation has distinct nodes exactly when both parts do and
      they share none. */
  lemma {:induction false} NodesConcat(x: seq<MeasuredItem>, y: seq<MeasuredItem>)
    ensures NodesDistinct(x + y) <==> NodesDistinct(x) && NodesDistinct(y) && NodesApart(x, y)
  {
    var z := x + y;
    assert forall a :: 0 <= a < |x| ==> z[a] == x[a];
    assert forall b :: 0 <= b < |y| ==> z[|x| + b] == y[b];
    if NodesDistinct(x) && NodesDistinct(y) && NodesApart(x, y) {
      forall a, b | 0 <= a < b < |z| ensures z[a].node != z[b].node {
        if a >= |x| {
          assert z[a] == y[a - |x|] && z[b] == y[b - |x|];
        } else if b >= |x| {
          assert z[b] == y[b - |x|];
        }
      }
    }
    if NodesDistinct(z) {
      forall a, b | 0 <= a < b < |y| ensures y[a].node != y[b].node {
        assert z[|x| + a] == y[a] && z[|x| + b] == y[b];
      }
      forall a, b | 0 <= a < |x| && 0 <= b < |y| ensures x[a].node != y[b].node {
        assert z[|x| + b] == y[b];
      }
    }
  }

  /** The items to place are items of the document, each a different node:
      a split that shows exactly `Covered(sections)` shows every placed
      node once. */
  lemma {:induction false} CoveredNodesDistinct(sections: seq<MeasuredSection>)
    requires NodesDistinct(Flatten(sections))
    ensures NodesDistinct(Covered(sections))
    ensures forall x :: x in Covered(sections) ==> x in Flatten(sections)
  {
    if sections != [] {
      var init, last := sections[..|sections| - 1], sections[|sections| - 1];
      NodesConcat(Flatten(init), last.items);
      CoveredNodesDistinct(init);
      var done := Covered(init);
      forall a, b | 0 <= a < |done| && 0 <= b < |Placeable(last)|
        ensures done[a].node != Placeable(last)[b].node
      {
        assert done[a] in Flatten(init);
        var c :| 0 <= c < |Flatten(init)| && Flatten(init)[c] == done[a];
        assert Placeable(last)[b] == last.items[b];
      }
      NodesConcat(done, Placeable(last));
    }
  }

  // ---------------------------------------------------------------------
  // What a correct split looks like
  // ---------------------------------------------------------------------

  /** A chunk is a non-empty run of consecutive items of one titled section. */
  predicate ChunkOk(sections: seq<MeasuredSection>, f: Fragment) {
    f.SectionChunk? ==>
      f.section < |sections| && sections[f.section].title.Some? && f.count > 0 &&
      f.start + f.count <= |sections[f.section].items|
  }

  /** The header clone, when there is one, is only the first fragment of the first page. */
  predicate HeaderOk(header: Option<real>, k: nat, j: nat, f: Fragment) {
    f.HeaderClone? ==> k == 0 && j == 0 && header == Some(f.height)
  }

  /** The charge the first item of a page would have added to the previous
      page: its own height, plus title and gap if it opens its section. */
  function OpeningCharge(sections: seq<MeasuredSection>, page: Page, gap: real): real {
    if page != [] && page[0].SectionChunk? && FragmentItems(sections, page[0]) != [] then
      FragmentItems(sections, page[0])[0].height + ItemSpacingPx +
      (if page[0].start == 0 then TitleCharge(sections, page[0].section) + gap else 0.0)
    else 0.0
  }

  /** A page stays within the A4 content height, unless it shows at most
      one item and nothing before its last fragment was charged: an item
      too tall on its own lands on a page of height 0, and a tall header
      clone stands alone. */
  predicate PageFits(sections: seq<MeasuredSection>, page: Page, gap: real) {
    PageHeight(sections, page, gap) <= MaxContentHeight ||
    (page != [] && |PageItems(sections, page)| <= 1 && PageHeight(sections, page[..|page| - 1], gap) == 0.0)
  }

  /** A fragment that runs to the end of its section's items (the header
      clone counts as ended). */
  predicate EndsSection(sections: seq<MeasuredSection>, f: Fragment) {
    f.SectionChunk? ==> f.section < |sections| && f.start + f.count == |sections[f.section].items|
  }

  /** A fragment that starts at its section's first item. */
  predicate OpensSection(f: Fragment) {
    f.SectionChunk? ==> f.start == 0
  }

  /** Chunks are cut only at a page break or at the end of their section:
      every fragment but the last ends its section, and every fragment but
      the first opens its section. So a section's title is charged once per
      page it appears on. */
  predicate CutsOk(sections: seq<MeasuredSection>, page: Page) {
    |page| <= 1 ||
    (CutsOk(sections, page[..|page| - 1]) &&
     EndsSection(sections, page[|page| - 2]) && OpensSection(page[|page| - 1]))
  }

  /** The emitted part of the page being filled ends with a finished fragment. */
  predicate Ended(sections: seq<MeasuredSection>, content: Page) {
    content == [] || EndsSection(sections, content[|content| - 1])
  }

  /** The split between two pages was forced: the first page was not empty
      and the opening of the second would not have fitted on it. */
  predicate Breaks(sections: seq<MeasuredSection>, gap: real, before: Page, after: Page) {
    PageHeight(sections, before, gap) > 0.0 && after != [] && after[0].SectionChunk? &&
    PageHeight(sections, before, gap) + OpeningCharge(sections, after, gap) > MaxContentHeight
  }

  /** Every fragment of page `k` is a valid chunk or the header in its place. */
  predicate FragmentsOk(sections: seq<MeasuredSection>, header: Option<real>, k: nat, page: Page) {
    page == [] ||
    (FragmentsOk(sections, header, k, page[..|page| - 1]) &&
     ChunkOk(sections, page[|page| - 1]) && HeaderOk(header, k, |page| - 1, page[|page| - 1]))
  }

  /** Page `k` of the finished pages: it is not empty, fits, holds valid
      fragments cut only where the splitter cuts them; if it is not the
      first its break was forced, and if it is the first it opens with the
      header when there is one. */
  predicate PageOk(sections: seq<MeasuredSection>, header: Option<real>, gap: real, pages: seq<Page>, k: nat)
    requires k < |pages|
  {
    pages[k] != [] && PageFits(sections, pages[k], gap) && FragmentsOk(sections, header, k, pages[k]) &&
    CutsOk(sections, pages[k]) &&
    (k > 0 ==> Breaks(sections, gap, pages[k - 1], pages[k])) &&
    (k == 0 && header.Some? ==> pages[0][0] == HeaderClone(header.value))
  }

  /** The finished pages are all correct. */
  predicate PagesOk(sections: seq<MeasuredSection>, header: Option<real>, gap: real, pages: seq<Page>) {
    forall k :: 0 <= k < |pages| ==> PageOk(sections, header, gap, pages, k)
  }

  /** The splitter's state between two items: the finished `pages` are
      correct, and the page being filled (`cur`) is charged `height`, fits,
      and was rightly started. */
  predicate OpenPageOk(sections: seq<MeasuredSection>, header: Option<real>, gap: real,
                       pages: seq<Page>, cur: Page, height: real) {
    PagesOk(sections, header, gap, pages) &&
    FragmentsOk(sections, header, |pages|, cur) && CutsOk(sections, cur) &&
    height == PageHeight(sections, cur, gap) && height >= 0.0 &&
    (|PageItems(sections, cur)| > 0 ==> height > 0.0) &&
    PageFits(sections, cur, gap) &&
    (|pages| > 0 ==> Breaks(sections, gap, pages[|pages| - 1], cur)) &&
    (header.Some? && |pages| == 0 ==> cur != [] && cur[0] == HeaderClone(header.value))
  }

  /** The page being filled: what is already on it plus the `count` items of
      the current section that `renderSectionOnPage` has not yet emitted. */
  function OpenPage(content: Page, si: nat, start: nat, count: nat): Page {
    if count == 0 then content else content + [SectionChunk(si, start, count)]
  }

  // ---------------------------------------------------------------------
  // The splitter
  // ---------------------------------------------------------------------

  /** `paginateSections`: walks the sections in order and their items in
      order, charging each item to the current page and opening a new page
      whenever the next item (with its section's title and gap when it
      opens its section) would overflow a non-empty page. `header` is the
      single-column header, cloned onto the first page and charged to it;
      the two-column layout passes none. */
  method PaginateSections(sections: seq<MeasuredSection>, header: Option<real>, gap: real)
      returns (pages: seq<Page>)
    requires gap >= 0.0 && Measured(sections)
    requires header.Some? ==> header.value >= 0.0
    ensures PagesOk(sections, header, gap, pages)
    ensures AllItems(sections, pages) == Covered(sections)
    ensures header.Some? ==> |pages| > 0
  {
    var content: Page := if header.Some? then [HeaderClone(header.value)] else [];
    var height: real := if header.Some? then header.value else 0.0;
    InitialPage(sections, header, gap, content, height);
    pages, content, height := PlaceSections(sections, header, gap, content, height);
    if |content| > 0 {
      AllItemsSnoc(sections, pages, content);
      PagesOkSnoc(sections, header, gap, pages, content);
      pages := pages + [content];
    }
  }

  /** The `sectionNodes.forEach` loop. */
  method PlaceSections(sections: seq<MeasuredSection>, header: Option<real>, gap: real, content0: Page, height0: real)
      returns (pages: seq<Page>, content: Page, height: real)
    requires gap >= 0.0 && Measured(sections)
    requires OpenPageOk(sections, header, gap, [], content0, height0) == true && PageItems(sections, content0) == []
    requires Ended(sections, content0)
    ensures OpenPageOk(sections, header, gap, pages, content, height) == true
    ensures AllItems(sections, pages) + PageItems(sections, content) == Covered(sections)
  {
    pages, content, height := [], content0, height0;
    var si := 0;
    while si < |sections|
      invariant si <= |sections|
      invariant OpenPageOk(sections, header, gap, pages, content, height) == true
      invariant Ended(sections, content)
      invariant AllItems(sections, pages) + PageItems(sections, content) == Covered(sections[..si])
    {
      assert SectionMeasured(sections[si]);
      pages, content, height := PlaceSection(sections, header, gap, si, pages, content, height);
      CoveredStep(sections, si);
      si := si + 1;
    }
    assert sections[..si] == sections;
  }

  lemma {:induction false} CoveredStep(sections: seq<MeasuredSection>, si: nat)
    requires si < |sections|
    ensures Covered(sections[..si + 1]) == Covered(sections[..si]) + Placeable(sections[si])
  {
    assert sections[..si + 1][..si] == sections[..si];
  }

  /** The first page starts with the header clone, charged its height. */
  lemma InitialPage(sections: seq<MeasuredSection>, header: Option<real>, gap: real, content: Page, height: real)
    requires header.Some? ==> header.value >= 0.0
    requires content == (if header.Some? then [HeaderClone(header.value)] else [])
    requires height == (if header.Some? then header.value else 0.0)
    ensures OpenPageOk(sections, header, gap, [], content, height)
    ensures PageItems(sections, content) == [] && Ended(sections, content)
  {
    if header.Some? {
      assert content == [] + [HeaderClone(header.value)];
      FragmentsSnoc(sections, header, 0, [], HeaderClone(header.value));
    }
  }

  /** The body of the `sectionNodes.forEach` callback for section `si`. */
  method PlaceSection(sections: seq<MeasuredSection>, header: Option<real>, gap: real, si: nat,
                      pages0: seq<Page>, content0: Page, height0: real)
      returns (pages: seq<Page>, content: Page, height: real)
    requires gap >= 0.0 && si < |sections| && SectionMeasured(sections[si])
    requires OpenPageOk(sections, header, gap, pages0, content0, height0) == true && Ended(sections, content0)
    ensures OpenPageOk(sections, header, gap, pages, content, height) == true && Ended(sections, content)
    ensures AllItems(sections, pages) + PageItems(sections, content) ==
            AllItems(sections, pages0) + PageItems(sections, content0) + Placeable(sections[si])
  {
    pages, content, height := pages0, content0, height0;
    var sec := sections[si];
    if sec.title.None? || |sec.items| == 0 {
      ConcatNil(AllItems(sections, pages0) + PageItems(sections, content0), Placeable(sec));
      return;
    }
    var start, count;
    ghost var base := AllItems(sections, pages0) + PageItems(sections, content0);
    pages, content, height, start, count := PlaceItems(sections, header, gap, si, pages, content, height, base);
    if count > 0 {
      FinishSection(sections, header, gap, pages, content, height, si, start, count, base);
      content := content + [SectionChunk(si, start, count)];
    }
  }

  /** The `for` loop over the item nodes of a titled, non-empty section. It
      leaves the last `count` items from `start` on pending. */
  method PlaceItems(sections: seq<MeasuredSection>, header: Option<real>, gap: real, si: nat,
                    pages0: seq<Page>, content0: Page, height0: real, ghost base: seq<MeasuredItem>)
      returns (pages: seq<Page>, content: Page, height: real, start: nat, count: nat)
    requires gap >= 0.0 && si < |sections| && SectionMeasured(sections[si])
    requires sections[si].title.Some? && |sections[si].items| > 0
    requires OpenPageOk(sections, header, gap, pages0, content0, height0) == true && Ended(sections, content0)
    requires base == AllItems(sections, pages0) + PageItems(sections, content0)
    ensures start + count == |sections[si].items| && count > 0 && Ended(sections, content)
    ensures OpenPageOk(sections, header, gap, pages, OpenPage(content, si, start, count), height) == true
    ensures AllItems(sections, pages) + PageItems(sections, OpenPage(content, si, start, count)) ==
            base + sections[si].items[..start + count]
  {
    pages, content, height := pages0, content0, height0;
    var items := sections[si].items;
    var titleHeight := sections[si].title.value + TitleSpacingPx;
    var pending: seq<MeasuredItem> := [];
    start := 0;
    assert OpenPage(content, si, start, |pending|) == content0;
    ConcatNil(base, items[..0]);
    var i := 0;
    while i < |items|
      invariant 0 <= i <= |items|
      invariant |pending| <= i && start == i - |pending| && pending == items[start..i]
      invariant i > 0 <==> pending != []
      invariant Ended(sections, content)
      invariant OpenPageOk(sections, header, gap, pages, OpenPage(content, si, start, |pending|), height) == true
      invariant AllItems(sections, pages) + PageItems(sections, OpenPage(content, si, start, |pending|)) ==
                base + items[..i]
    {
      pages, content, height, pending, start :=
        PlaceItem(sections, header, gap, si, i, titleHeight, pages, content, height, pending, start, base);
      i := i + 1;
    }
    count := |pending|;
  }

  /** After the last item the pending chunk is emitted onto the page being filled. */
  lemma FinishSection(sections: seq<MeasuredSection>, header: Option<real>, gap: real, pages: seq<Page>,
                      content: Page, height: real, si: nat, start: nat, count: nat, base: seq<MeasuredItem>)
    requires si < |sections| && sections[si].title.Some? && start + count == |sections[si].items| && count > 0
    requires OpenPageOk(sections, header, gap, pages, OpenPage(content, si, start, count), height)
    requires AllItems(sections, pages) + PageItems(sections, OpenPage(content, si, start, count)) ==
             base + sections[si].items[..start + count]
    ensures OpenPageOk(sections, header, gap, pages, content + [SectionChunk(si, start, count)], height)
    ensures AllItems(sections, pages) + PageItems(sections, content + [SectionChunk(si, start, count)]) ==
            base + Placeable(sections[si])
  {
    assert sections[si].items[..start + count] == Placeable(sections[si]);
  }

  /** One round of the `for` loop over the section's item nodes: item `i`
      is charged to the page being filled, after finishing that page
      (emitting the pending items and calling `startNewPage`) when the item,
      with its title and gap if it opens the section, would overflow a
      non-empty page. `sectionTitleHasBeenPlaced` is local to the round: it
      is only ever set just before being reset. */
  method PlaceItem(sections: seq<MeasuredSection>, header: Option<real>, gap: real, si: nat, i: nat,
                   titleHeight: real, pages0: seq<Page>, content0: Page, height0: real,
                   pending0: seq<MeasuredItem>, start0: nat, ghost base: seq<MeasuredItem>)
      returns (pages: seq<Page>, content: Page, height: real, pending: seq<MeasuredItem>, start: nat)
    requires gap >= 0.0 && si < |sections| && sections[si].title.Some? && SectionMeasured(sections[si])
    requires titleHeight == sections[si].title.value + TitleSpacingPx
    requires i < |sections[si].items|
    requires |pending0| <= i && start0 == i - |pending0| && pending0 == sections[si].items[start0..i]
    requires i > 0 <==> pending0 != []
    requires OpenPageOk(sections, header, gap, pages0, OpenPage(content0, si, start0, |pending0|), height0) == true
    requires Ended(sections, content0)
    requires AllItems(sections, pages0) + PageItems(sections, OpenPage(content0, si, start0, |pending0|)) ==
             base + sections[si].items[..i]
    ensures |pending| <= i + 1 && start == i + 1 - |pending| && pending == sections[si].items[start..i + 1]
    ensures pending != [] && Ended(sections, content)
    ensures OpenPageOk(sections, header, gap, pages, OpenPage(content, si, start, |pending|), height) == true
    ensures AllItems(sections, pages) + PageItems(sections, OpenPage(content, si, start, |pending|)) ==
            base + sections[si].items[..i + 1]
  {
    pages, content, height, pending, start := pages0, content0, height0, pending0, start0;
    var x := sections[si].items[i];
    var titlePlaced := false;
    var itemHeight := x.height + ItemSpacingPx;
    var next := itemHeight;
    if |pending| == 0 && !titlePlaced {
      next := next + titleHeight;
      if height > 0.0 {
        next := next + gap;
      }
    }
    var overflows := height > 0.0 && height + next > MaxContentHeight;
    if overflows {
      if |pending| > 0 {
        content := content + [SectionChunk(si, start, |pending|)];
        pending := [];
        titlePlaced := true;
      }
      if |content| > 0 {
        pages := pages + [content];
      }
      content := [];
      height := 0.0;
      titlePlaced := false;
    }
    if |pending| == 0 && !titlePlaced {
      if height > 0.0 {
        height := height + gap;
      }
      height := height + titleHeight;
    }
    height := height + itemHeight;
    if |pending| == 0 {
      start := i;
    }
    pending := pending + [x];
    SliceSnoc(sections[si].items, start0, i);
    assert x.height >= 0.0;
    if overflows {
      BreakStep(sections, header, gap, pages0, OpenPage(content0, si, start0, |pending0|), height0, si, i,
                pages, content, start, |pending|, height);
    } else {
      NoBreakStep(sections, header, gap, pages0, content0, start0, |pending0|, height0, si, i,
                  start, |pending|, height);
    }
    PrefixStep(AllItems(sections, pages0) + PageItems(sections, OpenPage(content0, si, start0, |pending0|)),
               AllItems(sections, pages) + PageItems(sections, OpenPage(content, si, start, |pending|)),
               base, sections[si].items, i);
  }

  /** Extending a covered prefix by the next item. */
  lemma {:induction false} PrefixStep<T>(before: seq<T>, after: seq<T>, base: seq<T>, s: seq<T>, i: nat)
    requires i < |s| && before == base + s[..i] && after == before + [s[i]]
    ensures after == base + s[..i + 1]
  {
    assert s[..i + 1] == s[..i] + [s[i]];
  }

  lemma {:induction false} SliceSnoc<T>(s: seq<T>, a: nat, b: nat)
    requires a <= b < |s|
    ensures s[a..b] + [s[b]] == s[a..b + 1]
    ensures [s[b]] == s[b..b + 1]
  {
  }

  lemma OpenPageOkIntro(sections: seq<MeasuredSection>, header: Option<real>, gap: real,
                        pages: seq<Page>, cur: Page, height: real)
    requires PagesOk(sections, header, gap, pages)
    requires FragmentsOk(sections, header, |pages|, cur) && CutsOk(sections, cur)
    requires height == PageHeight(sections, cur, gap) && height >= 0.0
    requires |PageItems(sections, cur)| > 0 ==> height > 0.0
    requires PageFits(sections, cur, gap)
    requires |pages| > 0 ==> Breaks(sections, gap, pages[|pages| - 1], cur)
    requires header.Some? && |pages| == 0 ==> cur != [] && cur[0] == HeaderClone(header.value)
    ensures OpenPageOk(sections, header, gap, pages, cur, height)
  {
  }

  /** Finishing a page that fits, whose chunks and header are in place and
      whose predecessor had to break, keeps the finished pages correct. */
  lemma PagesOkSnoc(sections: seq<MeasuredSection>, header: Option<real>, gap: real, pages: seq<Page>, cur: Page)
    requires PagesOk(sections, header, gap, pages)
    requires cur != [] && PageFits(sections, cur, gap)
    requires FragmentsOk(sections, header, |pages|, cur) && CutsOk(sections, cur)
    requires |pages| > 0 ==> Breaks(sections, gap, pages[|pages| - 1], cur)
    requires header.Some? && |pages| == 0 ==> cur[0] == HeaderClone(header.value)
    ensures PagesOk(sections, header, gap, pages + [cur])
  {
    var ps := pages + [cur];
    forall k | 0 <= k < |ps| ensures PageOk(sections, header, gap, ps, k) == true {
      if k < |pages| {
        PageOkSnoc(sections, header, gap, pages, cur, k);
      } else {
        LastPageOk(sections, header, gap, pages, cur);
      }
    }
  }

  lemma LastPageOk(sections: seq<MeasuredSection>, header: Option<real>, gap: real, pages: seq<Page>, cur: Page)
    requires cur != [] && PageFits(sections, cur, gap)
    requires FragmentsOk(sections, header, |pages|, cur) && CutsOk(sections, cur)
    requires |pages| > 0 ==> Breaks(sections, gap, pages[|pages| - 1], cur)
    requires header.Some? && |pages| == 0 ==> cur[0] == HeaderClone(header.value)
    ensures PageOk(sections, header, gap, pages + [cur], |pages|)
  {
    var ps := pages + [cur];
    assert ps[|pages|] == cur;
    if |pages| > 0 {
      assert ps[|pages| - 1] == pages[|pages| - 1];
    }
  }

  lemma PageOkSnoc(sections: seq<MeasuredSection>, header: Option<real>, gap: real, pages: seq<Page>, cur: Page, k: nat)
    requires k < |pages|
    ensures PageOk(sections, header, gap, pages + [cur], k) == PageOk(sections, header, gap, pages, k)
  {
    var ps := pages + [cur];
    assert ps[k] == pages[k];
    if k > 0 {
      assert ps[k - 1] == pages[k - 1];
    }
  }

  /** Adding a fragment to a page keeps its fragments valid exactly when the
      new fragment is valid in its place. */
  lemma {:induction false} FragmentsSnoc(sections: seq<MeasuredSection>, header: Option<real>, k: nat, p: Page, f: Fragment)
    ensures FragmentsOk(sections, header, k, p + [f]) <==>
            FragmentsOk(sections, header, k, p) && ChunkOk(sections, f) && HeaderOk(header, k, |p|, f)
  {
    assert (p + [f])[..|p|] == p;
  }

  /** Adding a fragment to a page keeps its cuts valid exactly when the
      page's last fragment ends its section and the new one opens its own. */
  lemma {:induction false} CutsSnoc(sections: seq<MeasuredSection>, p: Page, f: Fragment)
    ensures CutsOk(sections, p + [f]) <==>
            p == [] || (CutsOk(sections, p) && EndsSection(sections, p[|p| - 1]) && OpensSection(f))
  {
    assert (p + [f])[..|p|] == p;
    if p != [] {
      assert (p + [f])[|p| - 1] == p[|p| - 1];
    }
  }

  /** The loop step that opens a new page: the page being filled (`cur`)
      is finished (it fits, and the break is forced because the next item
      with what it drags along does not), and the new page holds only that
      item under its section's title. */
  lemma BreakStep(sections: seq<MeasuredSection>, header: Option<real>, gap: real,
                  pages0: seq<Page>, cur: Page, height0: real, si: nat, i: nat,
                  pages: seq<Page>, content: Page, start: nat, count: nat, height: real)
    requires OpenPageOk(sections, header, gap, pages0, cur, height0)
    requires si < |sections| && sections[si].title.Some? && sections[si].title.value >= 0.0
    requires i < |sections[si].items| && sections[si].items[i].height >= 0.0
    requires height0 > 0.0
    requires height0 + sections[si].items[i].height + ItemSpacingPx +
             (if i == 0 then sections[si].title.value + TitleSpacingPx + gap else 0.0) > MaxContentHeight
    requires pages == pages0 + [cur] && content == [] && start == i && count == 1
    requires height == sections[si].title.value + TitleSpacingPx + sections[si].items[i].height + ItemSpacingPx
    ensures OpenPageOk(sections, header, gap, pages, OpenPage(content, si, start, count), height)
    ensures AllItems(sections, pages) + PageItems(sections, OpenPage(content, si, start, count)) ==
            AllItems(sections, pages0) + PageItems(sections, cur) + [sections[si].items[i]]
  {
    NonEmptyWhenCharged(sections, cur, gap);
    PagesOkSnoc(sections, header, gap, pages0, cur);
    AllItemsSnoc(sections, pages0, cur);
    assert pages[|pages| - 1] == cur;
    FreshPage(sections, header, gap, pages, si, i, height);
    assert OpenPage(content, si, start, count) == [SectionChunk(si, i, 1)];
  }

  /** The page opened by a break holds the one item under its section's title. */
  lemma FreshPage(sections: seq<MeasuredSection>, header: Option<real>, gap: real,
                  pages: seq<Page>, si: nat, i: nat, height: real)
    requires PagesOk(sections, header, gap, pages) && |pages| > 0
    requires si < |sections| && sections[si].title.Some? && sections[si].title.value >= 0.0
    requires i < |sections[si].items| && sections[si].items[i].height >= 0.0
    requires PageHeight(sections, pages[|pages| - 1], gap) > 0.0
    requires PageHeight(sections, pages[|pages| - 1], gap) + sections[si].items[i].height + ItemSpacingPx +
             (if i == 0 then sections[si].title.value + TitleSpacingPx + gap else 0.0) > MaxContentHeight
    requires height == sections[si].title.value + TitleSpacingPx + sections[si].items[i].height + ItemSpacingPx
    ensures OpenPageOk(sections, header, gap, pages, [SectionChunk(si, i, 1)], height)
    ensures PageItems(sections, [SectionChunk(si, i, 1)]) == [sections[si].items[i]]
  {
    FreshPageFacts(sections, header, gap, |pages|, pages[|pages| - 1], si, i, height);
    OpenPageOkIntro(sections, header, gap, pages, [SectionChunk(si, i, 1)], height);
  }

  /** A page of one single-item chunk: its fragments are valid, and it
      charges the title and the item. */
  lemma SingleChunkPage(sections: seq<MeasuredSection>, header: Option<real>, gap: real,
                        n: nat, si: nat, i: nat)
    requires si < |sections| && sections[si].title.Some? && i < |sections[si].items|
    ensures var page := [SectionChunk(si, i, 1)];
            FragmentsOk(sections, header, n, page) &&
            PageHeight(sections, page, gap) == TitleCharge(sections, si) + sections[si].items[i].height + ItemSpacingPx &&
            PageItems(sections, page) == [sections[si].items[i]] &&
            FragmentItems(sections, page[0]) == [sections[si].items[i]]
  {
    var page := [SectionChunk(si, i, 1)];
    StartChunk(sections, gap, [], si, i);
    assert [] + page == page;
    FragmentsSnoc(sections, header, n, [], SectionChunk(si, i, 1));
    SliceSnoc(sections[si].items, i, i);
  }

  lemma FreshPageFacts(sections: seq<MeasuredSection>, header: Option<real>, gap: real,
                       n: nat, prev: Page, si: nat, i: nat, height: real)
    requires si < |sections| && sections[si].title.Some? && sections[si].title.value >= 0.0
    requires i < |sections[si].items| && sections[si].items[i].height >= 0.0
    requires PageHeight(sections, prev, gap) > 0.0
    requires PageHeight(sections, prev, gap) + sections[si].items[i].height + ItemSpacingPx +
             (if i == 0 then sections[si].title.value + TitleSpacingPx + gap else 0.0) > MaxContentHeight
    requires height == sections[si].title.value + TitleSpacingPx + sections[si].items[i].height + ItemSpacingPx
    ensures var page := [SectionChunk(si, i, 1)];
            FragmentsOk(sections, header, n, page) &&
            height == PageHeight(sections, page, gap) && height > 0.0 &&
            PageItems(sections, page) == [sections[si].items[i]] &&
            PageFits(sections, page, gap) && Breaks(sections, gap, prev, page)
  {
    SingleChunkPage(sections, header, gap, n, si, i);
  }

  /** The loop step that keeps the page: the item (with title and gap when
      it opens its section's chunk) is charged to the page being filled. */
  lemma NoBreakStep(sections: seq<MeasuredSection>, header: Option<real>, gap: real, pages: seq<Page>,
                    content: Page, start0: nat, count0: nat, height0: real,
                    si: nat, i: nat, start: nat, count: nat, height: real)
    requires OpenPageOk(sections, header, gap, pages, OpenPage(content, si, start0, count0), height0) == true
    requires Ended(sections, content)
    requires si < |sections| && sections[si].title.Some? && sections[si].title.value >= 0.0
    requires gap >= 0.0
    requires i < |sections[si].items| && sections[si].items[i].height >= 0.0
    requires count0 <= i && start0 == i - count0 && (i > 0 <==> count0 > 0)
    requires start == (if count0 == 0 then i else start0) && count == count0 + 1
    requires height == height0 + sections[si].items[i].height + ItemSpacingPx +
               (if count0 == 0 then sections[si].title.value + TitleSpacingPx + (if height0 > 0.0 then gap else 0.0) else 0.0)
    requires !(height0 > 0.0 && height > MaxContentHeight)
    ensures OpenPageOk(sections, header, gap, pages, OpenPage(content, si, start, count), height) == true
    ensures AllItems(sections, pages) + PageItems(sections, OpenPage(content, si, start, count)) ==
            AllItems(sections, pages) + PageItems(sections, OpenPage(content, si, start0, count0)) +
            [sections[si].items[i]]
  {
    var cur0, cur := OpenPage(content, si, start0, count0), OpenPage(content, si, start, count);
    if count0 == 0 {
      assert cur0 == content && cur == content + [SectionChunk(si, i, 1)];
      NoBreakStart(sections, header, gap, pages, content, height0, si, i, height);
    } else {
      assert start0 + count0 == i && start == start0;
      assert cur0 == content + [SectionChunk(si, start0, count0)];
      assert cur == content + [SectionChunk(si, start0, count0 + 1)];
      NoBreakGrow(sections, header, gap, pages, content, start0, count0, height0, si, height);
    }
    assert PageItems(sections, cur) == PageItems(sections, cur0) + [sections[si].items[i]];
    ConcatSnoc(AllItems(sections, pages), PageItems(sections, cur0), sections[si].items[i]);
  }

  lemma {:induction false} ConcatNil<T>(a: seq<T>, b: seq<T>)
    requires b == []
    ensures a == a + b
  {
  }

  lemma {:induction false} ConcatSnoc<T>(a: seq<T>, b: seq<T>, x: T)
    ensures a + (b + [x]) == a + b + [x]
  {
  }

  /** `NoBreakStep` for the first item of a chunk. */
  lemma NoBreakStart(sections: seq<MeasuredSection>, header: Option<real>, gap: real, pages: seq<Page>,
                     content: Page, height0: real, si: nat, i: nat, height: real)
    requires OpenPageOk(sections, header, gap, pages, content, height0) && Ended(sections, content)
    requires si < |sections| && sections[si].title.Some? && sections[si].title.value >= 0.0
    requires gap >= 0.0
    requires i == 0 && i < |sections[si].items| && sections[si].items[i].height >= 0.0
    requires height == height0 + sections[si].items[i].height + ItemSpacingPx +
               sections[si].title.value + TitleSpacingPx + (if height0 > 0.0 then gap else 0.0)
    requires !(height0 > 0.0 && height > MaxContentHeight)
    ensures OpenPageOk(sections, header, gap, pages, content + [SectionChunk(si, i, 1)], height)
    ensures PageItems(sections, content + [SectionChunk(si, i, 1)]) == PageItems(sections, content) + [sections[si].items[i]]
  {
    var after := content + [SectionChunk(si, i, 1)];
    assert FragmentsOk(sections, header, |pages|, content) && CutsOk(sections, content);
    assert height0 == PageHeight(sections, content, gap) && height0 >= 0.0;
    assert |PageItems(sections, content)| > 0 ==> height0 > 0.0;
    StartPage(sections, header, |pages|, gap, content, si, i, height0, height);
    if content != [] {
      assert after[0] == content[0];
      assert OpeningCharge(sections, after, gap) == OpeningCharge(sections, content, gap);
    }
    OpenPageOkIntro(sections, header, gap, pages, after, height);
  }

  /** What opening a chunk does to the page itself: its fragments and cuts
      stay valid, it is charged the gap, title and item, and it still fits. */
  lemma StartPage(sections: seq<MeasuredSection>, header: Option<real>, k: nat, gap: real, content: Page,
                  si: nat, i: nat, height0: real, height: real)
    requires si < |sections| && sections[si].title.Some? && sections[si].title.value >= 0.0
    requires gap >= 0.0
    requires i == 0 && i < |sections[si].items| && sections[si].items[i].height >= 0.0
    requires FragmentsOk(sections, header, k, content) && CutsOk(sections, content) && Ended(sections, content)
    requires height0 == PageHeight(sections, content, gap) && height0 >= 0.0
    requires |PageItems(sections, content)| > 0 ==> height0 > 0.0
    requires height == height0 + sections[si].items[i].height + ItemSpacingPx +
               sections[si].title.value + TitleSpacingPx + (if height0 > 0.0 then gap else 0.0)
    requires !(height0 > 0.0 && height > MaxContentHeight)
    ensures var after := content + [SectionChunk(si, i, 1)];
            FragmentsOk(sections, header, k, after) && CutsOk(sections, after) &&
            height == PageHeight(sections, after, gap) && height > 0.0 && PageFits(sections, after, gap) &&
            PageItems(sections, after) == PageItems(sections, content) + [sections[si].items[i]]
  {
    var after := content + [SectionChunk(si, i, 1)];
    StartChunk(sections, gap, content, si, i);
    FragmentsSnoc(sections, header, k, content, SectionChunk(si, i, 1));
    CutsSnoc(sections, content, SectionChunk(si, i, 1));
    if height0 <= 0.0 {
      assert |PageItems(sections, content)| == 0;
      assert after[..|after| - 1] == content;
    }
  }

  /** `NoBreakStep` for a later item of a chunk. */
  lemma NoBreakGrow(sections: seq<MeasuredSection>, header: Option<real>, gap: real, pages: seq<Page>,
                    content: Page, start: nat, count0: nat, height0: real, si: nat, height: real)
    requires OpenPageOk(sections, header, gap, pages, content + [SectionChunk(si, start, count0)], height0)
    requires si < |sections| && start + count0 < |sections[si].items| && count0 > 0
    requires sections[si].items[start + count0].height >= 0.0
    requires height == height0 + sections[si].items[start + count0].height + ItemSpacingPx
    requires !(height0 > 0.0 && height > MaxContentHeight)
    ensures OpenPageOk(sections, header, gap, pages, content + [SectionChunk(si, start, count0 + 1)], height)
    ensures PageItems(sections, content + [SectionChunk(si, start, count0 + 1)]) ==
            PageItems(sections, content + [SectionChunk(si, start, count0)]) + [sections[si].items[start + count0]]
  {
    var before := content + [SectionChunk(si, start, count0)];
    var after := content + [SectionChunk(si, start, count0 + 1)];
    assert FragmentsOk(sections, header, |pages|, before) && CutsOk(sections, before);
    assert height0 == PageHeight(sections, before, gap) && (|PageItems(sections, before)| > 0 ==> height0 > 0.0);
    GrowPage(sections, header, |pages|, gap, content, si, start, count0, height0, height);
    OpeningUnchanged(sections, gap, content, si, start, count0);
    OpenPageOkIntro(sections, header, gap, pages, after, height);
  }

  /** What growing the last chunk does to the page itself: its fragments
      and cuts stay valid, it is charged the item and still fits. */
  lemma GrowPage(sections: seq<MeasuredSection>, header: Option<real>, k: nat, gap: real, content: Page,
                 si: nat, start: nat, count0: nat, height0: real, height: real)
    requires si < |sections| && start + count0 < |sections[si].items| && count0 > 0
    requires sections[si].items[start + count0].height >= 0.0
    requires FragmentsOk(sections, header, k, content + [SectionChunk(si, start, count0)])
    requires CutsOk(sections, content + [SectionChunk(si, start, count0)])
    requires height0 == PageHeight(sections, content + [SectionChunk(si, start, count0)], gap)
    requires |PageItems(sections, content + [SectionChunk(si, start, count0)])| > 0 ==> height0 > 0.0
    requires height == height0 + sections[si].items[start + count0].height + ItemSpacingPx
    requires !(height0 > 0.0 && height > MaxContentHeight)
    ensures var after := content + [SectionChunk(si, start, count0 + 1)];
            FragmentsOk(sections, header, k, after) && CutsOk(sections, after) &&
            height == PageHeight(sections, after, gap) && height > 0.0 && PageFits(sections, after, gap) &&
            PageItems(sections, after) ==
            PageItems(sections, content + [SectionChunk(si, start, count0)]) + [sections[si].items[start + count0]]
  {
    GrowChunk(sections, gap, content, si, start, count0);
    FragmentsSnoc(sections, header, k, content, SectionChunk(si, start, count0));
    FragmentsSnoc(sections, header, k, content, SectionChunk(si, start, count0 + 1));
    GrowKeepsCuts(sections, content, si, start, count0);
    GrowShowsItems(sections, content, si, start, count0);
    assert height0 > 0.0 && height <= MaxContentHeight;
  }

  /** Growing the last chunk of a page keeps where the page is cut. */
  lemma GrowKeepsCuts(sections: seq<MeasuredSection>, content: Page, si: nat, start: nat, count: nat)
    requires CutsOk(sections, content + [SectionChunk(si, start, count)])
    ensures CutsOk(sections, content + [SectionChunk(si, start, count + 1)])
  {
    CutsSnoc(sections, content, SectionChunk(si, start, count));
    CutsSnoc(sections, content, SectionChunk(si, start, count + 1));
  }

  /** A page ending in a chunk of `count > 0` items shows an item. */
  lemma GrowShowsItems(sections: seq<MeasuredSection>, content: Page, si: nat, start: nat, count: nat)
    requires si < |sections| && start + count <= |sections[si].items| && count > 0
    ensures |PageItems(sections, content + [SectionChunk(si, start, count)])| > 0
  {
    PageSnoc(sections, content, SectionChunk(si, start, count), gap := 0.0);
    assert |FragmentItems(sections, SectionChunk(si, start, count))| == count;
  }

  /** Growing the page being filled never changes how it opens. */
  lemma OpeningUnchanged(sections: seq<MeasuredSection>, gap: real, content: Page, si: nat, start: nat, count: nat)
    requires OpenPage(content, si, start, count) != []
    requires si < |sections| && start + count < |sections[si].items|
    ensures var before := OpenPage(content, si, start, count);
            var after := OpenPage(content, si, start, count + 1);
            after != [] && after[0].SectionChunk? == before[0].SectionChunk? &&
            OpeningCharge(sections, after, gap) == OpeningCharge(sections, before, gap)
  {
    var after := OpenPage(content, si, start, count + 1);
    if content != [] {
      assert after[0] == content[0];
      assert OpenPage(content, si, start, count)[0] == content[0];
    } else {
      assert after == [SectionChunk(si, start, count + 1)];
      assert OpenPage(content, si, start, count) == [SectionChunk(si, start, count)];
      assert FragmentItems(sections, after[0])[0] == sections[si].items[start];
      assert FragmentItems(sections, SectionChunk(si, start, count))[0] == sections[si].items[start];
    }
  }

  /** Placing one more item on a chunk at the end of the page being filled:
      the page's charge grows by the item's, and it gains the item at the end. */
  lemma {:induction false} GrowChunk(sections: seq<MeasuredSection>, gap: real, content: Page, si: nat,
                                     start: nat, count: nat)
    requires si < |sections| && start + count < |sections[si].items|
    ensures var x := sections[si].items[start + count];
            PageHeight(sections, content + [SectionChunk(si, start, count + 1)], gap) ==
            PageHeight(sections, content + [SectionChunk(si, start, count)], gap) + x.height + ItemSpacingPx &&
            PageItems(sections, content + [SectionChunk(si, start, count + 1)]) ==
            PageItems(sections, content + [SectionChunk(si, start, count)]) + [x]
  {
    var items := sections[si].items;
    var x := items[start + count];
    var grown := SectionChunk(si, start, count + 1);
    var chunk := SectionChunk(si, start, count);
    SliceSnoc(items, start, start + count);
    assert FragmentItems(sections, grown) == FragmentItems(sections, chunk) + [x];
    ItemsHeightSnoc(FragmentItems(sections, chunk), x);
    var h := PageHeight(sections, content, gap);
    assert AddFragment(sections, h, grown, gap) == AddFragment(sections, h, chunk, gap) + x.height + ItemSpacingPx;
    PageSnoc(sections, content, grown, gap);
    PageSnoc(sections, content, chunk, gap);
    var p := PageItems(sections, content);
    assert p + (FragmentItems(sections, chunk) + [x]) == (p + FragmentItems(sections, chunk)) + [x];
  }

  /** Placing the first item of a chunk: the page pays the gap (if anything
      is above), the section title and the item. */
  lemma {:induction false} StartChunk(sections: seq<MeasuredSection>, gap: real, content: Page, si: nat, start: nat)
    requires si < |sections| && start < |sections[si].items|
    ensures var x := sections[si].items[start];
            PageHeight(sections, content + [SectionChunk(si, start, 1)], gap) ==
            (if PageHeight(sections, content, gap) > 0.0 then PageHeight(sections, content, gap) + gap
             else PageHeight(sections, content, gap)) + TitleCharge(sections, si) + x.height + ItemSpacingPx &&
            PageItems(sections, content + [SectionChunk(si, start, 1)]) == PageItems(sections, content) + [x]
  {
    var items := sections[si].items;
    var x := items[start];
    var chunk := SectionChunk(si, start, 1);
    SliceSnoc(items, start, start);
    assert FragmentItems(sections, chunk) == [x];
    ItemsHeightSnoc([], x);
    assert [] + [x] == [x];
    var h := PageHeight(sections, content, gap);
    assert AddFragment(sections, h, chunk, gap) ==
           (if h > 0.0 then h + gap else h) + TitleCharge(sections, si) + x.height + ItemSpacingPx;
    PageSnoc(sections, content, chunk, gap);
  }

  lemma {:induction false} PageSnoc(sections: seq<MeasuredSection>, p: Page, f: Fragment, gap: real)
    ensures PageHeight(sections, p + [f], gap) == AddFragment(sections, PageHeight(sections, p, gap), f, gap)
    ensures PageItems(sections, p + [f]) == PageItems(sections, p) + FragmentItems(sections, f)
  {
    assert (p + [f])[..|p|] == p;
  }

  lemma {:induction false} ItemsHeightSnoc(items: seq<MeasuredItem>, x: MeasuredItem)
    ensures ItemsHeight(items + [x]) == ItemsHeight(items) + x.height + ItemSpacingPx
  {
    assert (items + [x])[..|items|] == items;
  }

  lemma {:induction false} AllItemsSnoc(sections: seq<MeasuredSection>, pages: seq<Page>, p: Page)
    ensures AllItems(sections, pages + [p]) == AllItems(sections, pages) + PageItems(sections, p)
  {
    assert (pages + [p])[..|pages|] == pages;
  }

  /** A page charged a positive height is not empty. */
  lemma NonEmptyWhenCharged(sections: seq<MeasuredSection>, p: Page, gap: real)
    ensures PageHeight(sections, p, gap) > 0.0 ==> p != []
  {
  }

  // ---------------------------------------------------------------------
  // What PagesOk means, page by page
  // ---------------------------------------------------------------------

  /** Every fragment of a page with valid fragments is a valid chunk, and
      only the first fragment of the first page may be the header. */
  lemma {:induction false} FragmentsOkMeaning(sections: seq<MeasuredSection>, header: Option<real>, k: nat, page: Page)
    requires FragmentsOk(sections, header, k, page)
    ensures forall j :: 0 <= j < |page| ==> ChunkOk(sections, page[j]) && HeaderOk(header, k, j, page[j])
  {
    if page != [] {
      var p := page[..|page| - 1];
      FragmentsOkMeaning(sections, header, k, p);
      assert forall j :: 0 <= j < |p| ==> page[j] == p[j];
    }
  }

  /** The finished pages, one by one: none is empty, each fits, each break
      between neighbours was forced, and the header opens the first page. */
  lemma PagesOkMeaning(sections: seq<MeasuredSection>, header: Option<real>, gap: real, pages: seq<Page>)
    requires PagesOk(sections, header, gap, pages)
    ensures forall k :: 0 <= k < |pages| ==>
              pages[k] != [] && PageFits(sections, pages[k], gap) && FragmentsOk(sections, header, k, pages[k]) &&
              CutsOk(sections, pages[k])
    ensures forall k :: 0 < k < |pages| ==> Breaks(sections, gap, pages[k - 1], pages[k])
    ensures header.Some? && |pages| > 0 ==> pages[0][0] == HeaderClone(header.value)
  {
    forall k | 0 <= k < |pages|
      ensures pages[k] != [] && PageFits(sections, pages[k], gap) && FragmentsOk(sections, header, k, pages[k]) &&
              CutsOk(sections, pages[k])
    {
      assert PageOk(sections, header, gap, pages, k);
    }
    forall k | 0 < k < |pages|
      ensures Breaks(sections, gap, pages[k - 1], pages[k])
    {
      assert PageOk(sections, header, gap, pages, k);
    }
    if |pages| > 0 {
      assert PageOk(sections, header, gap, pages, 0);
    }
  }

  /** Where a valid page is cut: every fragment but the last ends its
      section, and every fragment but the first opens its section. */
  lemma {:induction false} CutsOkMeaning(sections: seq<MeasuredSection>, page: Page)
    requires CutsOk(sections, page)
    ensures forall j :: 0 <= j < |page| - 1 ==> EndsSection(sections, page[j])
    ensures forall j :: 0 < j < |page| ==> OpensSection(page[j])
  {
    if |page| > 1 {
      var p := page[..|page| - 1];
      CutsOkMeaning(sections, p);
      assert forall j :: 0 <= j < |p| ==> page[j] == p[j];
    }
  }

  /** Without a header every page opens with a chunk, so a split with a
      page shows an item. */
  lemma NoHeaderPagesShowItems(sections: seq<MeasuredSection>, gap: real, pages: seq<Page>)
    requires PagesOk(sections, None, gap, pages) && pages != []
    ensures AllItems(sections, pages) != []
  {
    var k := |pages| - 1;
    var last := pages[k];
    assert PageOk(sections, None, gap, pages, k);
    assert last != [] && FragmentsOk(sections, None, k, last);
    FragmentsOkMeaning(sections, None, k, last);
    assert forall j :: 0 <= j < |last| ==> last[j].SectionChunk? by {
      forall j | 0 <= j < |last| ensures last[j].SectionChunk? {
        assert HeaderOk(None, k, j, last[j]);
      }
    }
    EveryChunkShowsItems(sections, None, k, last);
    assert AllItems(sections, pages) == AllItems(sections, pages[..k]) + PageItems(sections, last);
  }

  /** Two items of one section that fit together share one chunk: a page
      holding them as two chunks (charging the title twice) is not valid. */
  lemma NoSplitWithinPage()
    ensures var sections := [MeasuredSection(Skills, Some(0.0), [MeasuredItem(0, 10.0), MeasuredItem(1, 10.0)])];
            !PagesOk(sections, None, 0.0, [[SectionChunk(0, 0, 1), SectionChunk(0, 1, 1)]]) &&
            PagesOk(sections, None, 0.0, [[SectionChunk(0, 0, 2)]])
  {
    var sections := [MeasuredSection(Skills, Some(0.0), [MeasuredItem(0, 10.0), MeasuredItem(1, 10.0)])];
    var split := [SectionChunk(0, 0, 1), SectionChunk(0, 1, 1)];
    assert !CutsOk(sections, split) by {
      assert split[..1] == [SectionChunk(0, 0, 1)];
    }
    assert !PageOk(sections, None, 0.0, [split], 0);
    var whole := [SectionChunk(0, 0, 2)];
    assert FragmentItems(sections, whole[0]) == sections[0].items;
    assert [] + whole == whole;
    FragmentsSnoc(sections, None, 0, [], whole[0]);
    PageSnoc(sections, [], whole[0], 0.0);
    assert PageHeight(sections, whole, 0.0) == 52.0;
    assert PageOk(sections, None, 0.0, [whole], 0);
  }

  /** The pages show the sections in document order: with two one-item
      sections, a page showing the second section above the first does not
      cover the document. */
  lemma SwappedSectionsRejected()
    ensures var sections := [MeasuredSection(Skills, Some(0.0), [MeasuredItem(0, 10.0)]),
                             MeasuredSection(Certifications, Some(0.0), [MeasuredItem(1, 10.0)])];
            Measured(sections) &&
            AllItems(sections, [[SectionChunk(1, 0, 1), SectionChunk(0, 0, 1)]]) != Covered(sections)
  {
    var sections := [MeasuredSection(Skills, Some(0.0), [MeasuredItem(0, 10.0)]),
                     MeasuredSection(Certifications, Some(0.0), [MeasuredItem(1, 10.0)])];
    assert sections[..1] == [sections[0]] && [sections[0]][..0] == [];
    assert Flatten(sections) == [MeasuredItem(0, 10.0), MeasuredItem(1, 10.0)];
    assert Covered(sections)[0] == MeasuredItem(0, 10.0);
    var page := [SectionChunk(1, 0, 1), SectionChunk(0, 0, 1)];
    assert page[..1] == [page[0]] && [page[0]][..0] == [];
    assert PageItems(sections, page)[0] == MeasuredItem(1, 10.0);
    var pages: seq<seq<Fragment>> := [page];
    assert pages[..0] == [];
    assert AllItems(sections, pages)[0] == MeasuredItem(1, 10.0);
  }

  /** Within a section too: a page showing a section's two items back to
      front does not cover the document. */
  lemma BackToFrontRejected()
    ensures var sections := [MeasuredSection(Skills, Some(0.0), [MeasuredItem(0, 10.0), MeasuredItem(1, 10.0)])];
            Measured(sections) &&
            AllItems(sections, [[SectionChunk(0, 1, 1), SectionChunk(0, 0, 1)]]) != Covered(sections)
  {
    var items := [MeasuredItem(0, 10.0), MeasuredItem(1, 10.0)];
    var sections := [MeasuredSection(Skills, Some(0.0), items)];
    assert sections[..0] == [];
    assert Flatten(sections) == items;
    forall a, b | 0 <= a < b < |items| ensures items[a].node != items[b].node {
      assert a == 0 && b == 1;
    }
    assert Measured(sections);
    assert Covered(sections)[0] == MeasuredItem(0, 10.0);
    var page := [SectionChunk(0, 1, 1), SectionChunk(0, 0, 1)];
    assert page[..1] == [page[0]] && [page[0]][..0] == [];
    assert FragmentItems(sections, page[0]) == items[1..2] == [MeasuredItem(1, 10.0)];
    assert PageItems(sections, page[..1]) == [MeasuredItem(1, 10.0)];
    assert PageItems(sections, page)[0] == MeasuredItem(1, 10.0);
    var pages: seq<seq<Fragment>> := [page];
    assert pages[..0] == [];
    assert AllItems(sections, pages)[0] == MeasuredItem(1, 10.0);
  }

  /** When the header leaves too little room for an oversized item, the item
      goes to the next page: the header and the item on one overflowing page
      is not valid, while the header alone followed by the item is. */
  lemma OversizedItemAfterHeader()
    ensures var sections := [MeasuredSection(Skills, Some(0.0), [MeasuredItem(0, 1000.0)])];
            !PagesOk(sections, Some(500.0), 0.0, [[HeaderClone(500.0), SectionChunk(0, 0, 1)]]) &&
            PagesOk(sections, Some(500.0), 0.0, [[HeaderClone(500.0)], [SectionChunk(0, 0, 1)]])
  {
    var sections := [MeasuredSection(Skills, Some(0.0), [MeasuredItem(0, 1000.0)])];
    var shared := [HeaderClone(500.0), SectionChunk(0, 0, 1)];
    assert shared[..1] == [HeaderClone(500.0)];
    PageSnoc(sections, [], HeaderClone(500.0), 0.0);
    PageSnoc(sections, shared[..1], shared[1], 0.0);
    assert FragmentItems(sections, shared[1]) == sections[0].items;
    assert PageHeight(sections, shared, 0.0) == 1520.0;
    assert !PageFits(sections, shared, 0.0);
    assert !PageOk(sections, Some(500.0), 0.0, [shared], 0);
    var first, second := [HeaderClone(500.0)], [SectionChunk(0, 0, 1)];
    var pages := [first, second];
    assert [] + first == first && [] + second == second;
    FragmentsSnoc(sections, Some(500.0), 0, [], first[0]);
    FragmentsSnoc(sections, Some(500.0), 1, [], second[0]);
    PageSnoc(sections, [], second[0], 0.0);
    assert FragmentItems(sections, second[0]) == sections[0].items;
    assert PageHeight(sections, second, 0.0) == 1020.0;
    assert OpeningCharge(sections, second, 0.0) == 1020.0;
    assert PageOk(sections, Some(500.0), 0.0, pages, 0);
    assert PageOk(sections, Some(500.0), 0.0, pages, 1);
  }

  /** Every item of every page is an item of a chunk. In particular a page
      built from valid chunks shows at least one item per fragment. */
  lemma {:induction false} EveryChunkShowsItems(sections: seq<MeasuredSection>, header: Option<real>, k: nat, page: Page)
    requires FragmentsOk(sections, header, k, page)
    requires forall j :: 0 <= j < |page| ==> page[j].SectionChunk?
    ensures |PageItems(sections, page)| >= |page|
  {
    if page != [] {
      var p := page[..|page| - 1];
      assert forall j :: 0 <= j < |p| ==> p[j] == page[j];
      EveryChunkShowsItems(sections, header, k, p);
    }
  }

  // ---------------------------------------------------------------------
  // The A4 sheets
  // ---------------------------------------------------------------------

  /** One A4 sheet of the preview: a single-column page, the first page of
      a two-column layout (header if any, main column, and the full side
      column), or a later two-column page (main column beside an empty
      side column placeholder). */
  datatype Sheet =
    | SingleColumnSheet(fragments: Page)
    | FirstTwoColumnSheet(hasHeader: bool, main: Page)
    | LaterTwoColumnSheet(main: Page)

  /** The paginated content a sheet shows. */
  function SheetContent(s: Sheet): Page {
    match s
    case SingleColumnSheet(f) => f
    case FirstTwoColumnSheet(_, m) => m
    case LaterTwoColumnSheet(m) => m
  }

  function Contents(sheets: seq<Sheet>): (r: seq<Page>)
    ensures |r| == |sheets| && forall k :: 0 <= k < |sheets| ==> r[k] == SheetContent(sheets[k])
  {
    if sheets == [] then [] else Contents(sheets[..|sheets| - 1]) + [SheetContent(sheets[|sheets| - 1])]
  }

  /** The two-column `finalPages`: the first main page beside the header and
      the side column, every later main page beside a placeholder; with no
      main page, a lone sheet for the header and side column if there is a
      header. */
  method AssembleTwoColumn(mainPages: seq<Page>, hasHeader: bool) returns (sheets: seq<Sheet>)
    ensures |mainPages| > 0 ==> Contents(sheets) == mainPages
    ensures |mainPages| == 0 ==> sheets == (if hasHeader then [FirstTwoColumnSheet(true, [])] else [])
    ensures forall k :: 0 <= k < |sheets| ==> (sheets[k].FirstTwoColumnSheet? <==> k == 0)
    ensures |sheets| > 0 ==> sheets[0].hasHeader == hasHeader
  {
    sheets := [];
    if |mainPages| > 0 {
      sheets := sheets + [FirstTwoColumnSheet(hasHeader, mainPages[0])];
      for i := 1 to |mainPages|
        invariant |sheets| == i && sheets[0] == FirstTwoColumnSheet(hasHeader, mainPages[0])
        invariant forall k :: 1 <= k < i ==> sheets[k] == LaterTwoColumnSheet(mainPages[k])
      {
        sheets := sheets + [LaterTwoColumnSheet(mainPages[i])];
      }
      assert Contents(sheets) == mainPages;
    } else if hasHeader {
      sheets := sheets + [FirstTwoColumnSheet(true, [])];
    }
  }

  /** `pagesContent.map(...)`: one single-column sheet per page. */
  function SingleColumnSheets(pages: seq<Page>): (r: seq<Sheet>)
    ensures Contents(r) == pages
    ensures forall k :: 0 <= k < |r| ==> r[k].SingleColumnSheet?
  {
    if pages == [] then [] else SingleColumnSheets(pages[..|pages| - 1]) + [SingleColumnSheet(pages[|pages| - 1])]
  }

  /** The layout effect of `ResumePreview`. `header` is the measured height
      of the `data-type="header"` node if there is one, `hasSideColumn`
      whether a `.side-column` node was found, and `sections` are the
      measured section nodes: those of the main column for a two-column
      template, all of them otherwise. `None` is the early return that
      keeps the previous pages. */
  method Repaginate(template: TemplateOption, sections: seq<MeasuredSection>, header: Option<real>,
                    hasSideColumn: bool, gap: real)
      returns (r: Option<seq<Sheet>>)
    requires gap >= 0.0 && Measured(sections)
    requires header.Some? ==> header.value >= 0.0
    ensures r.None? <==> IsTwoColumn(template) && !hasSideColumn
    ensures r.Some? ==> AllItems(sections, Contents(r.value)) == Covered(sections)
    ensures r.Some? ==> forall k :: 0 <= k < |r.value| ==> PageFits(sections, SheetContent(r.value[k]), gap)
    ensures r.Some? && header.Some? ==> |r.value| > 0
    ensures r.Some? && !IsTwoColumn(template) ==>
              (forall k :: 0 <= k < |r.value| ==> r.value[k].SingleColumnSheet?) &&
              (header.Some? ==> SheetContent(r.value[0]) != [] && SheetContent(r.value[0])[0] == HeaderClone(header.value))
    ensures r.Some? && IsTwoColumn(template) ==>
              forall k :: 0 <= k < |r.value| ==> (r.value[k].FirstTwoColumnSheet? <==> k == 0)
    ensures r.Some? && !IsTwoColumn(template) ==> PagesOk(sections, header, gap, Contents(r.value))
    ensures r.Some? && IsTwoColumn(template) && Covered(sections) != [] ==>
              PagesOk(sections, None, gap, Contents(r.value))
    ensures r.Some? && IsTwoColumn(template) && Covered(sections) == [] ==>
              Contents(r.value) == (if header.Some? then [[]] else [])
  {
    if IsTwoColumn(template) {
      if !hasSideColumn {
        return None;
      }
      var sheets := TwoColumnLayout(sections, header.Some?, gap);
      r := Some(sheets);
    } else {
      var sheets := SingleColumnLayout(sections, header, gap);
      r := Some(sheets);
    }
  }

  /** The two-column branch: the main column is split with no header and
      from height 0, and the pages are assembled around the side column. */
  method TwoColumnLayout(sections: seq<MeasuredSection>, hasHeader: bool, gap: real) returns (sheets: seq<Sheet>)
    requires gap >= 0.0 && Measured(sections)
    ensures AllItems(sections, Contents(sheets)) == Covered(sections)
    ensures forall k :: 0 <= k < |sheets| ==> PageFits(sections, SheetContent(sheets[k]), gap)
    ensures hasHeader ==> |sheets| > 0
    ensures forall k :: 0 <= k < |sheets| ==> (sheets[k].FirstTwoColumnSheet? <==> k == 0)
    ensures Covered(sections) != [] ==> PagesOk(sections, None, gap, Contents(sheets))
    ensures Covered(sections) == [] ==> Contents(sheets) == (if hasHeader then [[]] else [])
  {
    var mainPages := PaginateSections(sections, None, gap);
    PagesOkMeaning(sections, None, gap, mainPages);
    sheets := AssembleTwoColumn(mainPages, hasHeader);
    if |mainPages| == 0 {
      EmptyMainColumn(sections, gap, sheets, hasHeader);
    } else {
      NoHeaderPagesShowItems(sections, gap, mainPages);
    }
  }

  lemma EmptyMainColumn(sections: seq<MeasuredSection>, gap: real, sheets: seq<Sheet>, hasHeader: bool)
    requires sheets == (if hasHeader then [FirstTwoColumnSheet(true, [])] else [])
    ensures AllItems(sections, Contents(sheets)) == []
    ensures forall k :: 0 <= k < |sheets| ==> PageFits(sections, SheetContent(sheets[k]), gap)
  {
    if hasHeader {
      assert Contents(sheets) == [[]];
      assert AllItems(sections, [[]]) == AllItems(sections, []) + PageItems(sections, []);
    }
  }

  /** The single-column branch: the split starts with the header clone,
      charged its height, and each page becomes one sheet. */
  method SingleColumnLayout(sections: seq<MeasuredSection>, header: Option<real>, gap: real) returns (sheets: seq<Sheet>)
    requires gap >= 0.0 && Measured(sections)
    requires header.Some? ==> header.value >= 0.0
    ensures AllItems(sections, Contents(sheets)) == Covered(sections)
    ensures forall k :: 0 <= k < |sheets| ==> PageFits(sections, SheetContent(sheets[k]), gap)
    ensures forall k :: 0 <= k < |sheets| ==> sheets[k].SingleColumnSheet?
    ensures header.Some? ==> |sheets| > 0 && SheetContent(sheets[0]) != [] &&
                             SheetContent(sheets[0])[0] == HeaderClone(header.value)
    ensures PagesOk(sections, header, gap, Contents(sheets))
  {
    var pages := PaginateSections(sections, header, gap);
    PagesOkMeaning(sections, header, gap, pages);
    sheets := SingleColumnSheets(pages);
  }

  // ---------------------------------------------------------------------
  // The measured nodes come from ResumeTemplate
  // ---------------------------------------------------------------------

  /** The section nodes the splitter reads are those `ResumeTemplate`
      renders in the paginated column, in order, each with its `h2` title
      and one item node per rendered item. */
  predicate FromTemplate(state: ResumeState, sections: seq<MeasuredSection>) {
    |sections| == |PaginatedSections(state)| &&
    forall j :: 0 <= j < |sections| ==>
      sections[j].key == PaginatedSections(state)[j] && sections[j].title.Some? &&
      |sections[j].items| == RenderedItemCount(state.data, sections[j].key)
  }

  /** Every rendered section has a title and an item, so the splitter skips
      none: every item node lands on exactly one page, in document order. */
  lemma NothingSkipped(state: ResumeState, sections: seq<MeasuredSection>)
    requires FromTemplate(state, sections)
    ensures Covered(sections) == Flatten(sections)
  {
    var keys := PaginatedSections(state);
    assert forall j :: 0 <= j < |keys| ==> HasContent(state.data, keys[j]) by {
      forall j | 0 <= j < |keys| ensures HasContent(state.data, keys[j]) {
        assert Filled(state)(keys[j]);
      }
    }
    AllPlaceable(sections, |sections|, state);
    assert sections[..|sections|] == sections;
  }

  lemma {:induction false} AllPlaceable(sections: seq<MeasuredSection>, n: nat, state: ResumeState)
    requires n <= |sections|
    requires forall j :: 0 <= j < |sections| ==> sections[j].title.Some? && |sections[j].items| > 0
    ensures Covered(sections[..n]) == Flatten(sections[..n])
  {
    if n > 0 {
      AllPlaceable(sections, n - 1, state);
      assert sections[..n][..n - 1] == sections[..n - 1];
    }
  }
}
