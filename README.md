# Resume builder and ATS analyzers, modelled in Dafny

This project models the three sequential pieces of logic of a browser
resume builder and proves properties of them.

- **The editor state** (`resumeReducer` and `initialState` in
  `components/ResumeBuilder.tsx`, module `ResumeReducer`). Every action is a
  pure transition over `ResumeState`: load a snapshot, update a personal
  field, the summary or the style, add, update or remove an item by id,
  toggle a section, and move a section key within `sectionOrder`. The
  lemmas state what each action changes and that nothing else changes. They
  also prove that every action keeps `sectionOrder` a permutation of the six
  keys and keeps every item of the shape its section expects.
- **The section selection** (`ResumeTemplate`, module `ResumeLayout`). It
  covers the sections a one- or two-column template renders, their order,
  and the rule that a section without content renders nothing.
- **The page splitter** (`paginateSections` and the layout effect of
  `ResumePreview`, module `Paginator`). It is a method with the source's
  nested loops. The measured heights are its inputs, and each measured
  item records which DOM node it is; distinct nodes have distinct
  identities. The pages it emits show exactly the items of the titled,
  non-empty sections, in document order. Because no node occurs twice,
  this means every such item appears exactly once and no two are swapped.
  Each page it emits is non-empty and was broken off only when the next
  chunk did not fit. It fits the A4 content height unless it shows at
  most one item placed when nothing above it had been charged: an
  oversized item goes to a fresh page, never dropped, and a tall header
  stands alone. A chunk of a section ends only at a page break or at the
  end of its section, and every chunk after the first on a page starts
  its section. Both layouts pass these guarantees on to their sheets.
  - The two-column assembly puts the first main-column page beside the
    side column and every later page beside a placeholder.
  - It produces a lone header sheet when there is no main content.
  - It paginates the main column from height 0, so the header is not
    charged against the first page. The model keeps this behaviour.
- **The category-weighted analyzer** (class `ResumeAnalyzer` of
  `services/resumeAnalyzer.ts`, module `ResumeAnalyzer`). It covers:
  - the constructor's normalisation;
  - the four sub-scores and their weighted, rounded combination;
  - the strengths and recommendations rules;
  - the job suggestions: filtered by required matches, stably sorted by
    the percentage written into the reason, and cut to five.

  Four of its keywords contain `.`, `/` or `-`, which normalisation
  removes, so they can never be found (`UnreachableKeywords`).
- **The heuristic analyzer the upload page calls** (`analyzeResumeForATS`
  of `services/geminiService.ts`, module `GeminiService`). Despite the file
  name it calls no remote service. It computes:
  - a base score of 50 with bounded bonuses and penalties, rounded and
    clamped;
  - strengths and recommendations with fixed fallbacks;
  - exactly five job suggestions with distinct titles.

Shared pieces live in `Common` (filter, stable sort, guarded push),
`Types` (the records of `types.ts`) and `Text` (lower-casing,
normalisation, splitting, substring search, rounding, number formatting).

Regular-expression tests are not re-implemented. Their outcomes are
inputs: `ResumeAnalyzer.Signals` and `GeminiService.Patterns`. JavaScript
numbers are modelled as Dafny `real`s, and `Math.round(x)` as
`floor(x + 1/2)` (`Text.Round`).

## Model

| member | source | states |
|---|---|---|
| ResumeReducer.Reduce | components/ResumeBuilder.tsx:63-111 | each action writes only its own part of the state: only LOAD_STATE and REORDER_SECTIONS change the section order, and only LOAD_STATE changes which keys it holds; only LOAD_STATE and TOGGLE_SECTION change visibility; only LOAD_STATE and UPDATE_STYLE change the style; toggles, style updates and reorders leave the resume data alone. The lemmas below give each action's exact effect |
| ResumeReducer.NewItem | components/ResumeBuilder.tsx:71-85 | the item ADD_ITEM creates carries the given id, has the shape of its section, and every field it has is the empty string |
| ResumeReducer.SetFieldOnlyTarget | components/ResumeBuilder.tsx:86-90 | setting a field keeps the id and the item kind, sets that field when the item has it, leaves an item without it unchanged, and changes no other field |
| ResumeReducer.Move | components/ResumeBuilder.tsx:101-107 | the splice-style move keeps the length and the multiset of keys and puts the source element at the destination index |
| ResumeReducer.MoveInverse | components/ResumeBuilder.tsx:101-107 | moving back from the destination to the source restores the original order |
| ResumeReducer.MoveShifts | components/ResumeBuilder.tsx:101-107 | elements between the two indices shift by one towards the source; all others keep their positions |
| ResumeReducer.AddItemAppends | components/ResumeBuilder.tsx:71-85 | ADD_ITEM appends exactly one new item to the end of the named section; all other sections, the personal info, summary, style, visibility and order are unchanged |
| ResumeReducer.RemoveItemKeepsOthers | components/ResumeBuilder.tsx:91-95 | REMOVE_ITEM leaves a subsequence of the old list holding exactly the items whose id differs, every copy of each of them and no copy of any other, and changes nothing else |
| ResumeReducer.AddThenRemoveRestores | components/ResumeBuilder.tsx:71-95 | adding an item with a fresh id and then removing that id restores the whole prior state |
| ResumeReducer.AddThenRemoveCollision | components/ResumeBuilder.tsx:71-95 | in any section where some item already has the id, add-then-remove leaves a strictly shorter list with no item of that id, so the prior state is not restored |
| ResumeReducer.UpdateItemOnlyTarget | components/ResumeBuilder.tsx:86-90 | UPDATE_ITEM keeps the length, order and ids of the list; every item with a matching id gets the named field set to the value and keeps all other fields; items with other ids, other sections and the rest of the state are unchanged |
| ResumeReducer.UpdatePersonalOnlyTarget | components/ResumeBuilder.tsx:67-68 | UPDATE_PERSONAL sets its one personal field and changes nothing else |
| ResumeReducer.UpdateSummaryOnlyTarget | components/ResumeBuilder.tsx:69-70 | UPDATE_SUMMARY replaces the summary and changes nothing else |
| ResumeReducer.UpdateStyleOnlyTarget | components/ResumeBuilder.tsx:98-100 | UPDATE_STYLE sets its one style property and keeps the others and the rest of the state |
| ResumeReducer.ToggleSectionNegatesOne | components/ResumeBuilder.tsx:96-97 | TOGGLE_SECTION negates exactly one visibility flag, and toggling the same key twice is the identity |
| ResumeReducer.LoadStateReplaces | components/ResumeBuilder.tsx:65-66 | LOAD_STATE replaces data, style and visibility, and takes the default section order when the snapshot has none |
| ResumeReducer.ReorderIsMove | components/ResumeBuilder.tsx:101-107 | REORDER_SECTIONS keeps the length and multiset of the order, puts the source key at the destination, and changes nothing else |
| ResumeReducer.DefaultOrderIsPermutation | components/ResumeBuilder.tsx:47 | the default section order lists each of the six keys exactly once |
| ResumeReducer.InitialStateValid | components/ResumeBuilder.tsx:20-48 | the initial state satisfies the state invariant: a permutation order and well-shaped items |
| ResumeReducer.ReducePreservesValid | components/ResumeBuilder.tsx:63-111 | every action keeps the invariant, given that a loaded snapshot satisfies it |
| ResumeReducer.AddItemKeepsShape | components/ResumeBuilder.tsx:71-85 | ADD_ITEM keeps every item of every section of the shape that section expects |
| ResumeReducer.UpdateItemKeepsShape | components/ResumeBuilder.tsx:86-90 | UPDATE_ITEM keeps every item of the shape its section expects |
| ResumeReducer.RemoveItemKeepsShape | components/ResumeBuilder.tsx:91-95 | REMOVE_ITEM keeps every item of the shape its section expects |
| ResumeReducer.ReduceAllPreservesValid | components/ResumeBuilder.tsx:63-111 | any sequence of actions, skipping reorders with out-of-range indices, keeps the invariant, so the section order stays a permutation of the six keys |
| ResumeLayout.RenderedItemCount | components/ResumeBuilder.tsx:477-526 | a section renders at least one item unit exactly when it has content; list sections render one unit per item; summary and skills render at most one |
| ResumeLayout.BlankSkillsStillRender | components/ResumeBuilder.tsx:521-524 | a non-empty skills list whose names are all blank still renders one item unit |
| ResumeLayout.ContactDetails | components/ResumeBuilder.tsx:531 | the listed contact details are all non-empty |
| ResumeLayout.ContactDetailsMeaning | components/ResumeBuilder.tsx:531 | a detail is listed exactly when it is one of email, phone, location, LinkedIn and website and non-empty; the list keeps the field order and each non-empty field's multiplicity |
| ResumeLayout.SingleColumnSelection | components/ResumeBuilder.tsx:558-568 | a section appears in the single-column body iff it is in the order, visible and has content; the body is a duplicate-free subsequence of the order |
| ResumeLayout.MainColumnSelection | components/ResumeBuilder.tsx:528-556 | the main column is the single-column body restricted to summary, work, education and projects, in the same relative order and without duplicates |
| ResumeLayout.SideColumnSelection | components/ResumeBuilder.tsx:528-556 | the side column is the single-column body restricted to skills and certifications, in the same relative order and without duplicates |
| ResumeLayout.ColumnsPartitionBody | components/ResumeBuilder.tsx:529-530 | the two columns together hold exactly the single-column sections, and no section is in both |
| Paginator.RowGapPx | components/ResumeBuilder.tsx:607 | the gap in pixels is non-negative for a non-negative row gap |
| Paginator.PaginateSections | components/ResumeBuilder.tsx:609-684 | every page is valid: non-empty; fits, or shows at most one item placed at height 0; broken off only when the next chunk overflowed; chunks titled, non-empty and cut only at a break or at their section's end; header first. All pages' items concatenate to exactly the items of the non-skipped sections, in document order, and since measured nodes are distinct each appears once; a header yields at least one page |
| Paginator.PlaceSections | components/ResumeBuilder.tsx:626-678 | after the section loop, the finished pages are valid and the finished pages plus the open page hold exactly the covered items in order |
| Paginator.PlaceSection | components/ResumeBuilder.tsx:627-677 | one section's callback extends the finished pages and the open page by exactly that section's items when it is placed, and by nothing when it is skipped |
| Paginator.PlaceItems | components/ResumeBuilder.tsx:647-675 | the item loop consumes all of the section's items, keeps the open-page invariant, and adds those items in order |
| Paginator.PlaceItem | components/ResumeBuilder.tsx:648-674 | one item is placed after a break or on the open page; the pending chunk is the run of items since its start; nothing is lost or duplicated |
| Paginator.InitialPage | components/ResumeBuilder.tsx:614-616 | the first page starts out holding only the header clone, charged its height |
| Paginator.FinishSection | components/ResumeBuilder.tsx:677 | emitting the pending chunk keeps the open-page invariant and appends exactly the chunk's items |
| Paginator.BreakStep | components/ResumeBuilder.tsx:659-663 | a break finishes a valid page, because the running height was positive and the next chunk would overflow; the new page holds the item |
| Paginator.FreshPage | components/ResumeBuilder.tsx:661-671 | the page opened by a break holds one item, charged its section's title again |
| Paginator.SingleChunkPage | components/ResumeBuilder.tsx:665-671 | a page of one single-item chunk is charged the title plus the item and shows that item |
| Paginator.NoBreakStep | components/ResumeBuilder.tsx:665-674 | placing an item without a break leaves the page within the limit, or showing that one item alone on an empty page |
| Paginator.StartChunk | components/ResumeBuilder.tsx:652-656 | the first item of a section on a page is charged the title, plus the gap when the page already has content |
| Paginator.GrowChunk | components/ResumeBuilder.tsx:671-674 | a later item of a chunk is charged only its own height |
| Paginator.NonEmptyWhenCharged | components/ResumeBuilder.tsx:619-621 | a page charged a positive height has fragments, so a nonzero height never sits on an empty page |
| Paginator.FragmentsOkMeaning | components/ResumeBuilder.tsx:637-645 | each fragment of a valid page is a titled, non-empty run of consecutive items of one section, or the header in the first slot of the first page |
| Paginator.PagesOkMeaning | components/ResumeBuilder.tsx:659-682 | page by page: no page is empty, each fits, each is cut only where the splitter cuts, each break was forced, and the header clone opens the first page |
| Paginator.CutsOkMeaning | components/ResumeBuilder.tsx:637-677 | on a valid page every chunk but the last runs to its section's end and every chunk but the first starts at its section's first item: chunks are emitted only at a break or when their section ends |
| Paginator.CoveredNodesDistinct | components/ResumeBuilder.tsx:626-632 | the items to place are items of the document and no node occurs twice among them, so a split showing exactly them shows each once |
| Paginator.NodesConcat | components/ResumeBuilder.tsx:626-632 | a concatenation of item lists has distinct nodes exactly when both parts do and share none |
| Paginator.SwappedSectionsRejected | components/ResumeBuilder.tsx:626-678 | a page showing the second of two sections above the first does not show the covered items, although each chunk is cut lawfully |
| Paginator.BackToFrontRejected | components/ResumeBuilder.tsx:645-677 | a page showing one section's two items back to front does not show the covered items |
| Paginator.NoSplitWithinPage | components/ResumeBuilder.tsx:648-677 | two small items of one section make one chunk; splitting them into two chunks on one page, which would charge the title twice, is not a valid split |
| Paginator.OversizedItemAfterHeader | components/ResumeBuilder.tsx:659-663 | a 1000px item after a 500px header goes to page 2; putting it on the header's page is not a valid split |
| Paginator.NoHeaderPagesShowItems | components/ResumeBuilder.tsx:614-682 | without a header every page of a valid split opens with a chunk, so a split with a page shows some item |
| Paginator.EveryChunkShowsItems | components/ResumeBuilder.tsx:638-642 | a page whose valid fragments are all section chunks shows at least as many items as it has fragments |
| Paginator.AssembleTwoColumn | components/ResumeBuilder.tsx:705-740 | the sheets show exactly the main pages, and only the first sheet carries the header and side column; with no main page there is one header sheet if there is a header, else none |
| Paginator.SingleColumnSheets | components/ResumeBuilder.tsx:743-753 | one single-column sheet per page, showing that page |
| Paginator.TwoColumnLayout | components/ResumeBuilder.tsx:692-741 | the two-column sheets show every covered item once, in order; every sheet fits; a header gives at least one sheet; only the first sheet is a first page; with main content the sheets' pages are a valid split without header, and without it there is only the empty header sheet, or no sheet |
| Paginator.EmptyMainColumn | components/ResumeBuilder.tsx:730-740 | the header-only sheet shows no items and fits |
| Paginator.SingleColumnLayout | components/ResumeBuilder.tsx:743-753 | the single-column sheets show every covered item once, in order; their pages are a valid split (non-empty, fitting, forced breaks, chunks cut only at breaks or section ends); the header clone opens the first sheet |
| Paginator.Repaginate | components/ResumeBuilder.tsx:686-753 | the early return happens exactly for a two-column template without a side column; otherwise coverage, fit, header placement and sheet kinds hold, and the sheets' pages are a valid split (for two columns, whenever there is main content; else only the empty header sheet, or none) |
| Paginator.NothingSkipped | components/ResumeBuilder.tsx:631 | the section nodes the template renders all have a title and an item, so the splitter places every item of every section |
| Text.ToLower | services/geminiService.ts:8 | the lower-cased text is at least as long as the input and contains no ASCII capital letter |
| Text.ToLowerConcat | services/geminiService.ts:8 | lower-casing distributes over concatenation |
| Text.ToLowerIdempotent | services/geminiService.ts:8 | lower-casing twice is lower-casing once |
| Text.Normalize | services/resumeAnalyzer.ts:114 | the normalised text has the lower-cased length, and holds only word characters and whitespace and no capital letter |
| Text.Split | services/geminiService.ts:9 | splitting on whitespace runs yields at least one piece, even for empty text; no piece contains whitespace |
| Text.SplitMeaning | services/geminiService.ts:9-10 | the pieces concatenate to the text without its whitespace, and there is one more piece than there are whitespace runs |
| Text.WordsMeaning | services/resumeAnalyzer.ts:115 | the words are the non-empty pieces: none is empty or contains whitespace, they concatenate to the text without whitespace, and there is one per run of non-space characters |
| Text.NormalizedWords | services/resumeAnalyzer.ts:114-115 | every character of every word of the normalised text is a lower-case word character |
| Text.Lines | services/resumeAnalyzer.ts:116 | the kept lines contain no newline and none is blank |
| Text.NormalizedNeverContains | services/resumeAnalyzer.ts:114 | a keyword with a character that is neither a word character nor whitespace is never contained in normalised text |
| Text.Round | services/geminiService.ts:44 | the rounded value lies within one half of its argument, halves rounding up |
| Text.ParseNatToString | services/resumeAnalyzer.ts:383-390 | parsing the decimal digits that formatting writes gives back the number |
| Text.PercentRoundTrip | services/resumeAnalyzer.ts:383-391 | the first digits before a `%` in a formatted reason are the percentage written into it |
| Text.FoundMembership | services/resumeAnalyzer.ts:145-147 | a keyword is found iff it is listed and contained in the text |
| Common.FilterMembership | services/resumeAnalyzer.ts:375-377 | an element is kept by the filter iff it is in the input and satisfies the predicate |
| Common.SortDescendingMeaning | services/resumeAnalyzer.ts:389-393 | the sort yields a descending order and a permutation, and keeps the input order among elements with equal keys |
| ResumeAnalyzer.NewAnalyzer | services/resumeAnalyzer.ts:112-117 | the constructor keeps the raw text; the normalised text has the lower-cased length and only lower-case word characters and whitespace; words are non-empty, one per run of non-space characters; no kept line is blank |
| ResumeAnalyzer.UnreachableKeywords | services/resumeAnalyzer.ts:144-147 | 'node.js', 'ci/cd', 'problem-solving' and 'detail-oriented' are never found in any resume |
| ResumeAnalyzer.CategoryScore | services/resumeAnalyzer.ts:148 | a category's score lies in [0, 100] |
| ResumeAnalyzer.WeightedTotalBounds | services/resumeAnalyzer.ts:144-151 | the accumulated weight is non-negative and the weighted total lies between 0 and 100 times it |
| ResumeAnalyzer.KeywordMeanBounds | services/resumeAnalyzer.ts:140-154 | the keyword score lies in [0, 100] for any non-negatively weighted categories |
| ResumeAnalyzer.KeywordMeanIsWeightedSum | services/resumeAnalyzer.ts:9-51 | the fixed category weights sum to 1, so the keyword score is the weighted sum of the category percentages |
| ResumeAnalyzer.KeywordScore | services/resumeAnalyzer.ts:140-154 | the loop computes the weight-averaged mean of the category percentages, or 0 for zero total weight |
| ResumeAnalyzer.FormatPoints | services/resumeAnalyzer.ts:156-193 | the format score lies in [55, 100]; it is 100 iff email, phone, date and bullets are all present, and 55 iff none is |
| ResumeAnalyzer.FormatScore | services/resumeAnalyzer.ts:156-193 | the successive deductions compute the format score |
| ResumeAnalyzer.FindCategoryMeaning | services/resumeAnalyzer.ts:208-209 | the lookup by name fails iff no category has that name, and otherwise yields the first category with that name |
| ResumeAnalyzer.DefaultLookups | services/resumeAnalyzer.ts:255-263 | the lookups for 'Technical Skills' and 'Action Verbs' in the fixed table find its first and second categories |
| ResumeAnalyzer.DefaultCounts | services/resumeAnalyzer.ts:255-263 | with the fixed table, the action-verb and technical-skill counts are the numbers of those lists' keywords found in the text |
| ResumeAnalyzer.ContentPoints | services/resumeAnalyzer.ts:195-225 | the content score lies in [0, 100], and its cap at 100 never binds: the parts never sum to more |
| ResumeAnalyzer.ContentScore | services/resumeAnalyzer.ts:195-225 | the successive additions compute the content score |
| ResumeAnalyzer.LengthScore | services/resumeAnalyzer.ts:227-243 | the length score is one of 40, 60, 80, 100, with each value tied to its word-count ranges in both directions |
| ResumeAnalyzer.AtsScoreBounds | services/resumeAnalyzer.ts:125-133 | the weighted combination lies in [17.75, 100], so the rounded score lies in [18, 100] and the clamp never binds |
| ResumeAnalyzer.StrengthMessagesDistinct | services/resumeAnalyzer.ts:245-289 | the six strength messages are distinct, and none equals the fallback |
| ResumeAnalyzer.StrengthsMeaning | services/resumeAnalyzer.ts:245-292 | each strength is listed iff its condition holds; the list is never empty and has no duplicates; it is exactly the fallback iff no condition holds |
| ResumeAnalyzer.IdentifyStrengths | services/resumeAnalyzer.ts:245-292 | the pushes produce the strengths for the analyzer's counts and signals |
| ResumeAnalyzer.RecommendationsMeaning | services/resumeAnalyzer.ts:294-369 | each recommendation is present iff its condition holds, and no two share an area, so at most one is about content length |
| ResumeAnalyzer.GenerateRecommendations | services/resumeAnalyzer.ts:294-369 | the pushes produce the recommendations for the analyzer's counts and signals |
| ResumeAnalyzer.Percent | services/resumeAnalyzer.ts:380 | the rounded match percentage is at most 100 |
| ResumeAnalyzer.SuggestionKey | services/resumeAnalyzer.ts:380-391 | the sort key parsed back from a suggestion's reason is its rounded match percentage |
| ResumeAnalyzer.QualifyingSound | services/resumeAnalyzer.ts:374-386 | every collected suggestion is the suggestion of a role with enough matching keywords |
| ResumeAnalyzer.QualifyingComplete | services/resumeAnalyzer.ts:374-386 | every role with enough matching keywords has its suggestion collected |
| ResumeAnalyzer.SuggestJobs | services/resumeAnalyzer.ts:371-416 | the filter loop, the sort and the fallback compute the suggested jobs |
| ResumeAnalyzer.SuggestJobsMeaning | services/resumeAnalyzer.ts:371-416 | at most five jobs come back. With some role qualifying they are the first min(5, n) of the stable descending sort of the qualifying roles, each for a qualifying role. With none, they are exactly the three generic roles chosen by whether any technical skill was found |
| ResumeAnalyzer.Analyze | services/resumeAnalyzer.ts:119-138 | the score is the rounded weighted combination and lies in [18, 100]; strengths, recommendations and jobs are those of the analyzer |
| ResumeAnalyzer.AnalyzeResume | services/resumeAnalyzer.ts:419-425 | over the fixed tables: the score is the rounded weighted combination for the analyzer of the text and lies in [18, 100]; the strengths, recommendations and jobs are those for the keyword counts of the normalised text |
| GeminiService.FindingsOf | services/geminiService.ts:8-35 | at most twelve verbs and twelve keywords are found; a technical keyword is found iff it is listed and the lower-cased text contains it |
| GeminiService.RawScore | services/geminiService.ts:13-41 | the unrounded score lies in [37, 107]: the short and long penalties never both apply |
| GeminiService.ScoreBounds | services/geminiService.ts:44 | the final score lies in [37, 100]; the clamp at 0 never binds; it is 100 iff the unrounded score is at least 99.5 |
| GeminiService.Score | services/geminiService.ts:13-44 | the successive additions and deductions, rounded and clamped, compute the score |
| GeminiService.StrengthMessagesDistinct | services/geminiService.ts:48-56 | the five strength messages are distinct and differ from the first default |
| GeminiService.StrengthsMeaning | services/geminiService.ts:47-58 | each strength is listed iff its condition holds; the list is never empty and has no duplicates; it is exactly the two defaults iff no condition holds |
| GeminiService.Strengths | services/geminiService.ts:47-58 | the pushes and the fallback produce the strengths |
| GeminiService.AreasDistinct | services/geminiService.ts:61-115 | the eight possible recommendations have distinct areas |
| GeminiService.RecommendationsMeaning | services/geminiService.ts:61-115 | each recommendation is present iff its condition holds; the areas of the list are distinct; the list is exactly the two defaults iff no condition holds; without an '@' the contact recommendation is present |
| GeminiService.Recommendations | services/geminiService.ts:61-115 | the pushes and the fallback produce the recommendations |
| GeminiService.FillFrom | services/geminiService.ts:165-169 | filling keeps the jobs already chosen as a prefix, and tops up to no more than five |
| GeminiService.FillFromDistinct | services/geminiService.ts:165-169 | when no generic title is already chosen, filling appends the first 5 - n generic roles in their listed order |
| GeminiService.SelectTitlesDistinct | services/geminiService.ts:118-153 | picking some of the specific roles keeps the titles distinct from the generic ones |
| GeminiService.JobTitlesDistinct | services/geminiService.ts:118-163 | the five specific and five generic titles are all distinct |
| GeminiService.JobsClosedForm | services/geminiService.ts:118-177 | at most five specific roles are triggered, and the result is those roles in fixed order followed by generic roles |
| GeminiService.JobsMeaning | services/geminiService.ts:118-177 | exactly five jobs come back with distinct titles; a specific role is among them iff its condition holds; the triggered specific roles come first |
| GeminiService.MatchSpecificJobs | services/geminiService.ts:118-153 | the five guarded pushes select the triggered specific roles in fixed order |
| GeminiService.FillWithGeneric | services/geminiService.ts:156-171 | the fill loop tops short lists up from the generic roles, and leaves lists of five untouched |
| GeminiService.SuggestJobs | services/geminiService.ts:118-177 | the pushes, the fill and the final slice compute the suggested jobs |
| GeminiService.AnalyzeResumeForAts | services/geminiService.ts:4-179 | the score lies in [37, 100]; strengths and recommendations are those of the text; there are exactly five suggested jobs with distinct titles |

## Left out

- Browser measurement (`getBoundingClientRect`, `querySelector`, HTML
  cloning) is not modelled. Measured heights are inputs, and cloned nodes
  are fragment descriptors (section index, first item, item count).
- React scheduling around re-pagination (`renderId`, effect ordering) is
  left out, because it is framework lifecycle.
- PDF export, localStorage save and load, and the drag-and-drop and form
  handlers are left out. They are I/O, foreign libraries or UI that only
  dispatches the modelled actions.
- The regular-expression tests of both analyzers are inputs, not computed:
  email, phone, dates, bullets, headings and quantifier match counts. The
  same holds for the quantified-numbers and phone tests of the heuristic
  scorer.
- The artificial `setTimeout` delays and the `async` wrappers are left out.
- JavaScript floating point is modelled as exact `real` arithmetic.
  Rounding errors in sums such as `0.4 * k + ...` are not captured.
- Strings are sequences of code points, not UTF-16 units. `toLowerCase` is
  modelled on ASCII plus the two non-ASCII characters whose lower case
  contains ASCII letters; other non-ASCII characters are kept unchanged.
  No ASCII keyword test can depend on them.
- Text.Lines: states only that the kept lines are newline-free and
  non-blank, not that they are the non-blank pieces in order, because the
  analyzer's `lines` field is computed but never read.
- ResumeAnalyzer.Analyze: the keyword categories and job roles are
  parameters constrained by `Weighted` and `RolesListed`. The fixed tables
  are used and proved to meet both in `ResumeAnalyzer.AnalyzeResume`.
- GeminiService.JobsMeaning: it requires distinct titles and at least five
  generic roles. The fixed tables meet both (`JobTitlesDistinct`), which is
  how `AnalyzeResumeForAts` uses it.
- ResumeReducer.Reduce: REORDER_SECTIONS requires both indices within the
  order, since the only dispatcher passes row indices of the list. A
  JavaScript splice with out-of-range indices is not modelled.
- ResumeReducer.Reduce: UPDATE_ITEM takes a field from a closed
  enumeration. A field the item does not have leaves it unchanged, where
  JavaScript would add a stray property that nothing renders.
- LOAD_STATE is modelled from an already parsed snapshot. The
  `data && style` guard of the loader is left out together with
  `JSON.parse`.
- GeminiService.FillWithGeneric: the source's `while` loop ends with an
  unconditional `break`, so it runs at most once; it is modelled as an
  `if` around the `for` loop.
- Paginator.TwoColumnLayout: the first two-column page is paginated from
  height 0 without the header, exactly as in the source. The fit
  guarantee is therefore about the main column alone, not the whole A4
  sheet.
- The side column of the two-column layout is not paginated (it is cloned
  whole onto the first page), so no fit property is stated for it.
