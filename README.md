# pano, modelled in Dafny

pano is a viewer for Kubernetes TestGrid results. It has three parts:

- a web frontend that shows one tab of a dashboard as a grid of test rows and build columns;
- `testgrid-explorer`, a command-line client that prints dashboards, tabs and rows;
- a desktop notifier that polls tab summaries and announces tabs that start failing.

This project models the logic at the core of each part and proves properties of it.

**Frontend**

- The cell result domain (`grid_schema.dfy`): result codes, their status names and the pass/fail partition.
- The colour and label of a cell (`grid_cell.dfy`).
- The per-tab filter store (`filter_store.dfy`).
- The row filters and the column window of the grid (`test_grid.dfy`).
- The virtual-scroll window and scroll-to-index computation (`virtual_scroll.dfy`).
- The cells a row renders (`virtual_row.dfy`) and the header strip with its tooltip (`grid_header.dfy`).
- The fuzzy matcher, search and highlighter (`search.dfy`).
- Subscriptions and their ids (`subscription.dfy`) and the subscription store (`subscription_store.dfy`).
- The persisted UI state (`ui_store.dfy`).
- The worst-status reduction (`worst_status.dfy`).

**Command-line client**

- The result constants (`cell_result.dfy`).
- The output helpers (`formatter.dfy`, module `Output`).
- The filter, limit and result-strip logic of `testgrid tabs` (`tabs.dfy`, module `TabsCmd`).

**Desktop notifier**

- The failure edge detector, with its subscriptions and polling flag (`notifications.dfy`).

**Shared helpers**

`text.dfy` and `wrappers.dfy` hold the helpers the modules share:

- ASCII case folding;
- whitespace;
- joining and splitting;
- number formatting;
- JavaScript `slice` and `indexOf`;
- subsequences;
- `Option`.

**How the model is written**

Stores whose state the source replaces field by field are classes. Their methods say what the new state is, and lemmas about the functions behind those methods state what the source promises. Loops in the source are methods with loop invariants, proved against a specification function:

- the word and scan loops of `fuzzyMatch`;
- the highlighting loop;
- the collecting loop of `fuzzySearch`;
- the status-filter scan of a row;
- `formatCellResults`;
- the row and summary filters of `tabs`;
- the notifier's loop over summaries.

Pixel quantities are integers. JavaScript's `Math.floor`/`Math.ceil` of a quotient is written as explicit floor and ceiling division. Fuzzy scores are reals.

**The row window at the bottom of the list**

The window of `useVirtualScroll.ts:59-63` starts at `floor(scrollTop / itemHeight) - overscan` and ends at `ceil((scrollTop + containerHeight) / itemHeight) + overscan`, clamped to the item indices. For `0 <= scrollTop < totalHeight` the item under the top edge is in the window (`VirtualScroll.WindowCoversTopItem`). At `scrollTop == totalHeight` the index under the top edge is the item count, which names no item (`VirtualScroll.TopIndexAtBottomIsNoItem`), so no overscan covers it. With an overscan of at least one the window is then still a non-empty range of real items (`VirtualScroll.WindowBounds`). With an overscan of zero it is empty (`VirtualScroll.WindowEmptyAtBottomWithoutOverscan`). A browser keeps the offset at or below the total height less the viewport height, so the offset reaches the total height only when the viewport is empty.

**The windowed grid header**

`GridHeader.tsx:43-55` defines a header that draws only the columns of the window, shifted left by `start * cellWidth`. The rows of `VirtualRow.tsx:89` are shifted left by the scroll offset instead. The two line up only when the scroll offset is exactly `start * cellWidth` (`GridHeader.WindowedHeaderAlignsIff`). The grid itself uses the simple header of `GridHeader.tsx:143-180`, which is shifted by the scroll offset like the rows and lines up with them at every offset (`GridHeader.SimpleHeaderAlignsWithRows`).

## Model

| member | source | states |
|---|---|---|
| GridSchema.ResultCode | src/shared/schemas/grid.ts:93-96 | a cell with a result reads as that result's code; a cell without one reads as code 0 (no result); a validated cell's code is never negative |
| GridSchema.ResultStatusName | src/shared/schemas/grid.ts:98-102 | the name is the status table's entry for the cell's code, and "unknown" for a code outside the known codes |
| GridSchema.StatusTableCoversKnownCodes | src/shared/schemas/grid.ts:10-49 | the status-name table has an entry for exactly the known result codes |
| GridSchema.KnownCodesDistinct | src/shared/schemas/grid.ts:10-28 | the known result codes are non-negative and pairwise distinct |
| GridSchema.PassFailPartition | src/shared/schemas/grid.ts:104-117 | passing codes are exactly 1, 12, 13 and failing codes exactly 2, 14, 15, 17; no code is both; flaky and intermittent-fail codes are neither; every passing or failing code is a known code |
| GridSchema.IsPassing | src/shared/schemas/grid.ts:104-109 | defines the passing codes as PASS, PASS_WITH_ERRORS and PASS_WITH_SKIPS; GridSchema.PassFailPartition proves they are exactly 1, 12, 13 and disjoint from the failing codes |
| GridSchema.IsFailing | src/shared/schemas/grid.ts:111-117 | defines the failing codes as FAIL, BUILD_FAIL, CATEGORIZED_FAIL and FAIL_EXPECTED; GridSchema.PassFailPartition proves they are exactly 2, 14, 15, 17 |
| GridCell.CellAppearance | src/frontend/components/grid/GridCell.tsx:108-110 | an absent result is read as no-result before colour and label are chosen; without the failure icon such a cell is neutral and labelled "No result" |
| GridCell.FailIconOverrides | src/frontend/components/grid/GridCell.tsx:138-142 | with icon "F" every result code is coloured red and labelled "Fail" |
| GridCell.OtherIconsIgnored | src/frontend/components/grid/GridCell.tsx:138-218 | any icon other than "F" changes neither the colour nor the label |
| GridCell.RedIffFailure | src/frontend/components/grid/GridCell.tsx:138-172 | a cell is red exactly when it carries the failure icon or its code is a failing code |
| GridCell.ColorCategories | src/frontend/components/grid/GridCell.tsx:144-171 | the colour of each group of known codes: passing green, flaky orange, skipped yellow, running pulsing blue, truncated gray, cancelled/timeout/aborted purple, no-result/unknown neutral |
| GridCell.UnknownCodeFallback | src/frontend/components/grid/GridCell.tsx:169-170 | a code outside the table, without the failure icon, is neutral and labelled "Result: " followed by the code |
| GridCell.KnownCodeLabels | src/frontend/components/grid/GridCell.tsx:180-217 | every known code, or the failure icon, gets one of the fixed labels, never the numeric fallback |
| GridCell.CellColor | src/frontend/components/grid/GridCell.tsx:138-172 | defines the colour class of a code and icon: red for icon "F", then by code category, grey otherwise; GridCell.RedIffFailure and GridCell.ColorCategories prove what each colour means |
| GridCell.ResultLabel | src/frontend/components/grid/GridCell.tsx:174-218 | defines the label of a code and icon: "Fail" for icon "F", the code's own label for a known code, "Result: n" otherwise; GridCell.KnownCodeLabels and GridCell.UnknownCodeFallback prove it |
| CellResult.CellResultString | testgrid-explorer/pkg/client/types.go:114-130 | 0, 1, 2, 3 and 6 are named "EMPTY", "PASS", "FAIL", "SKIPPED" and "TRUNCATED"; every other result is "UNKNOWN", and no name is empty |
| CellResult.CellResultNamesDistinct | testgrid-explorer/pkg/client/types.go:114-130 | different named constants get different names |
| CellResult.ConstantsAgreeWithGrid | testgrid-explorer/pkg/client/types.go:105-112 | the command-line constants equal the web client's result codes of the same meaning |
| FilterStore.FilterKey | src/frontend/stores/filterStore.ts:43 | the key is the dashboard name, a slash, then the tab name |
| FilterStore.FilterKeyInjective | src/frontend/stores/filterStore.ts:8-9 | keys identify their tab when dashboard names contain no slash |
| FilterStore.FilterKeyCollision | src/frontend/stores/filterStore.ts:43 | a slash in a dashboard name lets two different tabs share one key ("a/b" + "c" and "a" + "b/c") |
| FilterStore.Lookup | src/frontend/stores/filterStore.ts:45-48 | a tab without stored settings reads as the defaults (all statuses, empty text, failures-only off); otherwise its stored settings |
| FilterStore.SettersAreLocal | src/frontend/stores/filterStore.ts:50-90 | each setter changes only its own field of its own tab, starting from the defaults when the tab had none; every other tab reads as before |
| FilterStore.SettersCommute | src/frontend/stores/filterStore.ts:50-76 | setting the status filter and the text filter of a tab in either order gives the same store |
| FilterStore.ClearRestoresDefaults | src/frontend/stores/filterStore.ts:92-98 | after clearing, the tab reads as the defaults and every other tab is unchanged |
| FilterStore.Store.constructor | src/frontend/stores/filterStore.ts:41 | the store starts with no stored settings |
| FilterStore.Store.SetStatusFilter | src/frontend/stores/filterStore.ts:50-62 | the new map is the old one with the tab's status filter replaced; the tab reads back with that status |
| FilterStore.Store.SetTextFilter | src/frontend/stores/filterStore.ts:64-76 | the new map is the old one with the tab's text filter replaced |
| FilterStore.Store.SetShowOnlyFailures | src/frontend/stores/filterStore.ts:78-90 | the new map is the old one with the tab's failures-only switch replaced |
| FilterStore.Store.ClearFilters | src/frontend/stores/filterStore.ts:92-98 | the tab's entry is removed and the tab reads as the defaults |
| FilterStore.Store.ClearAllFilters | src/frontend/stores/filterStore.ts:100-102 | no settings remain |
| FilterStore.WithStatus | src/frontend/stores/filterStore.ts:50-62 | defines the store after setting one tab's status filter on its current or default settings; FilterStore.SettersAreLocal and FilterStore.SettersCommute prove only that tab changes |
| FilterStore.WithText | src/frontend/stores/filterStore.ts:64-76 | defines the store after setting one tab's text filter; proved local and commuting by FilterStore.SettersAreLocal and FilterStore.SettersCommute |
| FilterStore.WithOnlyFailures | src/frontend/stores/filterStore.ts:78-90 | defines the store after setting one tab's failures-only switch; proved local by FilterStore.SettersAreLocal |
| FilterStore.Store.GetFilters | src/frontend/stores/filterStore.ts:45-48 | reads a tab's settings under its key, the defaults when none are stored (FilterStore.Lookup) |
| VirtualScroll.FloorDiv | src/frontend/hooks/useVirtualScroll.ts:59 | for a positive divisor, the quotient q satisfies b*q <= a < b*q + b (rounding toward minus infinity) |
| VirtualScroll.CeilDiv | src/frontend/hooks/useVirtualScroll.ts:62 | for a positive divisor, the quotient q satisfies b*q - b < a <= b*q (rounding toward plus infinity) |
| VirtualScroll.FloorDivUnique | src/frontend/hooks/useVirtualScroll.ts:59 | the floor quotient is the only k with b*k <= a < b*k + b |
| VirtualScroll.ComputeWindow | src/frontend/hooks/useVirtualScroll.ts:54-78 | no items and offset 0 for an empty list; otherwise exactly the items from the start index to the end index, in order, each at index times item height, and the offset of the first; every index is a real item |
| VirtualScroll.WindowCoversVisible | src/frontend/hooks/useVirtualScroll.ts:59-63 | every item even partly inside the viewport lies between the start and end indices, for any non-negative overscan |
| VirtualScroll.WindowCoversTopItem | src/frontend/hooks/useVirtualScroll.ts:59-63 | for an offset inside the scrollable height, the item under the top edge is a real item inside the window |
| VirtualScroll.WindowBounds | src/frontend/hooks/useVirtualScroll.ts:59-63 | the window is a non-empty range of real indices for offsets in [0, total height), and at total height when the overscan is at least one |
| VirtualScroll.TopIndexAtBottomIsNoItem | src/frontend/hooks/useVirtualScroll.ts:59 | at scrollTop == totalHeight the index under the top edge equals the item count, so it names no item |
| VirtualScroll.WindowEmptyAtBottomWithoutOverscan | src/frontend/hooks/useVirtualScroll.ts:59-63 | at offset equal to the total height with no overscan the window is empty (start 1, end 0) |
| VirtualScroll.WindowInsideTotalHeight | src/frontend/hooks/useVirtualScroll.ts:65-80 | every rendered item lies between 0 and the total height |
| VirtualScroll.WindowExamples | src/frontend/hooks/useVirtualScroll.ts:59-80 | worked windows: offset 320 gives 5..34, offset 0 gives 0..24, offset 2800 of 100 rows gives 82..99; 5000 rows of 32 pixels are 160000 high |
| VirtualScroll.ScrollTarget | src/frontend/hooks/useVirtualScroll.ts:86-100 | start puts the item's top at the offset; center puts the item's middle at the viewport's middle; end puts the item's bottom at the viewport's bottom |
| VirtualScroll.ClampScroll | src/frontend/hooks/useVirtualScroll.ts:102 | a negative target gives 0; a target in [0, totalHeight - containerHeight] is kept; a target past that bound gives the bound; content shorter than the container gives 0; the result is never negative nor past the bound |
| VirtualScroll.ClampIdempotent | src/frontend/hooks/useVirtualScroll.ts:102 | clamping twice is clamping once |
| VirtualScroll.ScrollElement.constructor | src/frontend/hooks/useVirtualScroll.ts:47 | the element starts at the given offset |
| VirtualScroll.ScrollToIndex | src/frontend/hooks/useVirtualScroll.ts:82-106 | without an attached element nothing changes; otherwise the element's offset becomes the clamped target |
| VirtualScroll.ScrollToStartRendersItem | src/frontend/hooks/useVirtualScroll.ts:82-106 | scrolling an item to the top, when the list is long enough, leaves the offset at the item's top, and the window computed there renders the item |
| VirtualScroll.ScrollState.constructor | src/frontend/hooks/useVirtualScroll.ts:46 | the offset starts at 0 |
| VirtualScroll.ScrollState.OnScroll | src/frontend/hooks/useVirtualScroll.ts:49-52 | the recorded offset becomes the container's offset |
| VirtualScroll.StartIndex | src/frontend/hooks/useVirtualScroll.ts:59 | defines the first index to render, floor(scrollTop / itemHeight) - overscan but not below 0; VirtualScroll.WindowCoversVisible proves no visible item starts before it |
| VirtualScroll.EndIndex | src/frontend/hooks/useVirtualScroll.ts:60-63 | defines the last index to render, ceil((scrollTop + containerHeight) / itemHeight) + overscan but at most the last index; VirtualScroll.WindowCoversVisible proves no visible item ends after it |
| VirtualScroll.TotalHeight | src/frontend/hooks/useVirtualScroll.ts:80 | defines the scrollable height as item count times item height; VirtualScroll.WindowInsideTotalHeight proves every rendered item lies inside it |
| TestGrid.RowMatchesStatusFilter | src/frontend/components/grid/TestGrid.tsx:30-60 | the scan answers true exactly when the filter is "all" or one of the first ten cells matches it (pass: a passing code; fail: the failure icon or a failing code; skip, flaky, empty: their codes) |
| TestGrid.FailFilterImpliesFailures | src/frontend/components/grid/TestGrid.tsx:42-45 | a row kept by the "fail" status filter has a failing cell in the sense of the failures-only switch |
| TestGrid.StatusFilterIgnoresOldCells | src/frontend/components/grid/TestGrid.tsx:34-35 | cells after the tenth never change the status filter's answer |
| TestGrid.KeepRows | src/frontend/components/grid/TestGrid.tsx:101-125 | the kept rows are at most as many as the rows, each passes the text, status and failures-only filters, and each is one of the rows |
| TestGrid.FilteredRows | src/frontend/components/grid/TestGrid.tsx:98-100 | without filters every row is shown; with filters the kept rows are shown |
| TestGrid.ActiveFilters | src/frontend/components/grid/TestGrid.tsx:93-95 | filters apply exactly when both a dashboard and a tab name are given and non-empty, and then they are that tab's stored or default settings |
| TestGrid.KeepRowsMembership | src/frontend/components/grid/TestGrid.tsx:101-125 | a row is shown exactly when it is one of the rows and passes all three filters |
| TestGrid.KeepRowsInOrder | src/frontend/components/grid/TestGrid.tsx:101 | the shown rows keep their original order |
| TestGrid.KeepRowsCount | src/frontend/components/grid/TestGrid.tsx:101-125 | a row passing the filters is shown as many times as it is listed; any other row not at all |
| TestGrid.KeepRowsIdempotent | src/frontend/components/grid/TestGrid.tsx:101-125 | filtering the shown rows again changes nothing |
| TestGrid.DefaultFiltersKeepAll | src/frontend/components/grid/TestGrid.tsx:101-125 | the default settings show every row, in order |
| TestGrid.ColumnWindow | src/frontend/components/grid/TestGrid.tsx:141-150 | the column window is the virtualisation window over columns 28 pixels wide, with overscan 5 and the container width less the 350-pixel name column (800 pixels while unmeasured) |
| TestGrid.ColumnWindowCoversVisible | src/frontend/components/grid/TestGrid.tsx:141-150 | every column even partly inside the visible strip is in the window, and the window never goes past the last header |
| TestGrid.ColumnWindowExamples | src/frontend/components/grid/TestGrid.tsx:141-150 | 100 columns scrolled 280 pixels in an unmeasured container render columns 5 to 32; with no headers the window ends at -1 |
| TestGrid.TotalWidth | src/frontend/components/grid/TestGrid.tsx:172 | the content width is the 350-pixel name column when there are no columns, and otherwise ends exactly at the right edge of the last 28-pixel column, so every column fits and nothing is left over |
| TestGrid.GridState.constructor | src/frontend/components/grid/TestGrid.tsx:79-87 | no hovered row, no highlighted column, offset 0 and no selected cell |
| TestGrid.GridState.HandleScroll | src/frontend/components/grid/TestGrid.tsx:152-160 | one scroll event sets both the horizontal offset and the row window's offset; nothing else changes |
| TestGrid.GridState.SetHighlightedRow | src/frontend/components/grid/TestGrid.tsx:258 | the hovered row is replaced; nothing else changes |
| TestGrid.GridState.HandleCellSelect | src/frontend/components/grid/TestGrid.tsx:162-170 | an index naming a shown row selects that row's cell; any other index leaves the selection as it was |
| TestGrid.GridState.CloseDetail | src/frontend/components/grid/TestGrid.tsx:269 | closing the dialog clears the selection only |
| TestGrid.RowHasFailures | src/frontend/components/grid/TestGrid.tsx:63-69 | defines a row with failures as one with some cell whose icon is "F" or whose code (0 when absent) is a failing code |
| TestGrid.TextMatches | src/frontend/components/grid/TestGrid.tsx:103-108 | defines the name search: an empty term passes every row, otherwise the lower-cased name must contain the lower-cased term |
| TestGrid.Keep | src/frontend/components/grid/TestGrid.tsx:101-125 | defines the row filter as the conjunction of the text, status and failures-only tests; TestGrid.KeepRowsMembership proves a row is shown exactly when it passes them |
| TestGrid.RowContainerHeight | src/frontend/components/grid/TestGrid.tsx:137 | the row container height is the smaller of the measured and maximum heights, less 80 pixels for the header and filter bar |
| TestGrid.RowWindow | src/frontend/components/grid/TestGrid.tsx:128-139 | defines the window of filtered rows: 32-pixel rows, overscan 10, in the capped container height |
| TestGrid.RowWindowCoversVisible | src/frontend/components/grid/TestGrid.tsx:128-139 | every filtered row even partly inside the visible part of the row container is in the row window, and the window names no row past the last |
| TestGrid.RowWindowExample | src/frontend/components/grid/TestGrid.tsx:128-139 | 100 rows in a 600-pixel container under a 1000-pixel cap, scrolled 320 pixels, render rows 0 to 37 |
| VirtualRow.VisibleCells | src/frontend/components/grid/VirtualRow.tsx:42-46 | for a window starting at a real column, the visible cells are the row's cells from the start to the window's end clamped to the last cell, and none when the clamped end comes before the start |
| VirtualRow.RenderCells | src/frontend/components/grid/VirtualRow.tsx:93-123 | one rendered cell per visible cell |
| VirtualRow.RenderedCellsMatchColumns | src/frontend/components/grid/VirtualRow.tsx:93-123 | the i-th rendered cell shows the row's cell of column start + i, placed at column × cell width, highlighted exactly when its column or its row is, and clickable, reporting row, column and cell, exactly when the cell has a message |
| VirtualRow.WindowColumnRendered | src/frontend/components/grid/VirtualRow.tsx:42-46 | every column of the window that the row has is rendered, in its place |
| VirtualRow.ShortRowsRenderFewer | src/frontend/components/grid/VirtualRow.tsx:42-46 | a row never renders more cells than it has, and nothing when the window starts past its last cell |
| VirtualRow.ColumnInsideStrip | src/frontend/components/grid/VirtualRow.tsx:40-41 | a header column's cell lies within the strip sized by the header count |
| VirtualRow.RenderedCellsInsideStrip | src/frontend/components/grid/VirtualRow.tsx:40-41 | for a window inside the headers, every rendered cell lies within the header-sized strip, so rows and header stay aligned |
| GridHeader.VisibleHeaders | src/frontend/components/grid/GridHeader.tsx:24 | within bounds, the visible headers are exactly the headers of the window |
| GridHeader.HeaderColumns | src/frontend/components/grid/GridHeader.tsx:50-81 | one header cell per window column, showing that column's header, numbered from 1 and placed at column × cell width |
| GridHeader.SimpleHeaderAlignsWithRows | src/frontend/components/grid/GridHeader.tsx:157-168 | the simple header used by the grid draws the header of every column a row renders (VirtualRow.tsx:89, 106) at the same on-screen offset as that row's cell, for every scroll offset |
| GridHeader.WindowedHeaderAlignsIff | src/frontend/components/grid/GridHeader.tsx:43-55 | the windowed header draws column start + i at the rows' on-screen offset of that column if and only if the scroll offset equals start * cellWidth |
| GridHeader.WindowedHeaderOffsetExample | src/frontend/components/grid/GridHeader.tsx:43-55 | with 28-pixel columns, window start 5 and scroll offset 280, the windowed header sits 140 pixels right of the rows |
| GridHeader.AllHeaderColumns | src/frontend/components/grid/GridHeader.tsx:164-180 | the simple header is the windowed header over all columns |
| GridHeader.NonBlankExtras | src/frontend/components/grid/GridHeader.tsx:122 | the kept extra entries are non-blank entries of the list, in their original order (a subsequence of the list), no more of them than entries |
| GridHeader.NonBlankExtrasMembership | src/frontend/components/grid/GridHeader.tsx:122 | an entry is kept exactly when it is in the list and is not blank |
| GridHeader.NonBlankExtrasCount | src/frontend/components/grid/GridHeader.tsx:122 | a non-blank entry is kept as many times as it is listed; a blank one not at all |
| GridHeader.FormatHeaderTooltip | src/frontend/components/grid/GridHeader.tsx:105-129 | the tooltip is the tooltip lines joined by newlines |
| GridHeader.TooltipShape | src/frontend/components/grid/GridHeader.tsx:105-129 | the build number line comes first, then the ID line iff a build id is given, the start line iff a start time is given, and the extra line, last, iff some extra entry is non-blank |
| GridHeader.ExtraLineIffNonBlank | src/frontend/components/grid/GridHeader.tsx:121-126 | the extra line appears exactly when some extra entry is non-blank |
| Search.Words | src/frontend/hooks/useSearch.ts:37 | one word per piece of the separator split |
| Search.WordOccurs | src/frontend/hooks/useSearch.ts:37 | every word of the split occurs in the text at the start of its piece |
| Search.FuzzyMatch | src/frontend/hooks/useSearch.ts:14-88 | the step-by-step matcher, with its word loop and scan loop, answers what the tiered match function answers |
| Search.WordLoop | src/frontend/hooks/useSearch.ts:37-45 | the word loop answers the word-start tier over the split words |
| Search.ScanLoop | src/frontend/hooks/useSearch.ts:48-64 | the scan loop ends in the state the scan function reaches from the initial state |
| Search.WordTierUnreachable | src/frontend/hooks/useSearch.ts:36-45 | once the substring tier has failed, the word-start tier never answers: a word starting with the query would contain it |
| Search.ScanKeepsInv | src/frontend/hooks/useSearch.ts:53-64 | the scan keeps its invariant: the closed ranges are ordered and separated and, with the open range, spell the query prefix consumed so far |
| Search.ScanCompletes | src/frontend/hooks/useSearch.ts:53-72 | the greedy scan consumes the whole query exactly when the rest of the query is a subsequence of the rest of the text |
| Search.FuzzyTierProperties | src/frontend/hooks/useSearch.ts:47-87 | the fuzzy tier succeeds exactly when the lower-cased query is a subsequence of the lower-cased text; its ranges are then ordered, spell the query, total the query's length, and the score lies in (100, 250] |
| Search.MatchTiers | src/frontend/hooks/useSearch.ts:14-88 | an empty string or a query that is not a subsequence gives no match; an exact match scores 1000 over the whole text; a proper prefix scores in (800, 900) over the query's length; a substring scores in (500, 600) over its first occurrence; a fuzzy match scores in (100, 250] |
| Search.TiersStrictlyOrdered | src/frontend/hooks/useSearch.ts:20-85 | every match of a better tier scores above every match of a worse one |
| Search.MatchExample | src/frontend/hooks/useSearch.ts:30-34 | "main" in "sig-release-main" is answered by the substring tier with the range [12, 16) |
| Search.HighlightMatches | src/frontend/hooks/useSearch.ts:140-164 | no text or no ranges give one plain segment; otherwise, for in-order non-overlapping ranges, the segments reassemble the text and the highlighted ones are exactly the ranges' texts in order |
| Search.MatchSpansWellFormed | src/frontend/hooks/useSearch.ts:14-88 | the ranges of every match are well formed for its text, so highlighting any match reassembles the text |
| Search.SortByScoreCorrect | src/frontend/hooks/useSearch.ts:117-118 | the sort yields non-increasing scores and a permutation of the results |
| Search.InsertByScoreSorted | src/frontend/hooks/useSearch.ts:118 | inserting into non-increasing scores keeps them non-increasing |
| Search.CollectMatches | src/frontend/hooks/useSearch.ts:101-114 | the loop collects exactly Search.MatchRecords: one result per matching item, carrying its match, in item order; hence each result is about a listed item and every matching item has one |
| Search.FuzzySearch | src/frontend/hooks/useSearch.ts:93-120 | the results are exactly Search.TopResults: nothing for a blank query, otherwise the collected matches sorted best score first and cut by slice(0, maxResults); hence sorted, at most maxResults long, each recording its item's match, and complete when the limit does not cut |
| Search.SortKeepsElements | src/frontend/hooks/useSearch.ts:117-118 | sorting keeps the same number of results, each from the input, and every input result is among them |
| Search.SlicePrefix | src/frontend/hooks/useSearch.ts:119 | the cut keeps a prefix of at most maxResults results, all of them when the limit does not cut, and keeps it sorted |
| Search.ScanStepInv | src/frontend/hooks/useSearch.ts:53-64 | one iteration of the scan loop keeps its invariant, whichever of its four branches runs |
| Search.FuzzySpans | src/frontend/hooks/useSearch.ts:66-76 | when the scan consumes the whole query, the ranges after closing the open one are ordered, spell the query and total its length |
| Search.FuzzyScoreBounds | src/frontend/hooks/useSearch.ts:76-82 | ordered ranges totalling the query's length, in a text at least as long, score above 100 and at most 250 |
| Search.SubstringTier | src/frontend/hooks/useSearch.ts:30-34 | when the texts differ and the query is no prefix but occurs, the substring tier answers with the first occurrence |
| Search.InsertByScorePermutes | src/frontend/hooks/useSearch.ts:118 | inserting adds exactly the element to the multiset of results |
| Search.Match | src/frontend/hooks/useSearch.ts:14-88 | defines `fuzzyMatch` as the tiers exact, prefix, substring, word and fuzzy in order; Search.MatchTiers proves the score of each tier and Search.FuzzyMatch computes the same result with loops |
| Search.InsertByScore | src/frontend/hooks/useSearch.ts:118 | defines the insertion step of the sort; Search.InsertByScoreSorted and Search.InsertByScorePermutes prove it keeps the list sorted and adds exactly the one result |
| Search.SortByScore | src/frontend/hooks/useSearch.ts:117-118 | defines the sort by descending score, equal scores kept in input order; Search.SortByScoreCorrect proves it sorted and a permutation |
| Search.MatchRecords | src/frontend/hooks/useSearch.ts:101-114 | defines the results collected before sorting: one per matching item, carrying its match, in item order |
| Search.MatchRecordsProperties | src/frontend/hooks/useSearch.ts:101-114 | the collected results are about a subsequence of the items, in their order, each carrying its item's match, and an item has a result if and only if it is in the list and matches |
| Search.MatchRecordsCover | src/frontend/hooks/useSearch.ts:101-114 | every collected result is about a listed item and carries its match, and every matching item has a result |
| Search.TopResults | src/frontend/hooks/useSearch.ts:93-120 | defines what `fuzzySearch` returns: nothing for a blank query, otherwise the collected results sorted by score and cut by `slice(0, maxResults)` |
| Search.TopResultsAreBest | src/frontend/hooks/useSearch.ts:117-119 | for a non-blank query and a limit n >= 0 the results are min(n, #matches) of the matches, and no match left out scores above any result |
| Search.SortedPrefixIsBest | src/frontend/hooks/useSearch.ts:117-119 | in a list sorted by score, nothing after the first n entries scores above any of them |
| Subscription.Target.TabName | src/shared/schemas/subscription.ts:22-35 | a subscription names a tab exactly when it is a tab or test subscription |
| Subscription.Target.TestName | src/shared/schemas/subscription.ts:30-35 | a subscription names a test exactly when it is a test subscription |
| Subscription.GenerateIdExamples | src/shared/schemas/subscription.ts:100-105 | the dashboard and tab ids of sig-release and kind-master are "dashboard:sig-release" and "tab:sig-release:kind-master" |
| Subscription.GenerateIdTestExample | src/shared/schemas/subscription.ts:106-107 | the id of test e2e-test is "test:sig-release:kind-master:e2e-test" |
| Subscription.DifferentKindsDifferentIds | src/shared/schemas/subscription.ts:100-109 | targets of different kinds never share an id |
| Subscription.IdShape | src/shared/schemas/subscription.ts:100-109 | an id is the kind's tag, a colon and the names joined by colons |
| Subscription.IdInjective | src/shared/schemas/subscription.ts:100-109 | two targets with the same id are equal, provided no name but the last holds a colon |
| Subscription.DashboardIdInjective | src/shared/schemas/subscription.ts:102-103 | dashboard ids identify the dashboard, whatever its name |
| Subscription.IdCollision | src/shared/schemas/subscription.ts:104-107 | two different tab targets, and two different test targets, share an id when a name holds a colon |
| Subscription.DefaultSettingsValid | src/shared/schemas/subscription.ts:58-73 | the default settings have a poll interval inside [30, 3600] seconds, notifications on and no quiet hours |
| Subscription.GenerateId | src/shared/schemas/subscription.ts:100-109 | defines the id as the type tag and the names joined by colons; Subscription.IdShape and Subscription.IdInjective prove its shape and when it is injective |
| SubscriptionStore.FindIndex | src/frontend/stores/subscriptionStore.ts:51 | the index of the first subscription with the id, or -1 exactly when there is none |
| SubscriptionStore.GetSubscription | src/frontend/stores/subscriptionStore.ts:93-95 | nothing exactly when no subscription has the id; otherwise the first one that has it |
| SubscriptionStore.Select | src/frontend/stores/subscriptionStore.ts:71 | the selected subscriptions meet the criterion and are no more than the list |
| SubscriptionStore.SelectMembership | src/frontend/stores/subscriptionStore.ts:71 | a subscription is selected exactly when it is in the list and meets the criterion |
| SubscriptionStore.SelectInOrder | src/frontend/stores/subscriptionStore.ts:71 | the selection keeps the list's order |
| SubscriptionStore.SelectCount | src/frontend/stores/subscriptionStore.ts:71 | an entry meeting the criterion is selected as many times as it is listed; any other entry not at all |
| SubscriptionStore.SelectIdempotent | src/frontend/stores/subscriptionStore.ts:71 | selecting twice selects the same |
| SubscriptionStore.SelectAll | src/frontend/stores/subscriptionStore.ts:71 | when every subscription meets the criterion, the whole list is selected |
| SubscriptionStore.SelectKeepsUnique | src/frontend/stores/subscriptionStore.ts:71 | a selection from a list with distinct ids has distinct ids |
| SubscriptionStore.QueriesAreFilters | src/frontend/stores/subscriptionStore.ts:98-105 | the by-type and by-dashboard queries return exactly the subscriptions of that type or dashboard, in order |
| SubscriptionStore.SubscribeProperties | src/frontend/stores/subscriptionStore.ts:49-66 | after subscribing the target is subscribed, ids stay distinct, and the list grows by one only when the target was not already subscribed |
| SubscriptionStore.SubscribeIdempotent | src/frontend/stores/subscriptionStore.ts:50-55 | subscribing to the same target twice changes nothing the second time |
| SubscriptionStore.RemoveIdProperties | src/frontend/stores/subscriptionStore.ts:69-73 | unsubscribing removes every subscription with the id and keeps all others in order; an unknown id changes nothing |
| SubscriptionStore.UnsubscribeByTargetProperty | src/frontend/stores/subscriptionStore.ts:76-79 | unsubscribing from a target just subscribed leaves it unsubscribed |
| SubscriptionStore.IdSet | src/frontend/stores/subscriptionStore.ts:119 | the set holds exactly the ids of the list |
| SubscriptionStore.MergeProperties | src/frontend/stores/subscriptionStore.ts:117-122 | the merge keeps the existing subscriptions first and appends, in import order, exactly the imported ones whose id is not already present |
| SubscriptionStore.MergeSelf | src/frontend/stores/subscriptionStore.ts:117-122 | importing the store's own list adds nothing |
| SubscriptionStore.MergeKeepsUnique | src/frontend/stores/subscriptionStore.ts:117-122 | merging two lists with distinct ids keeps ids distinct |
| SubscriptionStore.ImportCanDuplicate | src/frontend/stores/subscriptionStore.ts:119-120 | an import that repeats an id is not deduplicated against itself |
| SubscriptionStore.MergeExample | src/frontend/stores/subscriptionStore.ts:117-125 | importing a known and a new subscription adds only the new one |
| SubscriptionStore.PatchProperties | src/frontend/stores/subscriptionStore.ts:136-141 | a settings update takes each given field and keeps every other, an empty update changes nothing, and applying an update twice is applying it once |
| SubscriptionStore.PatchValidity | src/frontend/stores/subscriptionStore.ts:136-141 | an update with an in-range interval keeps valid settings valid, and the update checks nothing: a 5-second interval is stored |
| SubscriptionStore.UpdateExample | src/frontend/stores/subscriptionStore.ts:136-141 | turning notifications off with a 120-second interval on the defaults gives exactly those settings |
| SubscriptionStore.Store.constructor | src/frontend/stores/subscriptionStore.ts:44-46 | the store starts with no subscriptions and the default settings |
| SubscriptionStore.Store.Subscribe | src/frontend/stores/subscriptionStore.ts:49-66 | the list becomes the subscribed list; the target is subscribed; settings unchanged |
| SubscriptionStore.Store.Unsubscribe | src/frontend/stores/subscriptionStore.ts:69-73 | every subscription with the id is removed; settings unchanged |
| SubscriptionStore.Store.UnsubscribeByTarget | src/frontend/stores/subscriptionStore.ts:76-79 | the target's id is removed, so the target is no longer subscribed |
| SubscriptionStore.Store.ClearAll | src/frontend/stores/subscriptionStore.ts:82-84 | the list is emptied; settings unchanged |
| SubscriptionStore.Store.ImportFromJson | src/frontend/stores/subscriptionStore.ts:113-133 | a missing or wrong-version import fails with count 0 and changes nothing; otherwise the list becomes the merge and the count is the number of subscriptions added |
| SubscriptionStore.Store.UpdateNotificationSettings | src/frontend/stores/subscriptionStore.ts:136-141 | the settings become the patched settings; the list is unchanged |
| SubscriptionStore.IsSubscribed | src/frontend/stores/subscriptionStore.ts:87-90 | defines a target as subscribed when some entry has the target's id |
| SubscriptionStore.ByKind | src/frontend/stores/subscriptionStore.ts:98-100 | defines the entries of one type; SubscriptionStore.QueriesAreFilters proves they are exactly the entries of that type, in order |
| SubscriptionStore.ByDashboard | src/frontend/stores/subscriptionStore.ts:103-105 | defines the entries of one dashboard; SubscriptionStore.QueriesAreFilters proves they are exactly those entries, in order |
| SubscriptionStore.AfterSubscribe | src/frontend/stores/subscriptionStore.ts:49-66 | defines the list after subscribing: the new entry appended unless its id is present; SubscriptionStore.SubscribeProperties and SubscriptionStore.SubscribeIdempotent prove it |
| SubscriptionStore.RemoveId | src/frontend/stores/subscriptionStore.ts:69-73 | defines the list after unsubscribing: every entry with the id removed; SubscriptionStore.RemoveIdProperties proves it |
| SubscriptionStore.Merge | src/frontend/stores/subscriptionStore.ts:117-122 | defines the import: the existing entries, then the imported entries whose id is not already present; SubscriptionStore.MergeProperties proves it |
| SubscriptionStore.ApplyPatch | src/frontend/stores/subscriptionStore.ts:136-141 | defines `{ ...settings, ...patch }` field by field; SubscriptionStore.PatchProperties proves that given fields replace the current values, absent fields keep them, and the empty patch changes nothing |
| UiStore.RemoveAll | src/frontend/stores/uiStore.ts:54 | the result lacks the name and is no longer than the list |
| UiStore.RemoveAllProperties | src/frontend/stores/uiStore.ts:54 | a name survives exactly when it was listed and is not the removed one; order is kept; removing an absent name changes nothing |
| UiStore.RemoveAllCount | src/frontend/stores/uiStore.ts:54 | every other name keeps all of its copies; the removed name has none |
| UiStore.RemoveAllKeepsNoDuplicates | src/frontend/stores/uiStore.ts:54 | removing from a list without repeats leaves one without repeats |
| UiStore.AppendNewKeepsNoDuplicates | src/frontend/stores/uiStore.ts:55 | appending an unlisted name keeps a list without repeats |
| UiStore.ToggleProperties | src/frontend/stores/uiStore.ts:51-56 | toggling lists the name exactly when it was not listed, leaves every other name as it was, and keeps a list without repeats |
| UiStore.ToggleTwice | src/frontend/stores/uiStore.ts:51-56 | toggling twice lists the same names, and restores the very list when the name was absent |
| UiStore.RemoveAllAppended | src/frontend/stores/uiStore.ts:53-55 | removing a name just appended to a list without it gives back the list |
| UiStore.ExpandProperties | src/frontend/stores/uiStore.ts:57-62 | expanding lists the name, changes nothing when it was listed, is idempotent and keeps a list without repeats |
| UiStore.CollapseProperties | src/frontend/stores/uiStore.ts:63-66 | collapsing unlists the name, keeps the others in order and keeps a list without repeats |
| UiStore.UiState.constructor | src/frontend/stores/uiStore.ts:44-96 | sidebar open, nothing expanded, empty closed search, no focus target |
| UiStore.UiState.SetSidebarCollapsed | src/frontend/stores/uiStore.ts:46 | only the sidebar flag changes, to the given value |
| UiStore.UiState.ToggleSidebar | src/frontend/stores/uiStore.ts:47 | only the sidebar flag changes, to its negation |
| UiStore.UiState.ToggleGroup | src/frontend/stores/uiStore.ts:51-56 | only the expanded groups change, toggled by the name |
| UiStore.UiState.ExpandGroup | src/frontend/stores/uiStore.ts:57-62 | only the expanded groups change, expanded by the name |
| UiStore.UiState.CollapseGroup | src/frontend/stores/uiStore.ts:63-66 | only the expanded groups change, collapsed by the name |
| UiStore.UiState.ToggleDashboard | src/frontend/stores/uiStore.ts:70-75 | only the expanded dashboards change, toggled by the name |
| UiStore.UiState.ExpandDashboard | src/frontend/stores/uiStore.ts:76-81 | only the expanded dashboards change, expanded by the name |
| UiStore.UiState.CollapseDashboard | src/frontend/stores/uiStore.ts:82-85 | only the expanded dashboards change, collapsed by the name |
| UiStore.UiState.SetSearchQuery | src/frontend/stores/uiStore.ts:89 | only the query changes |
| UiStore.UiState.SetSearchOpen | src/frontend/stores/uiStore.ts:91 | only the open flag changes |
| UiStore.UiState.SetFocusTarget | src/frontend/stores/uiStore.ts:95 | only the focus target changes |
| UiStore.UiState.ClearFocusTarget | src/frontend/stores/uiStore.ts:96 | only the focus target changes, to none |
| UiStore.Toggle | src/frontend/stores/uiStore.ts:51-56 | defines toggling: remove the name when present, append it otherwise; UiStore.ToggleProperties and UiStore.ToggleTwice prove it |
| UiStore.Expand | src/frontend/stores/uiStore.ts:57-62 | defines expanding: append the name unless present; UiStore.ExpandProperties proves it |
| UiStore.Collapse | src/frontend/stores/uiStore.ts:63-66 | defines collapsing: remove every occurrence of the name; UiStore.CollapseProperties proves it |
| WorstStatus.Priority | src/frontend/hooks/useTestGridApi.ts:112-117 | every status has a priority from 0 to 3 |
| WorstStatus.PriorityInjective | src/frontend/hooks/useTestGridApi.ts:112-117 | different statuses have different priorities |
| WorstStatus.ReduceMinimal | src/frontend/hooks/useTestGridApi.ts:119-121 | the reduction gives its start value or a listed status, and nothing listed or at the start is worse |
| WorstStatus.WorstStatusProperties | src/frontend/hooks/useTestGridApi.ts:111-122 | an empty list gives PASSING; otherwise the result is PASSING or a listed status, no listed status is worse, and any FAILING makes it FAILING |
| WorstStatus.WorstStatusOrderIndependent | src/frontend/hooks/useTestGridApi.ts:111-122 | the result depends only on which statuses occur, not on their order or repetition |
| WorstStatus.GetWorstStatus | src/frontend/hooks/useTestGridApi.ts:111-122 | defines the worst status as the reduction from PASSING by lower priority; WorstStatus.WorstStatusProperties and WorstStatus.WorstStatusOrderIndependent prove it |
| Output.Writer.constructor | testgrid-explorer/pkg/output/formatter.go:20-23 | a fresh writer has written nothing |
| Output.Writer.Write | testgrid-explorer/pkg/output/formatter.go:22 | writing appends the text to what was written |
| Output.PrintRow | testgrid-explorer/pkg/output/formatter.go:56-59 | a row appends its values joined by tabs and a newline |
| Output.RowRoundTrip | testgrid-explorer/pkg/output/formatter.go:56-59 | splitting a printed row on tabs gives back the values when none holds a tab |
| Output.Formatter.constructor | testgrid-explorer/pkg/output/formatter.go:25-31 | the formatter keeps the writer and the format it was given |
| Output.Formatter.Print | testgrid-explorer/pkg/output/formatter.go:33-47 | the JSON format writes the encoded data and never calls the table function; any other format calls it once and writes what it writes |
| Output.StatusColor | testgrid-explorer/pkg/output/formatter.go:61-75 | PASSING and PASS are green, FAILING and FAIL red, FLAKY yellow and STALE gray, in any letter case; every other status gets no colour |
| Output.StatusColorIgnoresCase | testgrid-explorer/pkg/output/formatter.go:63 | statuses equal up to case get the same colour |
| Output.ResetColor | testgrid-explorer/pkg/output/formatter.go:77-80 | the reset sequence is ESC [ 0 m, four characters, different from every colour |
| Output.ColorStatus | testgrid-explorer/pkg/output/formatter.go:82-89 | an uncoloured status comes back unchanged; a coloured one is its colour, the status text and the reset sequence |
| Output.ColorStatusExamples | testgrid-explorer/pkg/output/formatter.go:82-89 | PASSING is wrapped in green and reset; an unknown or empty status gets no colour |
| Output.TruncateString | testgrid-explorer/pkg/output/formatter.go:91-100 | the string comes back unchanged exactly when it fits; otherwise it is cut to maxLen characters, the last three replaced by "..." when maxLen exceeds 3 |
| Output.TruncateIdempotent | testgrid-explorer/pkg/output/formatter.go:91-100 | truncating twice is truncating once |
| Output.TruncateKeepsPrefix | testgrid-explorer/pkg/output/formatter.go:91-100 | the result starts with a prefix of the string, up to the ellipsis |
| Output.TruncateExamples | testgrid-explorer/pkg/output/formatter.go:91-100 | "short" fits in 10, "abcd" cut to 3 is "abc", and a 23-character string cut to 10 is "this is..." |
| Notifications.StatusFrom | apps/desktop/src-tauri/src/notifications.rs:49-59 | exactly PASSING, FAILING, FLAKY and STALE, spelled in capitals, map to their statuses; anything else is Unknown |
| Notifications.StatusFromIsCaseSensitive | apps/desktop/src-tauri/src/notifications.rs:51-56 | "failing" in lower case is Unknown |
| Notifications.StepProperties | apps/desktop/src-tauri/src/notifications.rs:131-159 | an unwatched summary sends nothing and records nothing; a watched one is announced, titled with its tab, exactly when it is failing now and its key was not recorded as failing, and afterwards the key holds the current status while every other key keeps its record |
| Notifications.FailingTwiceNotifiesOnce | apps/desktop/src-tauri/src/notifications.rs:146-159 | the same failing summary seen twice in a row is announced once |
| Notifications.RecoveryRearms | apps/desktop/src-tauri/src/notifications.rs:146-159 | a tab seen passing and then failing is announced again |
| Notifications.RunSnoc | apps/desktop/src-tauri/src/notifications.rs:131-160 | processing one more summary appends its announcement, if any, and takes its record |
| Notifications.RunIgnoresUnwatched | apps/desktop/src-tauri/src/notifications.rs:136-143 | summaries no subscription watches send nothing and leave the record as it was |
| Notifications.Notifier.constructor | apps/desktop/src-tauri/src/notifications.rs:8-14 | no subscriptions, no records and polling off |
| Notifications.Notifier.SetSubscriptions | apps/desktop/src-tauri/src/notifications.rs:66-69 | the subscription list is replaced as a whole; nothing else changes |
| Notifications.Notifier.StartPolling | apps/desktop/src-tauri/src/notifications.rs:71-96 | when polling is already on nothing changes; otherwise polling turns on with the interval raised to at least one minute |
| Notifications.Notifier.StopPolling | apps/desktop/src-tauri/src/notifications.rs:98-100 | polling turns off; nothing else changes |
| Notifications.Notifier.ProcessSummary | apps/desktop/src-tauri/src/notifications.rs:131-159 | one summary announces and records what the step says |
| Notifications.Notifier.ProcessSummaries | apps/desktop/src-tauri/src/notifications.rs:131-160 | the loop over a dashboard's summaries announces, in order, and records what processing them one by one gives |
| Notifications.StatusKeyCollision | apps/desktop/src-tauri/src/notifications.rs:132 | a dashboard or tab name holding a colon lets two different tabs share one status record |
| Notifications.IsSubscribed | apps/desktop/src-tauri/src/notifications.rs:136-139 | defines a summary as watched when some subscription names its dashboard and either no tab or this tab |
| Notifications.Step | apps/desktop/src-tauri/src/notifications.rs:131-159 | defines the handling of one summary; Notifications.StepProperties proves when it announces and how it updates the record |
| Notifications.Run | apps/desktop/src-tauri/src/notifications.rs:131-160 | defines the handling of the summaries in order; Notifications.RunSnoc and Notifications.RunIgnoresUnwatched prove it |
| Notifications.Notifier.IsPolling | apps/desktop/src-tauri/src/notifications.rs:102-104 | reads the polling flag |
| TabsCmd.StatusToResult | testgrid-explorer/pkg/cmd/tabs.go:216-227 | PASS or PASSING give the pass code, FAIL or FAILING the fail code, SKIP or SKIPPED the skipped code, in any case; anything else gives -1 |
| TabsCmd.StatusToResultIgnoresCase | testgrid-explorer/pkg/cmd/tabs.go:217 | flags equal up to case select the same result |
| TabsCmd.Symbol | testgrid-explorer/pkg/cmd/tabs.go:238-249 | the check mark exactly for pass, the cross exactly for fail, the dash exactly for skipped, the ellipsis exactly for truncated, and the dot for every other result |
| TabsCmd.ShownCount | testgrid-explorer/pkg/cmd/tabs.go:231-234 | all cells get a symbol when they fit, otherwise maxCells of them |
| TabsCmd.Symbols | testgrid-explorer/pkg/cmd/tabs.go:236-250 | one symbol per leading cell, in order |
| TabsCmd.SymbolsSnoc | testgrid-explorer/pkg/cmd/tabs.go:236-250 | one more cell appends its symbol |
| TabsCmd.MoreNote | testgrid-explorer/pkg/cmd/tabs.go:252-254 | the note appears exactly when there are more cells than maxCells |
| TabsCmd.FormatCellResults | testgrid-explorer/pkg/cmd/tabs.go:229-257 | the builder loop writes the symbols of the leading cells and then the note |
| TabsCmd.FormattedResultsShape | testgrid-explorer/pkg/cmd/tabs.go:205 | for twenty columns: one symbol for each of the first twenty cells at most, then the note exactly when cells were left out |
| TabsCmd.FormattedResultsTail | testgrid-explorer/pkg/cmd/tabs.go:229-257 | cells past the limit change only the count in the note: a long row's strip is its first maxCells cells' strip followed by " (+N more)" |
| TabsCmd.RowsWithResult | testgrid-explorer/pkg/cmd/tabs.go:186-193 | no more rows than given |
| TabsCmd.RowsWithResultAppend | testgrid-explorer/pkg/cmd/tabs.go:186-193 | filtering a concatenation filters each part |
| TabsCmd.RowsWithResultProperties | testgrid-explorer/pkg/cmd/tabs.go:186-193 | a row is kept exactly when it is listed and some cell has the target result; order is kept |
| TabsCmd.RowsWithResultCount | testgrid-explorer/pkg/cmd/tabs.go:186-193 | a row with the target result is kept as many times as it is listed; any other row not at all |
| TabsCmd.FilterRowsByResult | testgrid-explorer/pkg/cmd/tabs.go:183-194 | the nested loop with its early exit keeps exactly the filtered rows |
| TabsCmd.SelectRows | testgrid-explorer/pkg/cmd/tabs.go:181-199 | the rows shown are the filtered rows cut to a positive limit |
| TabsCmd.ShownRowsProperties | testgrid-explorer/pkg/cmd/tabs.go:181-210 | the shown rows are the leading filtered rows, no more than all rows nor a positive limit, all of them when the limit does not cut, and each kept row has a cell with the flag's result; with no flag and no limit every row is shown |
| TabsCmd.UnknownStatusSelectsMinusOne | testgrid-explorer/pkg/cmd/tabs.go:184 | an unknown flag targets -1, so rows whose cells all have non-negative results are all filtered out |
| TabsCmd.SummariesWithStatus | testgrid-explorer/pkg/cmd/tabs.go:76-80 | no more summaries than given |
| TabsCmd.SummariesWithStatusAppend | testgrid-explorer/pkg/cmd/tabs.go:76-80 | filtering a concatenation filters each part |
| TabsCmd.SummariesWithStatusProperties | testgrid-explorer/pkg/cmd/tabs.go:76-80 | a summary is kept exactly when it is listed and its status equals the flag ignoring case; order is kept |
| TabsCmd.SummariesWithStatusCount | testgrid-explorer/pkg/cmd/tabs.go:76-80 | a summary whose status matches the flag is kept as many times as it is listed; any other not at all |
| TabsCmd.FilterSummaries | testgrid-explorer/pkg/cmd/tabs.go:72-81 | an empty flag keeps every summary; otherwise the loop keeps exactly the filtered summaries |
| TabsCmd.FormattedResults | testgrid-explorer/pkg/cmd/tabs.go:229-257 | defines what `formatCellResults` writes: the symbols of the first cells, then the note on the rest; TabsCmd.FormattedResultsShape and TabsCmd.FormatCellResults prove it |
| TabsCmd.ShownRows | testgrid-explorer/pkg/cmd/tabs.go:181-199 | defines the rows printed: filtered by status when one is given, then cut to a positive limit; TabsCmd.ShownRowsProperties proves it |

## Left out

- Network I/O. This covers the TestGrid API clients of the frontend and of the command-line client, the notifier's HTTP fetch, and the query hooks and cache settings of `useTestGridApi.ts`. Responses enter the model as already-decoded values.
- Concurrency. This covers the notifier's polling thread, its timer, and the global mutexes and atomic flag. The notifier is a sequential object: one summary is processed at a time, and polling is a flag plus an interval.
- The notifier's grouping of subscriptions by dashboard, a hash set iterated in no fixed order. The model processes the summaries of one dashboard at a time.
- `send_notification`, the application handle and `init`. The announcement is returned as a value instead.
- `Notifications.Notifier.StartPolling`: the interval is an unbounded natural number. The 64-bit overflow of `interval_minutes * 60` for huge intervals is not modelled.
- React rendering, the DOM, CSS classes, hover callbacks and memoisation. Only the values the components compute are modelled.
- These components are not part of this model: SearchModal and the other navigation and subscription views.
- Schema validation and JSON. Validated values are datatypes. `importFromJson` takes the parse result as an `Option` (`None` when the JSON does not parse); a wrong version is a validation failure. `exportToJson`, the storage module and the persistence middleware of the stores are not modelled.
- Clocks. `createdAt` is a parameter of subscribing. `formatHeaderTime` depends on the current time and is left out. The locale rendering of a header's start time is a function parameter of the tooltip. The tooltip's `catch` branch is not modelled, because constructing a date does not throw there.
- Text is a sequence of characters. Case folding (`toLowerCase`, `strings.ToUpper`, `strings.EqualFold`) covers ASCII letters only, and trimming covers ASCII whitespace only. Go's byte lengths in `TruncateString` are modelled as character counts, which agree on ASCII text.
- `Search.SortByScore`: the sort is an insertion sort that keeps equal scores in input order, as JavaScript's stable `Array.prototype.sort` does with the comparator `b.score - a.score`. The model does not claim to be the engine's algorithm, only to produce the same order. Scores are reals, not floating-point numbers.
- `Search.FuzzySearch`: the limit is always passed. The default of 50 that `fuzzySearch` (useSearch.ts:97) and the `useSearch` hook (useSearch.ts:129-133) give it when the caller omits it is not modelled, because Dafny has no default arguments; passing 50 gives that behaviour. The `useMemo` wrapper of `useSearch` is left out with the rest of React.
- `VirtualScroll.ComputeWindow`: the overscan is always passed. The default of 5 that `useVirtualScroll` (useVirtualScroll.ts:44) gives it when the caller omits it is not modelled, because Dafny has no default arguments; the grid passes 10 (TestGrid.tsx:138), and passing 5 gives the default behaviour.
- Scroll positions are integers. The scroll-to-index target is a real, because half a container height may be fractional. Smooth scrolling is not modelled.
- `Output.TruncateString`: requires a non-negative length, because a negative one makes the Go slice expression panic.
- `Output.Formatter.Print`: the JSON encoding and the table function are represented by the text they would write. Errors returned by the table function or the encoder are not modelled. `TableWriter` column alignment is not modelled.
- The `list`, `summary` and `headers` subcommands of `testgrid tabs` only print what they fetch, and are left out. Cobra command registration and flag parsing are left out too; the flags are parameters.
- `SubscriptionStore.Store.UpdateNotificationSettings`: it stores whatever interval it is given, as the store does. `SubscriptionStore.PatchValidity` shows that it does not keep the interval range that loading checks.
- Status-record keys of the notifier and subscription ids join names with a colon, and filter keys join them with a slash. A separator inside a name makes two targets collide. The collisions are stated (`Subscription.IdCollision`, `FilterStore.FilterKeyCollision`, `Notifications.StatusKeyCollision`), and the code's behaviour is kept.
- The grid's `highlightedColumn` is never updated by the grid. It is a constant field of `TestGrid.GridState`.
