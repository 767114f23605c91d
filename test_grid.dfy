/** The grid composer: row filtering, the column window shared by every row, and the
    grid's interaction state (hovered row, horizontal offset, selected cell). */
module TestGrid {
  import opened Wrappers
  import opened Text
  import opened GridSchema
  import opened FilterStore
  import VirtualScroll

  const CELL_WIDTH := 28
  const ROW_HEIGHT := 32
  const ROW_NAME_WIDTH := 350
  const COLUMN_OVERSCAN := 5
  const ROW_OVERSCAN := 10
  /** Only the most recent cells of a row are inspected by the status filter. */
  const STATUS_WINDOW := 10
  /** Height taken by the header and the filter bar. */
  const CHROME_HEIGHT := 80
  /** Width assumed while the container has not been measured. */
  const DEFAULT_CLIENT_WIDTH := 800

  /** A cell counts as a failure when its icon is "F" or its code is a failing code. */
  predicate CellIsFailure(cell: Cell) {
    cell.icon == Some("F") || IsFailing(ResultCode(cell))
  }

  /** Whether one cell satisfies a (non-`all`) status filter. */
  predicate CellMatchesStatus(cell: Cell, filter: StatusFilter) {
    match filter
    case All => true
    case Pass => IsPassing(ResultCode(cell))
    case Fail => CellIsFailure(cell)
    case Skip => ResultCode(cell) == SKIPPED
    case Flaky => ResultCode(cell) == FLAKY || ResultCode(cell) == CATEGORIZED_INTERMITTENT_FAIL
    case Empty => ResultCode(cell) == NO_RESULT
  }

  /** The number of leading cells the status filter looks at. */
  function StatusWindow(row: Row): nat {
    if |row.cells| < STATUS_WINDOW then |row.cells| else STATUS_WINDOW
  }

  /** The status filter's meaning: `all` keeps everything, any other choice needs a matching
      cell among the first ten. */
  predicate StatusFilterHolds(row: Row, filter: StatusFilter) {
    filter == All || exists i :: 0 <= i < StatusWindow(row) && CellMatchesStatus(row.cells[i], filter)
  }

  /** `rowMatchesStatusFilter`: scan the first ten cells, stopping at the first match. */
  method RowMatchesStatusFilter(row: Row, filter: StatusFilter) returns (matches: bool)
    ensures matches == StatusFilterHolds(row, filter)
  {
    if filter == All {
      return true;
    }
    var n := StatusWindow(row);
    for i := 0 to n
      invariant forall k :: 0 <= k < i ==> !CellMatchesStatus(row.cells[k], filter)
    {
      if CellMatchesStatus(row.cells[i], filter) {
        return true;
      }
    }
    return false;
  }

  /** `rowHasFailures`: some cell of the row is a failure. */
  predicate RowHasFailures(row: Row) {
    exists i :: 0 <= i < |row.cells| && CellIsFailure(row.cells[i])
  }

  /** A row passes the `fail` status filter only if it has failures. */
  lemma FailFilterImpliesFailures(row: Row)
    requires StatusFilterHolds(row, Fail)
    ensures RowHasFailures(row)
  {
    var i :| 0 <= i < StatusWindow(row) && CellMatchesStatus(row.cells[i], Fail);
    assert CellIsFailure(row.cells[i]);
  }

  /** Cells after the tenth never affect the status filter: a row filters like its first ten
      cells followed by anything else (or by nothing, for a shorter row). */
  lemma StatusFilterIgnoresOldCells(row: Row, filter: StatusFilter, later: seq<Cell>)
    requires |row.cells| >= STATUS_WINDOW || later == []
    ensures StatusFilterHolds(row, filter) == StatusFilterHolds(Row(row.name, row.cells[..StatusWindow(row)] + later), filter)
  {
    var row' := Row(row.name, row.cells[..StatusWindow(row)] + later);
    assert StatusWindow(row') == StatusWindow(row);
    assert forall i :: 0 <= i < StatusWindow(row) ==> row'.cells[i] == row.cells[i];
  }

  /** The case-insensitive name search: an empty term matches every name. */
  predicate TextMatches(term: string, name: string) {
    term == [] || Includes(Lower(name), Lower(term))
  }

  /** Whether a row survives the tab's filters. */
  predicate Keep(row: Row, filters: Filters) {
    TextMatches(filters.textFilter, row.name) &&
    (filters.statusFilter == All || StatusFilterHolds(row, filters.statusFilter)) &&
    (!filters.showOnlyFailures || RowHasFailures(row))
  }

  /** `rows.filter(...)` with the tab's filters. */
  function KeepRows(rows: seq<Row>, filters: Filters): (kept: seq<Row>)
    ensures |kept| <= |rows|
    ensures forall k :: 0 <= k < |kept| ==> Keep(kept[k], filters) && kept[k] in rows
  {
    if rows == [] then []
    else if Keep(rows[0], filters) then [rows[0]] + KeepRows(rows[1..], filters)
    else KeepRows(rows[1..], filters)
  }

  /** `filteredRows`: without filters (no dashboard or tab) every row is shown. */
  function FilteredRows(rows: seq<Row>, filters: Option<Filters>): (shown: seq<Row>)
    ensures filters.None? ==> shown == rows
    ensures filters.Some? ==> shown == KeepRows(rows, filters.value)
  {
    match filters
    case None => rows
    case Some(f) => KeepRows(rows, f)
  }

  /** The filters in force: only when both a dashboard and a tab name are given (and non-empty). */
  function ActiveFilters(store: map<string, Filters>, dashboard: Option<string>, tab: Option<string>): (f: Option<Filters>)
    ensures f.Some? <==> dashboard.Some? && dashboard.value != "" && tab.Some? && tab.value != ""
    ensures f.Some? ==> f.value == Lookup(store, FilterKey(dashboard.value, tab.value))
  {
    if dashboard.Some? && dashboard.value != "" && tab.Some? && tab.value != "" then
      Some(Lookup(store, FilterKey(dashboard.value, tab.value)))
    else None
  }

  /** A row is shown exactly when it is one of the rows and passes the filters. */
  lemma {:induction false} KeepRowsMembership(rows: seq<Row>, filters: Filters, row: Row)
    ensures row in KeepRows(rows, filters) <==> row in rows && Keep(row, filters)
  {
    if rows != [] {
      KeepRowsMembership(rows[1..], filters, row);
      assert rows == [rows[0]] + rows[1..];
    }
  }

  /** A row passing the filters keeps every one of its copies; any other row has none. */
  lemma {:induction false} KeepRowsCount(rows: seq<Row>, filters: Filters, row: Row)
    ensures multiset(KeepRows(rows, filters))[row] == if Keep(row, filters) then multiset(rows)[row] else 0
  {
    if rows != [] {
      KeepRowsCount(rows[1..], filters, row);
      assert rows == [rows[0]] + rows[1..];
    }
  }

  /** Filtering keeps the rows in their original order. */
  lemma {:induction false} KeepRowsInOrder(rows: seq<Row>, filters: Filters)
    ensures IsSubsequence(KeepRows(rows, filters), rows)
  {
    if rows == [] {
      assert IsSubsequence<Row>([], []);
    } else {
      KeepRowsInOrder(rows[1..], filters);
      var rest := KeepRows(rows[1..], filters);
      if Keep(rows[0], filters) {
        assert ([rows[0]] + rest)[0] == rows[0] && ([rows[0]] + rest)[1..] == rest;
      } else {
        SubsequenceSkip(rest, rows[1..], rows[0]);
        assert [rows[0]] + rows[1..] == rows;
      }
    }
  }

  /** Filtering an already filtered list changes nothing. */
  lemma {:induction false} KeepRowsIdempotent(rows: seq<Row>, filters: Filters)
    ensures KeepRows(KeepRows(rows, filters), filters) == KeepRows(rows, filters)
  {
    if rows != [] {
      KeepRowsIdempotent(rows[1..], filters);
    }
  }

  /** The default filters show every row. */
  lemma {:induction false} DefaultFiltersKeepAll(rows: seq<Row>)
    ensures KeepRows(rows, DefaultFilters) == rows
  {
    if rows != [] {
      DefaultFiltersKeepAll(rows[1..]);
      assert Keep(rows[0], DefaultFilters);
      assert KeepRows(rows, DefaultFilters) == [rows[0]] + KeepRows(rows[1..], DefaultFilters);
      assert [rows[0]] + rows[1..] == rows;
    }
  }

  /** The height given to the row window: the measured height, capped at the maximum, less
      the header and filter bar. */
  function RowContainerHeight(measured: int, maxHeight: int): (h: int)
    ensures h <= measured - CHROME_HEIGHT && h <= maxHeight - CHROME_HEIGHT
    ensures h == measured - CHROME_HEIGHT || h == maxHeight - CHROME_HEIGHT
  {
    (if measured < maxHeight then measured else maxHeight) - CHROME_HEIGHT
  }

  /** The vertical window of filtered rows: 32-pixel rows, overscan 10, in the capped
      container height. */
  function RowWindow(scrollTop: int, measured: int, maxHeight: int, rowCount: nat): (int, int)
  {
    (VirtualScroll.StartIndex(scrollTop, ROW_HEIGHT, ROW_OVERSCAN),
     VirtualScroll.EndIndex(rowCount, scrollTop, RowContainerHeight(measured, maxHeight), ROW_HEIGHT, ROW_OVERSCAN))
  }

  /** Every filtered row even partly inside the visible part of the row container is in the
      row window, and the window never names a row past the last one. */
  lemma RowWindowCoversVisible(scrollTop: int, measured: int, maxHeight: int, rowCount: nat, j: int)
    requires 0 <= j < rowCount
    requires j * ROW_HEIGHT + ROW_HEIGHT > scrollTop
    requires j * ROW_HEIGHT <= scrollTop + RowContainerHeight(measured, maxHeight)
    ensures RowWindow(scrollTop, measured, maxHeight, rowCount).0 <= j <= RowWindow(scrollTop, measured, maxHeight, rowCount).1
    ensures RowWindow(scrollTop, measured, maxHeight, rowCount).1 < rowCount
  {
    VirtualScroll.WindowCoversVisible(rowCount, ROW_HEIGHT, RowContainerHeight(measured, maxHeight), scrollTop, ROW_OVERSCAN, j);
  }

  /** Worked example: 100 rows in a 600-pixel container under a 1000-pixel cap, scrolled
      320 pixels, render rows 0..37. */
  lemma RowWindowExample()
    ensures RowWindow(320, 600, 1000, 100) == (0, 37)
  {
    VirtualScroll.FloorDivUnique(320, ROW_HEIGHT, 10);
  }

  /** The horizontal window of columns, shared by every rendered row. */
  function ColumnWindow(scrollLeft: int, clientWidth: Option<int>, headerCount: nat): (window: (int, int))
    ensures window.0 == VirtualScroll.StartIndex(scrollLeft, CELL_WIDTH, COLUMN_OVERSCAN)
    ensures window.1 == VirtualScroll.EndIndex(headerCount, scrollLeft, clientWidth.GetOr(DEFAULT_CLIENT_WIDTH) - ROW_NAME_WIDTH, CELL_WIDTH, COLUMN_OVERSCAN)
  {
    var containerWidth := clientWidth.GetOr(DEFAULT_CLIENT_WIDTH) - ROW_NAME_WIDTH;
    var f := VirtualScroll.FloorDiv(scrollLeft, CELL_WIDTH) - COLUMN_OVERSCAN;
    var c := VirtualScroll.CeilDiv(scrollLeft + containerWidth, CELL_WIDTH) + COLUMN_OVERSCAN;
    (if f < 0 then 0 else f, if headerCount - 1 < c then headerCount - 1 else c)
  }

  /** Every column even partly inside the visible strip is in the column window, and the
      window never names a column past the last header. */
  lemma ColumnWindowCoversVisible(scrollLeft: int, clientWidth: Option<int>, headerCount: nat, j: int)
    requires 0 <= j < headerCount
    requires j * CELL_WIDTH + CELL_WIDTH > scrollLeft
    requires j * CELL_WIDTH <= scrollLeft + clientWidth.GetOr(DEFAULT_CLIENT_WIDTH) - ROW_NAME_WIDTH
    ensures ColumnWindow(scrollLeft, clientWidth, headerCount).0 <= j <= ColumnWindow(scrollLeft, clientWidth, headerCount).1
    ensures ColumnWindow(scrollLeft, clientWidth, headerCount).1 < headerCount
  {
    VirtualScroll.WindowCoversVisible(headerCount, CELL_WIDTH, clientWidth.GetOr(DEFAULT_CLIENT_WIDTH) - ROW_NAME_WIDTH, scrollLeft, COLUMN_OVERSCAN, j);
  }

  /** Worked example: 100 columns in an unmeasured container scrolled 280 px render columns 5..32;
      without headers the window is empty. */
  lemma ColumnWindowExamples()
    ensures ColumnWindow(280, None, 100) == (5, 32)
    ensures ColumnWindow(0, None, 0).1 == -1
  {
    VirtualScroll.FloorDivUnique(280, CELL_WIDTH, 10);
    VirtualScroll.FloorDivUnique(-730, CELL_WIDTH, -27);
  }

  /** The full width of the grid content. */
  function TotalWidth(headerCount: nat): (w: int)
    ensures w >= ROW_NAME_WIDTH
    ensures forall c :: 0 <= c < headerCount ==> ROW_NAME_WIDTH + c * CELL_WIDTH + CELL_WIDTH <= w
    ensures headerCount == 0 ==> w == ROW_NAME_WIDTH
    ensures headerCount > 0 ==> w == ROW_NAME_WIDTH + (headerCount - 1) * CELL_WIDTH + CELL_WIDTH
  {
    headerCount * CELL_WIDTH + ROW_NAME_WIDTH
  }

  /** The cell whose details are shown in the dialog. */
  datatype Selection = Selection(row: Row, rowIndex: int, cellIndex: int, cell: Cell)

  /** The grid's interaction state. */
  class GridState {
    var highlightedRow: Option<int>
    /** Column highlighting has no setter, so it stays unset. */
    const highlightedColumn: Option<int>
    var scrollLeft: int
    var selectedCell: Option<Selection>
    /** The vertical virtualisation hook's own state. */
    const rowScroll: VirtualScroll.ScrollState

    constructor()
      ensures highlightedRow == None && highlightedColumn == None && scrollLeft == 0 && selectedCell == None
      ensures fresh(rowScroll) && rowScroll.scrollTop == 0
    {
      highlightedRow := None;
      highlightedColumn := None;
      scrollLeft := 0;
      selectedCell := None;
      rowScroll := new VirtualScroll.ScrollState();
    }

    /** `handleScroll`: one scroll event moves both axes. */
    method HandleScroll(eventScrollLeft: int, eventScrollTop: int)
      modifies this, rowScroll
      ensures scrollLeft == eventScrollLeft && rowScroll.scrollTop == eventScrollTop
      ensures highlightedRow == old(highlightedRow) && selectedCell == old(selectedCell)
    {
      scrollLeft := eventScrollLeft;
      rowScroll.OnScroll(eventScrollTop);
    }

    /** Hovering a row (or leaving it). */
    method SetHighlightedRow(row: Option<int>)
      modifies this
      ensures highlightedRow == row
      ensures scrollLeft == old(scrollLeft) && selectedCell == old(selectedCell)
    {
      highlightedRow := row;
    }

    /** `handleCellSelect`: open the dialog only for an index naming a shown row. */
    method HandleCellSelect(filteredRows: seq<Row>, rowIndex: int, cellIndex: int, cell: Cell)
      modifies this
      ensures 0 <= rowIndex < |filteredRows| ==>
        selectedCell == Some(Selection(filteredRows[rowIndex], rowIndex, cellIndex, cell))
      ensures !(0 <= rowIndex < |filteredRows|) ==> selectedCell == old(selectedCell)
      ensures highlightedRow == old(highlightedRow) && scrollLeft == old(scrollLeft)
    {
      if 0 <= rowIndex < |filteredRows| {
        selectedCell := Some(Selection(filteredRows[rowIndex], rowIndex, cellIndex, cell));
      }
    }

    /** Closing the dialog clears the selection. */
    method CloseDetail()
      modifies this
      ensures selectedCell == None
      ensures highlightedRow == old(highlightedRow) && scrollLeft == old(scrollLeft)
    {
      selectedCell := None;
    }
  }
}
