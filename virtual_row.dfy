/** One rendered grid row: which of its cells fall inside the shared column window,
    where each is placed, which are highlighted and which can be selected. */
module VirtualRow {
  import opened Wrappers
  import opened Text
  import opened GridSchema

  /** The cells of the row inside the column window `[start, end]`, clamped to the cells
      the row actually has. */
  function VisibleCells(cells: seq<Cell>, start: int, end: int): (visible: seq<Cell>)
    ensures start >= 0 ==>
      var clampedEnd := if end < |cells| - 1 then end else |cells| - 1;
      visible == (if start <= clampedEnd then cells[start..clampedEnd + 1] else [])
  {
    var clampedEnd := if end < |cells| - 1 then end else |cells| - 1;
    if start <= clampedEnd then JsSlice(cells, start, clampedEnd + 1) else []
  }

  /** The callback payload of a cell click. */
  datatype SelectEvent = SelectEvent(rowIndex: int, cellIndex: int, cell: Cell)

  /** One positioned cell of a rendered row. */
  datatype RenderedCell = RenderedCell(actualIndex: int, left: int, cell: Cell, highlighted: bool,
                                       onSelect: Option<SelectEvent>)

  /** A message is present and non-empty (a truthy string). */
  predicate HasMessage(cell: Cell) {
    cell.message.Some? && cell.message.value != ""
  }

  /** The positioned cells of a row, in column order. */
  function RenderCells(row: Row, rowIndex: int, cellWidth: int, start: int, end: int,
                       highlightedRow: Option<int>, highlightedColumn: Option<int>): (rendered: seq<RenderedCell>)
    ensures |rendered| == |VisibleCells(row.cells, start, end)|
  {
    var visible := VisibleCells(row.cells, start, end);
    var rowHighlighted := highlightedRow == Some(rowIndex);
    seq(|visible|, i requires 0 <= i < |visible| =>
      RenderedCell(start + i, (start + i) * cellWidth, visible[i],
                   highlightedColumn == Some(start + i) || rowHighlighted,
                   if HasMessage(visible[i]) then Some(SelectEvent(rowIndex, start + i, visible[i])) else None))
  }

  /** For a window starting at a real column, the rendered cells are exactly the row's cells
      in `[start, end]` that exist, each at its own column: the cell shown at column `j` is
      `row.cells[j]`, its offset is `j * cellWidth`, it is highlighted iff its column or its
      row is, and it is clickable, reporting `(rowIndex, j, cell)`, iff it has a message. */
  lemma RenderedCellsMatchColumns(row: Row, rowIndex: int, cellWidth: int, start: int, end: int,
                                  highlightedRow: Option<int>, highlightedColumn: Option<int>)
    requires start >= 0
    ensures var rendered := RenderCells(row, rowIndex, cellWidth, start, end, highlightedRow, highlightedColumn);
      forall i :: 0 <= i < |rendered| ==>
        var j := rendered[i].actualIndex;
        j == start + i && start <= j <= end && j < |row.cells| &&
        rendered[i].cell == row.cells[j] &&
        rendered[i].left == j * cellWidth &&
        (rendered[i].highlighted <==> highlightedColumn == Some(j) || highlightedRow == Some(rowIndex)) &&
        (rendered[i].onSelect.Some? <==> HasMessage(row.cells[j])) &&
        (rendered[i].onSelect.Some? ==> rendered[i].onSelect.value == SelectEvent(rowIndex, j, row.cells[j]))
  {
  }

  /** Conversely, every existing column of the window is rendered, at position `j - start`. */
  lemma WindowColumnRendered(row: Row, rowIndex: int, cellWidth: int, start: int, end: int,
                             highlightedRow: Option<int>, highlightedColumn: Option<int>, j: int)
    requires 0 <= start <= j <= end && j < |row.cells|
    ensures var rendered := RenderCells(row, rowIndex, cellWidth, start, end, highlightedRow, highlightedColumn);
      j - start < |rendered| && rendered[j - start].actualIndex == j && rendered[j - start].cell == row.cells[j]
  {
  }

  /** A row shorter than the window renders only the cells it has; a row with no cells
      in the window renders nothing. */
  lemma ShortRowsRenderFewer(row: Row, start: int, end: int)
    requires start >= 0
    ensures |VisibleCells(row.cells, start, end)| <= |row.cells|
    ensures start >= |row.cells| ==> VisibleCells(row.cells, start, end) == []
  {
  }

  /** The width of the cell strip: one cell per header, whatever the row holds. */
  function StripWidth(headerCount: nat, cellWidth: nat): nat {
    headerCount * cellWidth
  }

  /** Column `j` of the headers ends inside the strip. */
  lemma ColumnInsideStrip(j: int, headerCount: nat, cellWidth: nat)
    requires 0 <= j < headerCount
    ensures 0 <= j * cellWidth
    ensures j * cellWidth + cellWidth <= StripWidth(headerCount, cellWidth)
  {
    MulLe(j + 1, headerCount, cellWidth);
    assert (j + 1) * cellWidth == j * cellWidth + cellWidth;
  }

  lemma MulLe(a: nat, b: nat, c: nat)
    requires a <= b
    ensures a * c <= b * c
  {
    assert b * c - a * c == (b - a) * c;
  }

  /** Every rendered cell of a window within the headers lies inside the cell strip. */
  lemma RenderedCellsInsideStrip(row: Row, rowIndex: int, cellWidth: nat, start: int, end: int, headerCount: nat,
                                 highlightedRow: Option<int>, highlightedColumn: Option<int>)
    requires start >= 0 && end < headerCount
    ensures var rendered := RenderCells(row, rowIndex, cellWidth, start, end, highlightedRow, highlightedColumn);
      forall i :: 0 <= i < |rendered| ==> 0 <= rendered[i].left && rendered[i].left + cellWidth <= StripWidth(headerCount, cellWidth)
  {
    var rendered := RenderCells(row, rowIndex, cellWidth, start, end, highlightedRow, highlightedColumn);
    RenderedCellsMatchColumns(row, rowIndex, cellWidth, start, end, highlightedRow, highlightedColumn);
    forall i | 0 <= i < |rendered|
      ensures 0 <= rendered[i].left && rendered[i].left + cellWidth <= StripWidth(headerCount, cellWidth)
    {
      ColumnInsideStrip(rendered[i].actualIndex, headerCount, cellWidth);
    }
  }
}
