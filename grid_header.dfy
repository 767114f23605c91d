/** The column header strip: the headers inside the column window, their labels and
    offsets, and the tooltip text of a build column. */
module GridHeader {
  import opened Wrappers
  import opened Text
  import opened GridSchema
  import opened VirtualRow

  /** `headers.slice(start, end + 1)`. */
  function VisibleHeaders(headers: seq<Header>, start: int, end: int): (visible: seq<Header>)
    ensures 0 <= start <= end + 1 <= |headers| ==> visible == headers[start..end + 1]
  {
    JsSlice(headers, start, end + 1)
  }

  /** One header cell: its column, its 1-based number, its offset and the header it shows. */
  datatype HeaderColumn = HeaderColumn(actualIndex: int, number: int, left: int, header: Header)

  /** The width of the spacer that stands in for the columns before the window. */
  function SpacerWidth(start: int, cellWidth: int): int {
    start * cellWidth
  }

  /** The header cells of the window, laid out after the spacer. */
  function HeaderColumns(headers: seq<Header>, start: int, end: int, cellWidth: int): (columns: seq<HeaderColumn>)
    requires 0 <= start <= end + 1 <= |headers|
    ensures |columns| == end + 1 - start
    ensures forall i :: 0 <= i < |columns| ==>
      columns[i].actualIndex == start + i && columns[i].header == headers[start + i] &&
      columns[i].number == start + i + 1 && columns[i].left == (start + i) * cellWidth
  {
    var visible := VisibleHeaders(headers, start, end);
    seq(|visible|, i requires 0 <= i < |visible| =>
      HeaderColumn(start + i, start + i + 1, (start + i) * cellWidth, visible[i]))
  }

  /** Where the windowed header draws column `start + i`, relative to the left edge of the
      scrolling area: the strip is shifted left by the spacer's width, then the spacer, then
      `i` cells. */
  function WindowedHeaderX(start: int, i: int, cellWidth: int): int {
    -(start * cellWidth) + SpacerWidth(start, cellWidth) + i * cellWidth
  }

  /** Where the simple header draws column `j`: the strip is shifted left by the scroll offset. */
  function SimpleHeaderX(j: int, cellWidth: int, scrollLeft: int): int {
    j * cellWidth - scrollLeft
  }

  /** Where a row draws a rendered cell: its offset in the strip, shifted left by the scroll
      offset. */
  function RowCellX(cell: RenderedCell, scrollLeft: int): int {
    cell.left - scrollLeft
  }

  /** The simple header, which the grid uses, draws every column a row renders exactly above
      that row's cell, at any scroll offset. */
  lemma SimpleHeaderAlignsWithRows(headers: seq<Header>, row: Row, rowIndex: int, cellWidth: int, start: int,
                                   end: int, scrollLeft: int, highlightedRow: Option<int>,
                                   highlightedColumn: Option<int>)
    requires 0 <= start && end < |headers|
    ensures var rendered := RenderCells(row, rowIndex, cellWidth, start, end, highlightedRow, highlightedColumn);
      var columns := AllHeaderColumns(headers, cellWidth);
      forall i :: 0 <= i < |rendered| ==>
        var j := rendered[i].actualIndex;
        0 <= j < |columns| && columns[j].actualIndex == j &&
        SimpleHeaderX(j, cellWidth, scrollLeft) == RowCellX(rendered[i], scrollLeft)
  {
    RenderedCellsMatchColumns(row, rowIndex, cellWidth, start, end, highlightedRow, highlightedColumn);
  }

  /** The windowed header draws column `start + i` above the rows' cell of that column only
      when the scroll offset is exactly the spacer's width: it is shifted by the window start,
      while the rows are shifted by the scroll offset. */
  lemma WindowedHeaderAlignsIff(start: int, i: int, cellWidth: int, scrollLeft: int)
    ensures WindowedHeaderX(start, i, cellWidth) == (start + i) * cellWidth - scrollLeft
            <==> scrollLeft == start * cellWidth
  {
    assert (start + i) * cellWidth == start * cellWidth + i * cellWidth;
  }

  /** With the grid's 28-pixel columns and overscan 5, scrolling 280 pixels starts the window at
      column 5, and the windowed header would sit 140 pixels to the right of the rows. */
  lemma WindowedHeaderOffsetExample()
    ensures WindowedHeaderX(5, 0, 28) - ((5 + 0) * 28 - 280) == 140
  {
  }

  /** The simple header used by the grid: every header, labelled from 1. */
  function AllHeaderColumns(headers: seq<Header>, cellWidth: int): (columns: seq<HeaderColumn>)
    ensures columns == HeaderColumns(headers, 0, |headers| - 1, cellWidth)
  {
    seq(|headers|, i requires 0 <= i < |headers| => HeaderColumn(i, i + 1, i * cellWidth, headers[i]))
  }

  /** `header.started` is present and non-empty. */
  predicate HasStart(header: Header) {
    header.started.Some? && header.started.value != ""
  }

  /** The extra entries that are non-blank after trimming, in order. */
  function NonBlankExtras(extras: seq<string>): (kept: seq<string>)
    ensures |kept| <= |extras|
    ensures forall k :: 0 <= k < |kept| ==> !IsBlank(kept[k]) && kept[k] in extras
    ensures IsSubsequence(kept, extras)
    decreases |extras|
  {
    if extras == [] then []
    else
      var rest := NonBlankExtras(extras[1..]);
      assert extras == [extras[0]] + extras[1..];
      if !IsBlank(extras[0]) then
        assert ([extras[0]] + rest)[1..] == rest;
        [extras[0]] + rest
      else
        SubsequenceSkip(rest, extras[1..], extras[0]);
        rest
  }

  /** `header.extra` filtered to its non-blank entries. */
  function Extras(header: Header): seq<string> {
    if header.extra.Some? then NonBlankExtras(header.extra.value) else []
  }

  /** The tooltip lines of column `index`, in their fixed order; `render` stands for the
      locale rendering of the start time. */
  function TooltipLines(header: Header, index: int, render: string -> string): seq<string> {
    ["Build #" + IntToString(index + 1)]
    + (if header.build != "" then ["ID: " + header.build] else [])
    + (if HasStart(header) then ["Started: " + render(header.started.value)] else [])
    + (if Extras(header) != [] then ["Extra: " + Join(Extras(header), ", ")] else [])
  }

  /** `formatHeaderTooltip`: push the lines one by one and join them with newlines. */
  method FormatHeaderTooltip(header: Header, index: int, render: string -> string) returns (tooltip: string)
    ensures tooltip == Join(TooltipLines(header, index, render), "\n")
  {
    var parts := ["Build #" + IntToString(index + 1)];
    if header.build != "" {
      parts := parts + ["ID: " + header.build];
    }
    if HasStart(header) {
      parts := parts + ["Started: " + render(header.started.value)];
    }
    if header.extra.Some? && |header.extra.value| > 0 {
      var extras := NonBlankExtras(header.extra.value);
      if |extras| > 0 {
        parts := parts + ["Extra: " + Join(extras, ", ")];
      }
    }
    assert parts == TooltipLines(header, index, render);
    tooltip := Join(parts, "\n");
  }

  /** A non-blank entry keeps every one of its copies; a blank one has none. */
  lemma {:induction false} NonBlankExtrasCount(extras: seq<string>, e: string)
    ensures multiset(NonBlankExtras(extras))[e] == if !IsBlank(e) then multiset(extras)[e] else 0
    decreases |extras|
  {
    if extras != [] {
      NonBlankExtrasCount(extras[1..], e);
      assert extras == [extras[0]] + extras[1..];
    }
  }

  /** An extra entry is kept exactly when it is one of the entries and is not blank. */
  lemma {:induction false} NonBlankExtrasMembership(extras: seq<string>, e: string)
    ensures e in NonBlankExtras(extras) <==> e in extras && !IsBlank(e)
  {
    if extras != [] {
      NonBlankExtrasMembership(extras[1..], e);
      assert extras == [extras[0]] + extras[1..];
    }
  }

  /** The tooltip's shape: the build line first, then an ID line iff the build id is
      non-empty, a start line iff a start time is given, and an extra line iff some extra
      entry is non-blank. */
  lemma TooltipShape(header: Header, index: int, render: string -> string)
    ensures var lines := TooltipLines(header, index, render);
      var n := 1 + (if header.build != "" then 1 else 0) + (if HasStart(header) then 1 else 0)
                 + (if Extras(header) != [] then 1 else 0);
      |lines| == n &&
      lines[0] == "Build #" + IntToString(index + 1) &&
      (header.build != "" ==> lines[1] == "ID: " + header.build) &&
      (HasStart(header) ==> lines[if header.build != "" then 2 else 1] == "Started: " + render(header.started.value)) &&
      (Extras(header) != [] ==> lines[n - 1] == "Extra: " + Join(Extras(header), ", "))
  {
  }

  /** Some extra entry is non-blank exactly when the extra line appears. */
  lemma ExtraLineIffNonBlank(header: Header)
    requires header.extra.Some?
    ensures Extras(header) != [] <==> exists e :: e in header.extra.value && !IsBlank(e)
  {
    if Extras(header) != [] {
      NonBlankExtrasMembership(header.extra.value, Extras(header)[0]);
    } else {
      forall e | e in header.extra.value
        ensures IsBlank(e)
      {
        NonBlankExtrasMembership(header.extra.value, e);
      }
    }
  }
}
