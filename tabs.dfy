/** The `tabs` commands of the command-line client: the status flag parsing, the compact
    result strip of a row, the row filter and limit, and the summary filter. */
module TabsCmd {
  import opened Text
  import opened CellResult

  /** A cell as the client decodes it; an absent result decodes as 0. */
  datatype Cell = Cell(result: int)

  /** A test row: its name and its cells, most recent first. */
  datatype Row = Row(name: string, cells: seq<Cell>)

  /** The part of a tab summary the commands look at. */
  datatype TabSummary = TabSummary(tabName: string, overallStatus: string)

  // ---------------------------------------------------------------- status flag

  /** `statusToResult`: the cell result a `--status` flag selects, ignoring case, or -1. */
  function StatusToResult(status: string): (r: int)
    ensures r == CellResultPass <==> Upper(status) == "PASS" || Upper(status) == "PASSING"
    ensures r == CellResultFail <==> Upper(status) == "FAIL" || Upper(status) == "FAILING"
    ensures r == CellResultSkipped <==> Upper(status) == "SKIP" || Upper(status) == "SKIPPED"
    ensures r in {-1, CellResultPass, CellResultFail, CellResultSkipped}
  {
    var u := Upper(status);
    if u == "PASS" || u == "PASSING" then CellResultPass
    else if u == "FAIL" || u == "FAILING" then CellResultFail
    else if u == "SKIP" || u == "SKIPPED" then CellResultSkipped
    else -1
  }

  /** Flags that differ only in letter case select the same result. */
  lemma StatusToResultIgnoresCase(a: string, b: string)
    requires EqualFold(a, b)
    ensures StatusToResult(a) == StatusToResult(b)
  {
  }

  // ---------------------------------------------------------------- result strip

  const CheckMark := "\U{1B}[32m\U{2713}\U{1B}[0m"
  const CrossMark := "\U{1B}[31m\U{2717}\U{1B}[0m"
  const SkipMark := "\U{1B}[90m-\U{1B}[0m"
  const TruncatedMark := "\U{2026}"
  const OtherMark := "\U{00B7}"

  /** The symbol written for one cell result. */
  function Symbol(result: int): (sym: string)
    ensures sym == CheckMark <==> result == CellResultPass
    ensures sym == CrossMark <==> result == CellResultFail
    ensures sym == SkipMark <==> result == CellResultSkipped
    ensures sym == TruncatedMark <==> result == CellResultTruncated
    ensures sym == OtherMark <==> result !in {CellResultPass, CellResultFail, CellResultSkipped, CellResultTruncated}
  {
    assert CheckMark[5] != CrossMark[5] && CheckMark[5] != SkipMark[5] && CrossMark[5] != SkipMark[5];
    assert |TruncatedMark| == |OtherMark| == 1 && TruncatedMark[0] != OtherMark[0];
    if result == CellResultPass then CheckMark
    else if result == CellResultFail then CrossMark
    else if result == CellResultSkipped then SkipMark
    else if result == CellResultTruncated then TruncatedMark
    else OtherMark
  }

  /** How many leading cells get a symbol: all of them, or `maxCells` when there are more. */
  function ShownCount(count: nat, maxCells: int): (n: nat)
    ensures n <= count
    ensures count <= maxCells ==> n == count
    ensures count > maxCells ==> n == if maxCells < 0 then 0 else maxCells
  {
    if count > maxCells then (if maxCells < 0 then 0 else maxCells) else count
  }

  /** The symbols of the first `n` cells, in order. */
  function Symbols(cells: seq<Cell>, n: nat): (syms: seq<string>)
    requires n <= |cells|
    ensures |syms| == n
    ensures forall i :: 0 <= i < n ==> syms[i] == Symbol(cells[i].result)
  {
    seq(n, i requires 0 <= i < n => Symbol(cells[i].result))
  }

  /** One more cell adds its symbol at the end. */
  lemma SymbolsSnoc(cells: seq<Cell>, i: nat)
    requires i < |cells|
    ensures Concat(Symbols(cells, i + 1)) == Concat(Symbols(cells, i)) + Symbol(cells[i].result)
  {
    assert Symbols(cells, i + 1) == Symbols(cells, i) + [Symbol(cells[i].result)];
    ConcatAppend(Symbols(cells, i), [Symbol(cells[i].result)]);
    assert Concat([Symbol(cells[i].result)]) == Symbol(cells[i].result);
  }

  /** The `" (+N more)"` note for the cells left out. */
  function MoreNote(count: nat, maxCells: int): (note: string)
    ensures note != "" <==> count > maxCells
  {
    if count > maxCells then " (+" + IntToString(count - maxCells) + " more)" else ""
  }

  /** What `formatCellResults` writes. */
  function FormattedResults(cells: seq<Cell>, maxCells: int): string {
    Concat(Symbols(cells, ShownCount(|cells|, maxCells))) + MoreNote(|cells|, maxCells)
  }

  /** `formatCellResults`. */
  method FormatCellResults(cells: seq<Cell>, maxCells: int) returns (s: string)
    ensures s == FormattedResults(cells, maxCells)
  {
    var count := |cells|;
    if count > maxCells {
      count := maxCells;
    }
    assert ShownCount(|cells|, maxCells) == if count < 0 then 0 else count;
    s := "";
    var i := 0;
    while i < count
      invariant 0 <= i <= ShownCount(|cells|, maxCells)
      invariant s == Concat(Symbols(cells, i))
    {
      SymbolsSnoc(cells, i);
      s := s + Symbol(cells[i].result);
      i := i + 1;
    }
    if |cells| > maxCells {
      var note := " (+" + IntToString(|cells| - maxCells) + " more)";
      s := s + note;
    }
  }

  /** The strip for twenty columns: one symbol for each of the first twenty cells at most,
      followed by the note exactly when cells were left out. */
  lemma FormattedResultsShape(cells: seq<Cell>)
    ensures |Symbols(cells, ShownCount(|cells|, 20))| == if |cells| < 20 then |cells| else 20
    ensures FormattedResults(cells, 20) == Concat(Symbols(cells, ShownCount(|cells|, 20))) + MoreNote(|cells|, 20)
    ensures MoreNote(|cells|, 20) != "" <==> |cells| > 20
  {
  }

  /** Cells past the limit only change the count in the note: the strip of a long row is the
      strip of its first `maxCells` cells followed by the number left out. */
  lemma FormattedResultsTail(cells: seq<Cell>, maxCells: int)
    requires 0 <= maxCells < |cells|
    ensures FormattedResults(cells, maxCells)
            == FormattedResults(cells[..maxCells], maxCells) + " (+" + IntToString(|cells| - maxCells) + " more)"
  {
    assert Symbols(cells, maxCells) == Symbols(cells[..maxCells], maxCells);
  }

  // ---------------------------------------------------------------- row filter and limit

  /** Some cell of the row has the given result. */
  predicate HasResult(row: Row, target: int) {
    exists k :: 0 <= k < |row.cells| && row.cells[k].result == target
  }

  /** The rows having a cell with the target result, in order. */
  function RowsWithResult(rows: seq<Row>, target: int): (r: seq<Row>)
    ensures |r| <= |rows|
  {
    if rows == [] then []
    else (if HasResult(rows[0], target) then [rows[0]] else []) + RowsWithResult(rows[1..], target)
  }

  /** Filtering distributes over concatenation. */
  lemma {:induction false} RowsWithResultAppend(a: seq<Row>, b: seq<Row>, target: int)
    ensures RowsWithResult(a + b, target) == RowsWithResult(a, target) + RowsWithResult(b, target)
  {
    if a == [] {
      assert a + b == b;
    } else {
      assert (a + b)[0] == a[0] && (a + b)[1..] == a[1..] + b;
      RowsWithResultAppend(a[1..], b, target);
      var head := if HasResult(a[0], target) then [a[0]] else [];
      assert RowsWithResult(a + b, target) == head + RowsWithResult(a[1..] + b, target);
      assert RowsWithResult(a, target) == head + RowsWithResult(a[1..], target);
    }
  }

  /** A row with the target result keeps every one of its copies; any other row has none. */
  lemma {:induction false} RowsWithResultCount(rows: seq<Row>, target: int, row: Row)
    ensures multiset(RowsWithResult(rows, target))[row] == if HasResult(row, target) then multiset(rows)[row] else 0
  {
    if rows != [] {
      RowsWithResultCount(rows[1..], target, row);
      assert rows == [rows[0]] + rows[1..];
    }
  }

  /** A row is kept exactly when it is one of the rows and has the target result; the kept
      rows are in their original order. */
  lemma {:induction false} RowsWithResultProperties(rows: seq<Row>, target: int, row: Row)
    ensures row in RowsWithResult(rows, target) <==> row in rows && HasResult(row, target)
    ensures IsSubsequence(RowsWithResult(rows, target), rows)
  {
    if rows == [] {
      assert IsSubsequence<Row>([], []);
    } else {
      RowsWithResultProperties(rows[1..], target, row);
      assert rows == [rows[0]] + rows[1..];
      var rest := RowsWithResult(rows[1..], target);
      if HasResult(rows[0], target) {
        assert ([rows[0]] + rest)[0] == rows[0] && ([rows[0]] + rest)[1..] == rest;
      } else {
        assert [] + rest == rest;
        SubsequenceSkip(rest, rows[1..], rows[0]);
      }
    }
  }

  /** The row filter loop of `tabs rows`: each row is appended at its first matching cell. */
  method FilterRowsByResult(rows: seq<Row>, target: int) returns (filtered: seq<Row>)
    ensures filtered == RowsWithResult(rows, target)
  {
    filtered := [];
    for i := 0 to |rows|
      invariant filtered == RowsWithResult(rows[..i], target)
    {
      var r := rows[i];
      ghost var before := filtered;
      ghost var appended := false;
      var j := 0;
      while j < |r.cells|
        invariant 0 <= j <= |r.cells|
        invariant forall k :: 0 <= k < j ==> r.cells[k].result != target
        invariant filtered == before && !appended
      {
        if r.cells[j].result == target {
          filtered := filtered + [r];
          appended := true;
          break;
        }
        j := j + 1;
      }
      assert appended ==> HasResult(r, target) && filtered == before + [r];
      assert !appended ==> !HasResult(r, target) && filtered == before;
      assert RowsWithResult([r], target) == (if HasResult(r, target) then [r] else []);
      assert rows[..i + 1] == rows[..i] + [r];
      RowsWithResultAppend(rows[..i], [r], target);
    }
    assert rows[..|rows|] == rows;
  }

  /** The rows to print: filtered when a status is given, then cut to a positive limit. */
  function ShownRows(rows: seq<Row>, filterStatus: string, limitRows: int): seq<Row> {
    var filtered := if filterStatus != "" then RowsWithResult(rows, StatusToResult(filterStatus)) else rows;
    if limitRows > 0 && |filtered| > limitRows then filtered[..limitRows] else filtered
  }

  /** The filter and limit of `tabs rows`. */
  method SelectRows(rows: seq<Row>, filterStatus: string, limitRows: int) returns (shown: seq<Row>)
    ensures shown == ShownRows(rows, filterStatus, limitRows)
  {
    shown := rows;
    if filterStatus != "" {
      var targetResult := StatusToResult(filterStatus);
      shown := FilterRowsByResult(rows, targetResult);
    }
    if limitRows > 0 && |shown| > limitRows {
      shown := shown[..limitRows];
    }
  }

  /** "Showing n of m rows": the count shown never exceeds the total, nor a positive limit; the
      shown rows are the leading filtered rows; without a status flag or limit all rows show. */
  lemma ShownRowsProperties(rows: seq<Row>, filterStatus: string, limitRows: int, row: Row)
    ensures |ShownRows(rows, filterStatus, limitRows)| <= |rows|
    ensures limitRows > 0 ==> |ShownRows(rows, filterStatus, limitRows)| <= limitRows
    ensures row in ShownRows(rows, filterStatus, limitRows) && filterStatus != ""
            ==> row in rows && HasResult(row, StatusToResult(filterStatus))
    ensures filterStatus == "" && limitRows <= 0 ==> ShownRows(rows, filterStatus, limitRows) == rows
    ensures var filtered := if filterStatus != "" then RowsWithResult(rows, StatusToResult(filterStatus)) else rows;
      var shown := ShownRows(rows, filterStatus, limitRows);
      |shown| <= |filtered| && shown == filtered[..|shown|] &&
      (limitRows <= 0 || |filtered| <= limitRows ==> shown == filtered)
  {
    if filterStatus != "" {
      var filtered := RowsWithResult(rows, StatusToResult(filterStatus));
      RowsWithResultProperties(rows, StatusToResult(filterStatus), row);
      if limitRows > 0 && |filtered| > limitRows {
        assert row in filtered[..limitRows] ==> row in filtered;
      }
    }
  }

  /** An unrecognised status selects result -1, which no decoded cell of the service carries,
      so nothing is shown unless a cell has that result. */
  lemma UnknownStatusSelectsMinusOne(rows: seq<Row>)
    ensures StatusToResult("BROKEN") == -1
    ensures (forall r, c :: r in rows && c in r.cells ==> c.result >= 0) ==> ShownRows(rows, "BROKEN", 0) == []
  {
    assert Upper("BROKEN") == "BROKEN";
    if forall r, c :: r in rows && c in r.cells ==> c.result >= 0 {
      if ShownRows(rows, "BROKEN", 0) != [] {
        var x := ShownRows(rows, "BROKEN", 0)[0];
        RowsWithResultProperties(rows, -1, x);
        assert false;
      }
    }
  }

  // ---------------------------------------------------------------- summary filter

  /** The summaries whose overall status equals the flag, ignoring case, in order. */
  function SummariesWithStatus(summaries: seq<TabSummary>, status: string): (r: seq<TabSummary>)
    ensures |r| <= |summaries|
  {
    if summaries == [] then []
    else (if EqualFold(summaries[0].overallStatus, status) then [summaries[0]] else [])
         + SummariesWithStatus(summaries[1..], status)
  }

  lemma {:induction false} SummariesWithStatusAppend(a: seq<TabSummary>, b: seq<TabSummary>, status: string)
    ensures SummariesWithStatus(a + b, status) == SummariesWithStatus(a, status) + SummariesWithStatus(b, status)
  {
    if a == [] {
      assert a + b == b;
    } else {
      assert (a + b)[0] == a[0] && (a + b)[1..] == a[1..] + b;
      SummariesWithStatusAppend(a[1..], b, status);
      var head := if EqualFold(a[0].overallStatus, status) then [a[0]] else [];
      assert SummariesWithStatus(a + b, status) == head + SummariesWithStatus(a[1..] + b, status);
      assert SummariesWithStatus(a, status) == head + SummariesWithStatus(a[1..], status);
    }
  }

  /** A summary whose status matches keeps every one of its copies; any other has none. */
  lemma {:induction false} SummariesWithStatusCount(summaries: seq<TabSummary>, status: string, s: TabSummary)
    ensures multiset(SummariesWithStatus(summaries, status))[s] ==
            if EqualFold(s.overallStatus, status) then multiset(summaries)[s] else 0
  {
    if summaries != [] {
      SummariesWithStatusCount(summaries[1..], status, s);
      assert summaries == [summaries[0]] + summaries[1..];
    }
  }

  /** A summary is kept exactly when it is listed and its status matches; order is kept. */
  lemma {:induction false} SummariesWithStatusProperties(summaries: seq<TabSummary>, status: string, s: TabSummary)
    ensures s in SummariesWithStatus(summaries, status) <==> s in summaries && EqualFold(s.overallStatus, status)
    ensures IsSubsequence(SummariesWithStatus(summaries, status), summaries)
  {
    if summaries == [] {
      assert IsSubsequence<TabSummary>([], []);
    } else {
      SummariesWithStatusProperties(summaries[1..], status, s);
      assert summaries == [summaries[0]] + summaries[1..];
      var rest := SummariesWithStatus(summaries[1..], status);
      if EqualFold(summaries[0].overallStatus, status) {
        assert ([summaries[0]] + rest)[0] == summaries[0] && ([summaries[0]] + rest)[1..] == rest;
      } else {
        assert [] + rest == rest;
        SubsequenceSkip(rest, summaries[1..], summaries[0]);
      }
    }
  }

  /** The summary filter of `tabs summaries`; an empty flag keeps every summary. */
  method FilterSummaries(summaries: seq<TabSummary>, filterStatus: string) returns (filtered: seq<TabSummary>)
    ensures filterStatus == "" ==> filtered == summaries
    ensures filterStatus != "" ==> filtered == SummariesWithStatus(summaries, filterStatus)
  {
    filtered := summaries;
    if filterStatus != "" {
      filtered := [];
      for i := 0 to |summaries|
        invariant filtered == SummariesWithStatus(summaries[..i], filterStatus)
      {
        var s := summaries[i];
        assert summaries[..i + 1] == summaries[..i] + [s];
        SummariesWithStatusAppend(summaries[..i], [s], filterStatus);
        if EqualFold(s.overallStatus, filterStatus) {
          filtered := filtered + [s];
        }
      }
      assert summaries[..|summaries|] == summaries;
    }
  }
}
