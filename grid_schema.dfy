/** The result-code domain model of the test grid: the known result codes, the cell,
    row and header records, and the passing / failing predicates. */
module GridSchema {
  import opened Wrappers

  // The known result codes (TestGrid's result enumeration).
  const NO_RESULT := 0
  const PASS := 1
  const FAIL := 2
  const SKIPPED := 3
  const UNKNOWN := 4
  const FLAKY := 5
  const TRUNCATED := 6
  const RUNNING := 7
  const PASS_WITH_ERRORS := 12
  const PASS_WITH_SKIPS := 13
  const FAIL_EXPECTED := 14
  const BUILD_FAIL := 15
  const CATEGORIZED_ABORT := 16
  const CATEGORIZED_FAIL := 17
  const CATEGORIZED_INTERMITTENT_FAIL := 18
  const CANCEL := 19
  const TIMEOUT := 20

  /** The values of the known-code table, in declaration order. */
  const KnownResultCodes: seq<int> :=
    [NO_RESULT, PASS, FAIL, SKIPPED, UNKNOWN, FLAKY, TRUNCATED, RUNNING,
     PASS_WITH_ERRORS, PASS_WITH_SKIPS, FAIL_EXPECTED, BUILD_FAIL, CATEGORIZED_ABORT,
     CATEGORIZED_FAIL, CATEGORIZED_INTERMITTENT_FAIL, CANCEL, TIMEOUT]

  /** The human-readable status name of each known code. */
  const ResultStatus: map<int, string> := map[
    0 := "empty", 1 := "pass", 2 := "fail", 3 := "skip", 4 := "unknown", 5 := "flaky",
    6 := "truncated", 7 := "running", 12 := "pass_with_errors", 13 := "pass_with_skips",
    14 := "fail_expected", 15 := "build_fail", 16 := "categorized_abort",
    17 := "categorized_fail", 18 := "categorized_intermittent_fail", 19 := "cancel",
    20 := "timeout"]

  /** One test's outcome on one build; every field may be absent. */
  datatype Cell = Cell(result: Option<int>, message: Option<string>, icon: Option<string>)

  /** One test across all builds; `cells[i]` belongs to column `i`. */
  datatype Row = Row(name: string, cells: seq<Cell>)

  /** One build column. */
  datatype Header = Header(build: string, started: Option<string>, extra: Option<seq<string>>)

  /** The schema accepts a result code only when it is a non-negative integer. */
  predicate ValidCell(cell: Cell) {
    cell.result.Some? ==> cell.result.value >= 0
  }

  /** `getResultCode`: the stored result, or NO_RESULT when the cell has none. */
  function ResultCode(cell: Cell): (code: int)
    ensures cell.result.None? ==> code == NO_RESULT
    ensures cell.result.Some? ==> code == cell.result.value
    ensures ValidCell(cell) ==> code >= 0
  {
    cell.result.GetOr(NO_RESULT)
  }

  /** `getResultStatus`: the table name of the cell's code, `"unknown"` for codes outside it. */
  function ResultStatusName(cell: Cell): (name: string)
    ensures ResultCode(cell) in ResultStatus ==> name == ResultStatus[ResultCode(cell)]
    ensures ResultCode(cell) !in KnownResultCodes ==> name == "unknown"
  {
    var code := ResultCode(cell);
    if code in ResultStatus then ResultStatus[code] else "unknown"
  }

  /** `isPassingResult`. */
  predicate IsPassing(code: int) {
    code == PASS || code == PASS_WITH_ERRORS || code == PASS_WITH_SKIPS
  }

  /** `isFailingResult`. */
  predicate IsFailing(code: int) {
    code == FAIL || code == BUILD_FAIL || code == CATEGORIZED_FAIL || code == FAIL_EXPECTED
  }

  /** The status table is keyed by exactly the known codes. */
  lemma StatusTableCoversKnownCodes()
    ensures ResultStatus.Keys == set c | c in KnownResultCodes
  {
  }

  /** The known codes are non-negative and pairwise distinct. */
  lemma KnownCodesDistinct()
    ensures forall i :: 0 <= i < |KnownResultCodes| ==> KnownResultCodes[i] >= 0
    ensures forall i, j :: 0 <= i < j < |KnownResultCodes| ==> KnownResultCodes[i] != KnownResultCodes[j]
  {
  }

  /** Passing codes are exactly {1, 12, 13}, failing codes exactly {2, 14, 15, 17};
      no code is both, and FLAKY and CATEGORIZED_INTERMITTENT_FAIL are neither. */
  lemma PassFailPartition(code: int)
    ensures IsPassing(code) <==> code in {1, 12, 13}
    ensures IsFailing(code) <==> code in {2, 14, 15, 17}
    ensures !(IsPassing(code) && IsFailing(code))
    ensures code == FLAKY || code == CATEGORIZED_INTERMITTENT_FAIL ==> !IsPassing(code) && !IsFailing(code)
    ensures IsPassing(code) || IsFailing(code) ==> code in KnownResultCodes
  {
  }
}
