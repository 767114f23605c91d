/** Colour class and label of a grid cell, derived from its result code and icon. */
module GridCell {
  import opened Wrappers
  import opened Text
  import opened GridSchema

  const RED := "bg-red-500"
  const GREEN := "bg-green-500"
  const ORANGE := "bg-orange-500"
  const YELLOW := "bg-yellow-500"
  const BLUE_PULSE := "bg-blue-500 animate-pulse"
  const GRAY := "bg-gray-400"
  const PURPLE := "bg-purple-500"
  const NEUTRAL := "bg-gray-200 dark:bg-gray-700"

  /** The icon `"F"` marks a failure whatever the numeric code says. */
  predicate IconForcesFailure(icon: Option<string>) {
    icon == Some("F")
  }

  /** `getCellColor`. */
  function CellColor(result: int, icon: Option<string>): string {
    if IconForcesFailure(icon) then RED
    else if result == PASS || result == PASS_WITH_ERRORS || result == PASS_WITH_SKIPS then GREEN
    else if result == FAIL || result == BUILD_FAIL || result == CATEGORIZED_FAIL || result == FAIL_EXPECTED then RED
    else if result == FLAKY || result == CATEGORIZED_INTERMITTENT_FAIL then ORANGE
    else if result == SKIPPED then YELLOW
    else if result == RUNNING then BLUE_PULSE
    else if result == TRUNCATED then GRAY
    else if result == CANCEL || result == TIMEOUT || result == CATEGORIZED_ABORT then PURPLE
    else NEUTRAL
  }

  /** `getResultLabel`. */
  function ResultLabel(result: int, icon: Option<string>): string {
    if IconForcesFailure(icon) then "Fail"
    else if result == PASS then "Pass"
    else if result == PASS_WITH_ERRORS then "Pass (with errors)"
    else if result == PASS_WITH_SKIPS then "Pass (with skips)"
    else if result == FAIL then "Fail"
    else if result == BUILD_FAIL then "Build Fail"
    else if result == CATEGORIZED_FAIL then "Categorized Fail"
    else if result == FAIL_EXPECTED then "Fail (expected)"
    else if result == FLAKY then "Flaky"
    else if result == CATEGORIZED_INTERMITTENT_FAIL then "Intermittent Fail"
    else if result == SKIPPED then "Skipped"
    else if result == RUNNING then "Running"
    else if result == TRUNCATED then "Truncated"
    else if result == CANCEL then "Cancelled"
    else if result == TIMEOUT then "Timeout"
    else if result == CATEGORIZED_ABORT then "Aborted"
    else if result == NO_RESULT then "No result"
    else if result == UNKNOWN then "Unknown"
    else "Result: " + IntToString(result)
  }

  /** Colour and label of a rendered cell: an absent result is read as NO_RESULT first. */
  function CellAppearance(cell: Cell): (appearance: (string, string))
    ensures cell.result.None? ==>
      appearance == (CellColor(NO_RESULT, cell.icon), ResultLabel(NO_RESULT, cell.icon))
    ensures cell.result.None? && !IconForcesFailure(cell.icon) ==> appearance == (NEUTRAL, "No result")
  {
    var result := cell.result.GetOr(NO_RESULT);
    (CellColor(result, cell.icon), ResultLabel(result, cell.icon))
  }

  /** With icon "F" the cell is red and labelled "Fail" for every result code. */
  lemma FailIconOverrides(result: int)
    ensures CellColor(result, Some("F")) == RED
    ensures ResultLabel(result, Some("F")) == "Fail"
  {
  }

  /** Any other icon, or none, is ignored: colour and label depend on the result alone. */
  lemma OtherIconsIgnored(result: int, icon: Option<string>)
    requires icon != Some("F")
    ensures CellColor(result, icon) == CellColor(result, None)
    ensures ResultLabel(result, icon) == ResultLabel(result, None)
  {
  }

  /** The cell is red exactly when the failure filter counts it as a failure. */
  lemma RedIffFailure(result: int, icon: Option<string>)
    ensures CellColor(result, icon) == RED <==> IconForcesFailure(icon) || IsFailing(result)
  {
  }

  /** The colour of each category of known codes. */
  lemma ColorCategories(result: int)
    ensures IsPassing(result) ==> CellColor(result, None) == GREEN
    ensures result in {FLAKY, CATEGORIZED_INTERMITTENT_FAIL} ==> CellColor(result, None) == ORANGE
    ensures result == SKIPPED ==> CellColor(result, None) == YELLOW
    ensures result == RUNNING ==> CellColor(result, None) == BLUE_PULSE
    ensures result == TRUNCATED ==> CellColor(result, None) == GRAY
    ensures result in {CANCEL, TIMEOUT, CATEGORIZED_ABORT} ==> CellColor(result, None) == PURPLE
    ensures result in {NO_RESULT, UNKNOWN} ==> CellColor(result, None) == NEUTRAL
  {
  }

  /** A code outside the table gets the neutral colour and the label "Result: <code>". */
  lemma UnknownCodeFallback(result: int, icon: Option<string>)
    requires result !in KnownResultCodes && !IconForcesFailure(icon)
    ensures CellColor(result, icon) == NEUTRAL
    ensures ResultLabel(result, icon) == "Result: " + IntToString(result)
  {
  }

  /** The fixed labels of the known codes. */
  const NamedLabels: set<string> := {
    "Fail", "Pass", "Pass (with errors)", "Pass (with skips)", "Build Fail", "Categorized Fail",
    "Fail (expected)", "Flaky", "Intermittent Fail", "Skipped", "Running", "Truncated",
    "Cancelled", "Timeout", "Aborted", "No result", "Unknown"}

  /** Every known code gets one of the fixed labels, never the numeric fallback. */
  lemma KnownCodeLabels(result: int, icon: Option<string>)
    requires result in KnownResultCodes || IconForcesFailure(icon)
    ensures ResultLabel(result, icon) in NamedLabels
  {
  }
}
