/** The command-line client's cell result constants and their display names. */
module CellResult {
  import GridSchema

  const CellResultEmpty := 0
  const CellResultPass := 1
  const CellResultFail := 2
  const CellResultSkipped := 3
  const CellResultTruncated := 6

  /** `CellResultString`. */
  function CellResultString(result: int): (name: string)
    ensures name != ""
    ensures result == CellResultEmpty ==> name == "EMPTY"
    ensures result == CellResultPass ==> name == "PASS"
    ensures result == CellResultFail ==> name == "FAIL"
    ensures result == CellResultSkipped ==> name == "SKIPPED"
    ensures result == CellResultTruncated ==> name == "TRUNCATED"
    ensures name == "UNKNOWN" <==> result !in {CellResultEmpty, CellResultPass, CellResultFail, CellResultSkipped, CellResultTruncated}
  {
    if result == CellResultEmpty then "EMPTY"
    else if result == CellResultPass then "PASS"
    else if result == CellResultFail then "FAIL"
    else if result == CellResultSkipped then "SKIPPED"
    else if result == CellResultTruncated then "TRUNCATED"
    else "UNKNOWN"
  }

  /** Distinct constants get distinct names, so the mapping is injective on them. */
  lemma CellResultNamesDistinct(a: int, b: int)
    requires a in {CellResultEmpty, CellResultPass, CellResultFail, CellResultSkipped, CellResultTruncated}
    requires b in {CellResultEmpty, CellResultPass, CellResultFail, CellResultSkipped, CellResultTruncated}
    requires a != b
    ensures CellResultString(a) != CellResultString(b)
  {
  }

  /** The command-line constants agree with the web client's codes of the same name. */
  lemma ConstantsAgreeWithGrid()
    ensures CellResultEmpty == GridSchema.NO_RESULT
    ensures CellResultPass == GridSchema.PASS
    ensures CellResultFail == GridSchema.FAIL
    ensures CellResultSkipped == GridSchema.SKIPPED
    ensures CellResultTruncated == GridSchema.TRUNCATED
  {
  }
}
