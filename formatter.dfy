/** Output helpers of the command-line client: the JSON-or-table dispatch, tab-separated rows,
    ANSI status colours and string truncation. */
module Output {
  import opened Text

  /** The one format name that prints JSON; every other name prints a table. */
  const FormatJSON := "json"

  /** An `io.Writer`, reduced to the text written to it so far. */
  class Writer {
    var output: string

    constructor()
      ensures output == ""
    {
      output := "";
    }

    method Write(s: string)
      modifies this
      ensures output == old(output) + s
    {
      output := output + s;
    }
  }

  /** `PrintRow`: the values joined by tabs, then a newline. */
  method PrintRow(w: Writer, values: seq<string>)
    modifies w
    ensures w.output == old(w.output) + Join(values, "\t") + "\n"
  {
    w.Write(Join(values, "\t") + "\n");
  }

  /** A row of tab-free values can be split back into exactly those values. */
  lemma RowRoundTrip(values: seq<string>)
    requires |values| >= 1
    requires forall k :: 0 <= k < |values| ==> '\t' !in values[k]
    ensures SplitOn(Join(values, "\t"), '\t') == values
  {
    assert "\t" == ['\t'];
    SplitJoin(values, '\t');
  }

  /** `Formatter`: a format and the writer it prints to. */
  class Formatter {
    const format: string
    const writer: Writer

    constructor(w: Writer, format: string)
      ensures this.writer == w && this.format == format
    {
      this.writer := w;
      this.format := format;
    }

    /** `Print`. The encoded JSON document and the text the table function writes are
        given; `tableCalls` counts how often the table function runs. */
    method Print(json: string, table: string) returns (tableCalls: nat)
      modifies writer
      ensures format == FormatJSON ==> tableCalls == 0 && writer.output == old(writer.output) + json
      ensures format != FormatJSON ==> tableCalls == 1 && writer.output == old(writer.output) + table
    {
      if format == FormatJSON {
        writer.Write(json);
        tableCalls := 0;
      } else {
        writer.Write(table);
        tableCalls := 1;
      }
    }
  }

  const Green := "\U{1B}[32m"
  const Red := "\U{1B}[31m"
  const Yellow := "\U{1B}[33m"
  const Gray := "\U{1B}[90m"

  /** The statuses that have a colour, in upper case. */
  predicate HasColor(upper: string) {
    upper == "PASSING" || upper == "PASS" || upper == "FAILING" || upper == "FAIL"
    || upper == "FLAKY" || upper == "STALE"
  }

  /** `StatusColor`: the escape sequence for a status, compared case-insensitively. */
  function StatusColor(status: string): (color: string)
    ensures color != "" <==> HasColor(Upper(status))
    ensures color in {"", Green, Red, Yellow, Gray}
    ensures Upper(status) in {"PASSING", "PASS"} ==> color == Green
    ensures Upper(status) in {"FAILING", "FAIL"} ==> color == Red
    ensures Upper(status) == "FLAKY" ==> color == Yellow
    ensures Upper(status) == "STALE" ==> color == Gray
  {
    var u := Upper(status);
    if u == "PASSING" || u == "PASS" then Green
    else if u == "FAILING" || u == "FAIL" then Red
    else if u == "FLAKY" then Yellow
    else if u == "STALE" then Gray
    else ""
  }

  /** Statuses that differ only in letter case get the same colour. */
  lemma StatusColorIgnoresCase(a: string, b: string)
    requires EqualFold(a, b)
    ensures StatusColor(a) == StatusColor(b)
  {
  }

  /** The escape sequence that restores the terminal's default colour. */
  function ResetColor(): (reset: string)
    ensures |reset| == 4
    ensures reset == "\U{1B}[0m"
    ensures reset !in {Green, Red, Yellow, Gray}
  {
    "\U{1B}[0m"
  }

  /** `ColorStatus`: an uncoloured status is returned as is; a coloured one is wrapped in its
      colour and the reset sequence, with the status text unchanged in between. */
  function ColorStatus(status: string): (r: string)
    ensures StatusColor(status) == "" ==> r == status
    ensures StatusColor(status) != "" ==>
      |r| == |StatusColor(status)| + |status| + 4
      && r[..|StatusColor(status)|] == StatusColor(status)
      && r[|StatusColor(status)|..|StatusColor(status)| + |status|] == status
      && r[|r| - 4..] == ResetColor()
  {
    var color := StatusColor(status);
    if color == "" then status else color + status + ResetColor()
  }

  /** The cases of the repository's tests. */
  lemma ColorStatusExamples()
    ensures ColorStatus("PASSING") == Green + "PASSING" + ResetColor()
    ensures ColorStatus("UNKNOWN") == "UNKNOWN"
    ensures StatusColor("") == ""
  {
    assert Upper("PASSING") == "PASSING";
    assert Upper("UNKNOWN") == "UNKNOWN";
  }

  /** `TruncateString`. A negative length makes the slice panic, so it is excluded. */
  function TruncateString(s: string, maxLen: int): (r: string)
    requires maxLen >= 0
    ensures r == s <==> |s| <= maxLen
    ensures |r| == if |s| <= maxLen then |s| else maxLen
    ensures |s| > maxLen && maxLen <= 3 ==> r == s[..maxLen]
    ensures |s| > maxLen > 3 ==> r[..maxLen - 3] == s[..maxLen - 3] && r[maxLen - 3..] == "..."
  {
    if |s| <= maxLen then s
    else if maxLen <= 3 then s[..maxLen]
    else s[..maxLen - 3] + "..."
  }

  /** Truncating again to the same length changes nothing. */
  lemma TruncateIdempotent(s: string, maxLen: int)
    requires maxLen >= 0
    ensures TruncateString(TruncateString(s, maxLen), maxLen) == TruncateString(s, maxLen)
  {
  }

  /** Truncated strings keep a prefix of the original: cutting to a larger length never keeps
      less of it, as long as no ellipsis is added. */
  lemma TruncateKeepsPrefix(s: string, maxLen: int)
    requires maxLen >= 0
    ensures var r := TruncateString(s, maxLen);
            var kept := if |s| > maxLen > 3 then maxLen - 3 else |r|;
            kept <= |s| && r[..kept] == s[..kept]
  {
  }

  /** The cases of the repository's tests. */
  lemma TruncateExamples()
    ensures TruncateString("short", 10) == "short"
    ensures TruncateString("abcd", 3) == "abc"
    ensures TruncateString("this is a longer string", 10) == "this is..."
  {
    assert "this is a longer string"[..7] == "this is";
  }
}
