/** Fuzzy search over names: a tiered matcher (exact, prefix, substring, word start, and a
    greedy in-order character scan), ranking of many items, and splitting a text into
    highlighted and plain segments. */
module Search {
  import opened Wrappers
  import opened Text

  /** A half-open range `[start, end)` of a text. */
  datatype Span = Span(start: int, end: int)

  /** A successful match: its score (higher is better) and the matched ranges. */
  datatype MatchResult = MatchResult(score: real, matches: seq<Span>)

  /** `a / b` as a JavaScript number quotient. */
  function Ratio(a: nat, b: nat): real
    requires b > 0
  {
    a as real / b as real
  }

  predicate StartsWith(s: string, prefix: string) {
    |prefix| <= |s| && s[..|prefix|] == prefix
  }

  // ---------------------------------------------------------------- words

  /** The separators of the word split: whitespace, `-`, `_`, `.` and `/`. */
  predicate IsSeparator(c: char) {
    IsWhitespace(c) || c == '-' || c == '_' || c == '.' || c == '/'
  }

  /** The end of the run of separators starting at `i`. */
  function SkipSeparators(s: string, i: nat): (j: nat)
    requires i <= |s|
    ensures i <= j <= |s|
    ensures i < |s| && IsSeparator(s[i]) ==> i < j
    decreases |s| - i
  {
    if i < |s| && IsSeparator(s[i]) then SkipSeparators(s, i + 1) else i
  }

  /** The ranges of the pieces of `s[start..]` when split on runs of separators, the current
      piece having begun at `start` and been scanned up to `i`. */
  function WordSpans(s: string, start: nat, i: nat): (spans: seq<Span>)
    requires start <= i <= |s|
    ensures forall k :: 0 <= k < |spans| ==> 0 <= spans[k].start <= spans[k].end <= |s|
    decreases |s| - i
  {
    if i == |s| then [Span(start, |s|)]
    else if IsSeparator(s[i]) then
      var j := SkipSeparators(s, i);
      [Span(start, i)] + WordSpans(s, j, j)
    else WordSpans(s, start, i + 1)
  }

  /** `s.split(/[\s\-_./]+/)`. */
  function Words(s: string): (words: seq<string>)
    ensures |words| == |WordSpans(s, 0, 0)|
  {
    var spans := WordSpans(s, 0, 0);
    seq(|spans|, k requires 0 <= k < |spans| => s[spans[k].start..spans[k].end])
  }

  /** Every word is a piece of the text. */
  lemma WordOccurs(s: string, k: int)
    requires 0 <= k < |Words(s)|
    ensures OccursAt(Words(s)[k], s, WordSpans(s, 0, 0)[k].start)
  {
  }

  /** The word-start tier: the first word beginning with the query, located with
      `indexOf(word, wordStart)`. */
  function WordTier(lowerText: string, lowerQuery: string, queryLength: nat, words: seq<string>, wordStart: nat): Option<MatchResult>
    requires lowerQuery != []
  {
    if words == [] then None
    else if StartsWith(words[0], lowerQuery) then
      var actualStart := IndexOfFrom(lowerText, words[0], wordStart);
      Some(MatchResult(400.0 + Ratio(queryLength, |words[0]|) * 50.0, [Span(actualStart, actualStart + queryLength)]))
    else WordTier(lowerText, lowerQuery, queryLength, words[1..], wordStart + |words[0]| + 1)
  }

  // ---------------------------------------------------------------- the in-order character scan

  /** The variables of the scan loop. */
  datatype ScanState = ScanState(textIndex: nat, queryIndex: nat, currentMatchStart: int, matches: seq<Span>)

  const InitialScan := ScanState(0, 0, -1, [])

  predicate Scanning(lowerText: string, lowerQuery: string, st: ScanState) {
    st.textIndex < |lowerText| && st.queryIndex < |lowerQuery|
  }

  /** One iteration of the scan loop. */
  function ScanStep(lowerText: string, lowerQuery: string, st: ScanState): ScanState
    requires Scanning(lowerText, lowerQuery, st)
  {
    if lowerText[st.textIndex] == lowerQuery[st.queryIndex] then
      var start := if st.currentMatchStart == -1 then st.textIndex else st.currentMatchStart;
      ScanState(st.textIndex + 1, st.queryIndex + 1, start, st.matches)
    else if st.currentMatchStart != -1 then
      ScanState(st.textIndex + 1, st.queryIndex, -1, st.matches + [Span(st.currentMatchStart, st.textIndex)])
    else
      ScanState(st.textIndex + 1, st.queryIndex, -1, st.matches)
  }

  /** The state in which the scan loop stops. */
  function Scan(lowerText: string, lowerQuery: string, st: ScanState): (final: ScanState)
    ensures !Scanning(lowerText, lowerQuery, final)
    decreases |lowerText| - st.textIndex
  {
    if Scanning(lowerText, lowerQuery, st) then Scan(lowerText, lowerQuery, ScanStep(lowerText, lowerQuery, st)) else st
  }

  /** The matched ranges after closing a range still open when the loop stopped. */
  function CloseMatches(st: ScanState): seq<Span> {
    if st.currentMatchStart != -1 then st.matches + [Span(st.currentMatchStart, st.textIndex)] else st.matches
  }

  /** The total length of the ranges (the left-to-right `reduce` over the matches). */
  function SumLengths(spans: seq<Span>): int {
    if spans == [] then 0
    else SumLengths(spans[..|spans| - 1]) + (spans[|spans| - 1].end - spans[|spans| - 1].start)
  }

  /** The fuzzy score: compactness of the matched ranges and coverage of the text. */
  function FuzzyScore(spans: seq<Span>, queryLength: nat, textLength: nat): real
    requires textLength > 0
  {
    var matchedLength := SumLengths(spans);
    var totalSpan := if |spans| > 0 then spans[|spans| - 1].end - spans[0].start else 0;
    var compactness := matchedLength as real / (if totalSpan < 1 then 1 else totalSpan) as real;
    var coverage := Ratio(queryLength, textLength);
    100.0 + compactness * 100.0 + coverage * 50.0
  }

  /** The last tier: succeed when the scan consumed the whole query. */
  function FuzzyTier(lowerText: string, lowerQuery: string, queryLength: nat, textLength: nat): Option<MatchResult>
    requires textLength > 0
  {
    var final := Scan(lowerText, lowerQuery, InitialScan);
    if final.queryIndex == |lowerQuery| then
      var spans := CloseMatches(final);
      Some(MatchResult(FuzzyScore(spans, queryLength, textLength), spans))
    else None
  }

  // ---------------------------------------------------------------- the matcher

  /** `fuzzyMatch`: the tiers in order, the first that applies deciding. */
  function Match(text: string, query: string): Option<MatchResult> {
    if text == "" || query == "" then None
    else
      var lowerText := Lower(text);
      var lowerQuery := Lower(query);
      if lowerText == lowerQuery then Some(MatchResult(1000.0, [Span(0, |text|)]))
      else if StartsWith(lowerText, lowerQuery) then
        Some(MatchResult(800.0 + Ratio(|query|, |text|) * 100.0, [Span(0, |query|)]))
      else
        var substringIndex := IndexOf(lowerText, lowerQuery);
        if substringIndex != -1 then
          Some(MatchResult(500.0 + Ratio(|query|, |text|) * 100.0, [Span(substringIndex, substringIndex + |query|)]))
        else
          var word := WordTier(lowerText, lowerQuery, |query|, Words(lowerText), 0);
          if word.Some? then word
          else FuzzyTier(lowerText, lowerQuery, |query|, |text|)
  }

  /** `fuzzyMatch` as the program runs it: the word loop and the scan loop step by step. */
  method FuzzyMatch(text: string, query: string) returns (r: Option<MatchResult>)
    ensures r == Match(text, query)
  {
    if text == "" || query == "" {
      return None;
    }
    var lowerText := Lower(text);
    var lowerQuery := Lower(query);
    if lowerText == lowerQuery {
      return Some(MatchResult(1000.0, [Span(0, |text|)]));
    }
    if StartsWith(lowerText, lowerQuery) {
      return Some(MatchResult(800.0 + Ratio(|query|, |text|) * 100.0, [Span(0, |query|)]));
    }
    var substringIndex := IndexOf(lowerText, lowerQuery);
    if substringIndex != -1 {
      return Some(MatchResult(500.0 + Ratio(|query|, |text|) * 100.0, [Span(substringIndex, substringIndex + |query|)]));
    }

    var word := WordLoop(lowerText, lowerQuery, |query|);
    if word.Some? {
      return word;
    }
    var textIndex, queryIndex, currentMatchStart, matches := ScanLoop(lowerText, lowerQuery);
    if currentMatchStart != -1 {
      matches := matches + [Span(currentMatchStart, textIndex)];
    }
    if queryIndex == |lowerQuery| {
      var matchedLength := SumLengths(matches);
      var totalSpan := if |matches| > 0 then matches[|matches| - 1].end - matches[0].start else 0;
      var compactness := matchedLength as real / (if totalSpan < 1 then 1 else totalSpan) as real;
      var coverage := Ratio(|query|, |text|);
      return Some(MatchResult(100.0 + compactness * 100.0 + coverage * 50.0, matches));
    }
    return None;
  }

  /** The loop over the words of the word-start tier. */
  method WordLoop(lowerText: string, lowerQuery: string, queryLength: nat) returns (r: Option<MatchResult>)
    requires lowerQuery != []
    ensures r == WordTier(lowerText, lowerQuery, queryLength, Words(lowerText), 0)
  {
    var words := Words(lowerText);
    var wordStart: nat := 0;
    for k := 0 to |words|
      invariant WordTier(lowerText, lowerQuery, queryLength, words[k..], wordStart)
                == WordTier(lowerText, lowerQuery, queryLength, words, 0)
    {
      assert words[k..][1..] == words[k + 1..];
      var word := words[k];
      if StartsWith(word, lowerQuery) {
        var actualStart := IndexOfFrom(lowerText, word, wordStart);
        return Some(MatchResult(400.0 + Ratio(queryLength, |word|) * 50.0, [Span(actualStart, actualStart + queryLength)]));
      }
      wordStart := wordStart + |word| + 1;
    }
    return None;
  }

  /** The in-order character scan loop. */
  method ScanLoop(lowerText: string, lowerQuery: string)
    returns (textIndex: nat, queryIndex: nat, currentMatchStart: int, matches: seq<Span>)
    ensures ScanState(textIndex, queryIndex, currentMatchStart, matches) == Scan(lowerText, lowerQuery, InitialScan)
  {
    textIndex, queryIndex, currentMatchStart, matches := 0, 0, -1, [];
    while textIndex < |lowerText| && queryIndex < |lowerQuery|
      invariant Scan(lowerText, lowerQuery, ScanState(textIndex, queryIndex, currentMatchStart, matches))
                == Scan(lowerText, lowerQuery, InitialScan)
      decreases |lowerText| - textIndex
    {
      if lowerText[textIndex] == lowerQuery[queryIndex] {
        if currentMatchStart == -1 {
          currentMatchStart := textIndex;
        }
        queryIndex := queryIndex + 1;
      } else if currentMatchStart != -1 {
        matches := matches + [Span(currentMatchStart, textIndex)];
        currentMatchStart := -1;
      }
      textIndex := textIndex + 1;
    }
  }

  // ---------------------------------------------------------------- properties of the matcher

  /** The word-start tier never decides: a word that starts with the query contains it, so
      the query occurs in the text and the substring tier has already answered. */
  lemma WordTierUnreachable(lowerText: string, lowerQuery: string, queryLength: nat)
    requires lowerQuery != [] && IndexOf(lowerText, lowerQuery) == -1
    ensures WordTier(lowerText, lowerQuery, queryLength, Words(lowerText), 0) == None
  {
    WordSuffixNone(lowerText, lowerQuery, queryLength, 0, 0);
  }

  lemma {:induction false} WordSuffixNone(lowerText: string, lowerQuery: string, queryLength: nat, i: nat, wordStart: nat)
    requires lowerQuery != [] && IndexOf(lowerText, lowerQuery) == -1
    requires i <= |Words(lowerText)|
    ensures WordTier(lowerText, lowerQuery, queryLength, Words(lowerText)[i..], wordStart) == None
    decreases |Words(lowerText)| - i
  {
    var words := Words(lowerText);
    if i < |words| {
      var word := words[i];
      var a := WordSpans(lowerText, 0, 0)[i].start;
      WordOccurs(lowerText, i);
      IncludesIffIndexOf(lowerText, lowerQuery);
      assert StartsWith(word, lowerQuery) ==> OccursAt(lowerQuery, lowerText, a) by {
        if StartsWith(word, lowerQuery) {
          assert lowerText[a..a + |lowerQuery|] == word[..|lowerQuery|];
        }
      }
      assert !StartsWith(word, lowerQuery);
      assert words[i..][1..] == words[i + 1..];
      WordSuffixNone(lowerText, lowerQuery, queryLength, i + 1, wordStart + |word| + 1);
    }
  }

  /** Ranges that are non-empty, within `[0, bound)`, increasing and separated by gaps. */
  predicate SpansOrdered(spans: seq<Span>, bound: int) {
    (forall k :: 0 <= k < |spans| ==> 0 <= spans[k].start < spans[k].end <= bound) &&
    (forall j, k :: 0 <= j < |spans| && k == j + 1 && k < |spans| ==> spans[j].end < spans[k].start)
  }

  predicate InBounds(spans: seq<Span>, length: int) {
    forall k :: 0 <= k < |spans| ==> 0 <= spans[k].start <= spans[k].end <= length
  }

  /** The text covered by the ranges, in order. */
  function Spelled(s: string, spans: seq<Span>): (r: string)
    requires InBounds(spans, |s|)
    ensures |r| == SumLengths(spans)
  {
    if spans == [] then []
    else Spelled(s, spans[..|spans| - 1]) + s[spans[|spans| - 1].start..spans[|spans| - 1].end]
  }

  /** What holds of the scan variables at every iteration: the closed ranges are ordered,
      and the closed ranges plus the open one spell the query consumed so far. */
  ghost predicate ScanInv(lowerText: string, lowerQuery: string, st: ScanState) {
    var ms := st.matches;
    st.textIndex <= |lowerText| && st.queryIndex <= |lowerQuery| &&
    SpansOrdered(ms, st.textIndex) &&
    (st.currentMatchStart == -1 ==>
      (|ms| > 0 ==> ms[|ms| - 1].end < st.textIndex) &&
      Spelled(lowerText, ms) == lowerQuery[..st.queryIndex]) &&
    (st.currentMatchStart != -1 ==>
      0 <= st.currentMatchStart < st.textIndex &&
      (|ms| > 0 ==> ms[|ms| - 1].end < st.currentMatchStart) &&
      Spelled(lowerText, ms) + lowerText[st.currentMatchStart..st.textIndex] == lowerQuery[..st.queryIndex])
  }

  lemma ScanStepInv(lowerText: string, lowerQuery: string, st: ScanState)
    requires Scanning(lowerText, lowerQuery, st) && ScanInv(lowerText, lowerQuery, st)
    ensures ScanInv(lowerText, lowerQuery, ScanStep(lowerText, lowerQuery, st))
  {
    if lowerText[st.textIndex] == lowerQuery[st.queryIndex] {
      if st.currentMatchStart == -1 {
        ScanOpenStep(lowerText, lowerQuery, st);
      } else {
        ScanExtendStep(lowerText, lowerQuery, st);
      }
    } else if st.currentMatchStart != -1 {
      ScanCloseStep(lowerText, lowerQuery, st);
    } else {
      ScanSkipStep(lowerText, lowerQuery, st);
    }
  }

  /** A matching character with no range open opens one. */
  lemma ScanOpenStep(lowerText: string, lowerQuery: string, st: ScanState)
    requires Scanning(lowerText, lowerQuery, st) && ScanInv(lowerText, lowerQuery, st)
    requires lowerText[st.textIndex] == lowerQuery[st.queryIndex] && st.currentMatchStart == -1
    ensures ScanInv(lowerText, lowerQuery, ScanStep(lowerText, lowerQuery, st))
  {
    var ti, qi := st.textIndex, st.queryIndex;
    assert ScanStep(lowerText, lowerQuery, st) == ScanState(ti + 1, qi + 1, ti, st.matches);
    assert lowerQuery[..qi + 1] == lowerQuery[..qi] + [lowerQuery[qi]];
    assert lowerText[ti..ti + 1] == [lowerText[ti]];
  }

  /** A matching character with a range open extends it. */
  lemma ScanExtendStep(lowerText: string, lowerQuery: string, st: ScanState)
    requires Scanning(lowerText, lowerQuery, st) && ScanInv(lowerText, lowerQuery, st)
    requires lowerText[st.textIndex] == lowerQuery[st.queryIndex] && st.currentMatchStart != -1
    ensures ScanInv(lowerText, lowerQuery, ScanStep(lowerText, lowerQuery, st))
  {
    var ti, qi, cur := st.textIndex, st.queryIndex, st.currentMatchStart;
    assert ScanStep(lowerText, lowerQuery, st) == ScanState(ti + 1, qi + 1, cur, st.matches);
    assert lowerQuery[..qi + 1] == lowerQuery[..qi] + [lowerQuery[qi]];
    assert lowerText[cur..ti + 1] == lowerText[cur..ti] + [lowerText[ti]];
  }

  /** A mismatch with a range open closes it. */
  lemma ScanCloseStep(lowerText: string, lowerQuery: string, st: ScanState)
    requires Scanning(lowerText, lowerQuery, st) && ScanInv(lowerText, lowerQuery, st)
    requires lowerText[st.textIndex] != lowerQuery[st.queryIndex] && st.currentMatchStart != -1
    ensures ScanInv(lowerText, lowerQuery, ScanStep(lowerText, lowerQuery, st))
  {
    var ms' := st.matches + [Span(st.currentMatchStart, st.textIndex)];
    assert ScanStep(lowerText, lowerQuery, st) == ScanState(st.textIndex + 1, st.queryIndex, -1, ms');
    assert ms'[..|ms'| - 1] == st.matches;
    assert Spelled(lowerText, ms') == Spelled(lowerText, st.matches) + lowerText[st.currentMatchStart..st.textIndex];
  }

  /** A mismatch with no range open only advances in the text. */
  lemma ScanSkipStep(lowerText: string, lowerQuery: string, st: ScanState)
    requires Scanning(lowerText, lowerQuery, st) && ScanInv(lowerText, lowerQuery, st)
    requires lowerText[st.textIndex] != lowerQuery[st.queryIndex] && st.currentMatchStart == -1
    ensures ScanInv(lowerText, lowerQuery, ScanStep(lowerText, lowerQuery, st))
  {
    assert ScanStep(lowerText, lowerQuery, st) == ScanState(st.textIndex + 1, st.queryIndex, -1, st.matches);
  }

  lemma {:induction false} ScanKeepsInv(lowerText: string, lowerQuery: string, st: ScanState)
    requires ScanInv(lowerText, lowerQuery, st)
    ensures ScanInv(lowerText, lowerQuery, Scan(lowerText, lowerQuery, st))
    decreases |lowerText| - st.textIndex
  {
    if Scanning(lowerText, lowerQuery, st) {
      ScanStepInv(lowerText, lowerQuery, st);
      ScanKeepsInv(lowerText, lowerQuery, ScanStep(lowerText, lowerQuery, st));
    }
  }

  /** The greedy scan consumes the whole query exactly when the rest of the query is a
      subsequence of the rest of the text. */
  lemma {:induction false} ScanCompletes(lowerText: string, lowerQuery: string, st: ScanState)
    requires st.textIndex <= |lowerText| && st.queryIndex <= |lowerQuery|
    ensures Scan(lowerText, lowerQuery, st).queryIndex == |lowerQuery|
            <==> IsSubsequence(lowerQuery[st.queryIndex..], lowerText[st.textIndex..])
    decreases |lowerText| - st.textIndex
  {
    var q, t := lowerQuery[st.queryIndex..], lowerText[st.textIndex..];
    if Scanning(lowerText, lowerQuery, st) {
      ScanCompletes(lowerText, lowerQuery, ScanStep(lowerText, lowerQuery, st));
      assert q[0] == lowerQuery[st.queryIndex] && t[0] == lowerText[st.textIndex];
      assert q[1..] == lowerQuery[st.queryIndex + 1..] && t[1..] == lowerText[st.textIndex + 1..];
    }
  }

  lemma {:induction false} SumLengthsWithinSpan(spans: seq<Span>, bound: int)
    requires SpansOrdered(spans, bound) && |spans| > 0
    ensures SumLengths(spans) <= spans[|spans| - 1].end - spans[0].start
    decreases |spans|
  {
    if |spans| > 1 {
      var init := spans[..|spans| - 1];
      SumLengthsWithinSpan(init, bound);
    }
  }

  lemma RatioBounds(a: nat, b: nat)
    requires 0 < a <= b
    ensures 0.0 < Ratio(a, b) <= 1.0
    ensures a < b ==> Ratio(a, b) < 1.0
  {
    var r := Ratio(a, b);
    assert r * b as real == a as real;
  }

  /** The fuzzy tier: it succeeds exactly when the lower-cased query is a subsequence of the
      lower-cased text; its ranges are then ordered and separated, spell the query, have
      total length |query|, and the score lies in (100, 250]. */
  lemma FuzzyTierProperties(text: string, query: string)
    requires text != "" && query != ""
    ensures var r := FuzzyTier(Lower(text), Lower(query), |query|, |text|);
      (r.Some? <==> IsSubsequence(Lower(query), Lower(text))) &&
      (r.Some? ==>
        SpansOrdered(r.value.matches, |text|) &&
        Spelled(Lower(text), r.value.matches) == Lower(query) &&
        SumLengths(r.value.matches) == |query| &&
        100.0 < r.value.score <= 250.0)
  {
    var lt, lq := Lower(text), Lower(query);
    var final := Scan(lt, lq, InitialScan);
    ScanCompletes(lt, lq, InitialScan);
    assert lq[0..] == lq && lt[0..] == lt;
    if final.queryIndex == |lq| {
      var spans := CloseMatches(final);
      FuzzySpans(lt, lq);
      SubsequenceLength(lq, lt);
      FuzzyScoreBounds(spans, |query|, |text|);
    }
  }

  /** When the scan consumes the whole query, the closed ranges are ordered and spell it. */
  lemma FuzzySpans(lowerText: string, lowerQuery: string)
    requires Scan(lowerText, lowerQuery, InitialScan).queryIndex == |lowerQuery|
    ensures var spans := CloseMatches(Scan(lowerText, lowerQuery, InitialScan));
      SpansOrdered(spans, |lowerText|) && Spelled(lowerText, spans) == lowerQuery &&
      SumLengths(spans) == |lowerQuery|
  {
    assert ScanInv(lowerText, lowerQuery, InitialScan) by { assert lowerQuery[..0] == []; }
    ScanKeepsInv(lowerText, lowerQuery, InitialScan);
    CloseMatchesSpell(lowerText, lowerQuery, Scan(lowerText, lowerQuery, InitialScan));
  }

  /** Closing the open range of a state that has consumed the whole query. */
  lemma CloseMatchesSpell(lowerText: string, lowerQuery: string, st: ScanState)
    requires ScanInv(lowerText, lowerQuery, st) && st.queryIndex == |lowerQuery|
    ensures SpansOrdered(CloseMatches(st), |lowerText|) && Spelled(lowerText, CloseMatches(st)) == lowerQuery
  {
    if st.currentMatchStart != -1 {
      CloseWithOpenRange(lowerText, lowerQuery, st);
    } else {
      CloseWithoutOpenRange(lowerText, lowerQuery, st);
    }
  }

  lemma CloseWithOpenRange(lowerText: string, lowerQuery: string, st: ScanState)
    requires ScanInv(lowerText, lowerQuery, st) && st.queryIndex == |lowerQuery|
    requires st.currentMatchStart != -1
    ensures SpansOrdered(st.matches + [Span(st.currentMatchStart, st.textIndex)], |lowerText|)
    ensures Spelled(lowerText, st.matches + [Span(st.currentMatchStart, st.textIndex)]) == lowerQuery
  {
    assert lowerQuery[..st.queryIndex] == lowerQuery;
    SpansOrderedWeaken(st.matches, st.textIndex, |lowerText|);
    CloseOpenRange(lowerText, st.matches, Span(st.currentMatchStart, st.textIndex));
  }

  lemma CloseWithoutOpenRange(lowerText: string, lowerQuery: string, st: ScanState)
    requires ScanInv(lowerText, lowerQuery, st) && st.queryIndex == |lowerQuery|
    requires st.currentMatchStart == -1
    ensures SpansOrdered(st.matches, |lowerText|)
    ensures Spelled(lowerText, st.matches) == lowerQuery
  {
    assert lowerQuery[..st.queryIndex] == lowerQuery;
    SpansOrderedWeaken(st.matches, st.textIndex, |lowerText|);
  }

  /** Appending a range after ordered ranges keeps them ordered and spells its text last. */
  lemma CloseOpenRange(s: string, ms: seq<Span>, last: Span)
    requires SpansOrdered(ms, |s|) && 0 <= last.start < last.end <= |s|
    requires |ms| > 0 ==> ms[|ms| - 1].end < last.start
    ensures SpansOrdered(ms + [last], |s|)
    ensures Spelled(s, ms + [last]) == Spelled(s, ms) + s[last.start..last.end]
  {
    var spans := ms + [last];
    assert spans[..|spans| - 1] == ms && spans[|spans| - 1] == last;
    SpansOrderedSnoc(ms, last, |s|);
  }

  lemma SpansOrderedWeaken(spans: seq<Span>, bound: int, bound': int)
    requires SpansOrdered(spans, bound) && bound <= bound'
    ensures SpansOrdered(spans, bound')
  {
  }

  lemma SpansOrderedSnoc(spans: seq<Span>, last: Span, bound: int)
    requires SpansOrdered(spans, bound) && 0 <= last.start < last.end <= bound
    requires |spans| > 0 ==> spans[|spans| - 1].end < last.start
    ensures SpansOrdered(spans + [last], bound)
  {
    var r := spans + [last];
    forall j, k | 0 <= j < |r| && k == j + 1 && k < |r| ensures r[j].end < r[k].start {
      if k < |spans| {
        assert r[j] == spans[j] && r[k] == spans[k];
      }
    }
  }

  /** Ordered ranges of total length `queryLength`, within a text at least that long, score
      in (100, 250]. */
  lemma FuzzyScoreBounds(spans: seq<Span>, queryLength: nat, textLength: nat)
    requires SpansOrdered(spans, textLength) && SumLengths(spans) == queryLength
    requires 0 < queryLength <= textLength
    ensures 100.0 < FuzzyScore(spans, queryLength, textLength) <= 250.0
  {
    assert |spans| > 0;
    SumLengthsWithinSpan(spans, textLength);
    RatioBounds(queryLength, textLength);
    var totalSpan := spans[|spans| - 1].end - spans[0].start;
    RatioBounds(queryLength, totalSpan);
  }

  /** The tier that answers for a text and a query. */
  datatype Tier = NoMatch | Fuzzy | Substring | Prefix | Exact

  function TierOf(text: string, query: string): Tier {
    if text == "" || query == "" then NoMatch
    else if Lower(text) == Lower(query) then Exact
    else if StartsWith(Lower(text), Lower(query)) then Prefix
    else if IndexOf(Lower(text), Lower(query)) != -1 then Substring
    else if IsSubsequence(Lower(query), Lower(text)) then Fuzzy
    else NoMatch
  }

  /** Better tiers rank higher. */
  function Rank(tier: Tier): nat {
    match tier
    case NoMatch => 0
    case Fuzzy => 1
    case Substring => 2
    case Prefix => 3
    case Exact => 4
  }

  /** What each tier answers: an exact (case-insensitive) match scores 1000 over the whole
      text; a proper prefix scores in (800, 900) over `[0, |query|)`; a substring scores in
      (500, 600) over the first occurrence; the fuzzy tier scores in (100, 250]; and there
      is no match at all exactly when a string is empty or the query is not a subsequence. */
  lemma MatchTiers(text: string, query: string)
    ensures var r := Match(text, query);
      var tier := TierOf(text, query);
      (r.None? <==> tier == NoMatch) &&
      (tier == NoMatch <==> text == "" || query == "" || !IsSubsequence(Lower(query), Lower(text))) &&
      (tier == Exact ==> r == Some(MatchResult(1000.0, [Span(0, |text|)]))) &&
      (tier == Prefix ==> r.value.matches == [Span(0, |query|)] && 800.0 < r.value.score < 900.0) &&
      (tier == Substring ==>
        var i := IndexOf(Lower(text), Lower(query));
        0 < i && r.value.matches == [Span(i, i + |query|)] && OccursAt(Lower(query), Lower(text), i) &&
        500.0 < r.value.score < 600.0) &&
      (tier == Fuzzy ==>
        SpansOrdered(r.value.matches, |text|) && Spelled(Lower(text), r.value.matches) == Lower(query) &&
        100.0 < r.value.score <= 250.0)
  {
    if text != "" && query != "" {
      var lt, lq := Lower(text), Lower(query);
      if lt == lq {
        OccurrenceIsSubsequence(lq, lt, 0);
      } else if StartsWith(lt, lq) {
        assert OccursAt(lq, lt, 0);
        OccurrenceIsSubsequence(lq, lt, 0);
        assert |lq| < |lt|;
        RatioBounds(|query|, |text|);
      } else if IndexOf(lt, lq) != -1 {
        var i := IndexOf(lt, lq);
        OccurrenceIsSubsequence(lq, lt, i);
        assert i != 0;
        RatioBounds(|query|, |text|);
      } else {
        WordTierUnreachable(lt, lq, |query|);
        FuzzyTierProperties(text, query);
      }
    }
  }

  /** The tiers are strictly ordered by score: any match of a better tier outscores any
      match of a worse one. */
  lemma TiersStrictlyOrdered(text1: string, query1: string, text2: string, query2: string)
    requires TierOf(text2, query2) != NoMatch
    requires Rank(TierOf(text1, query1)) > Rank(TierOf(text2, query2))
    ensures Match(text1, query1).Some? && Match(text2, query2).Some?
    ensures Match(text1, query1).value.score > Match(text2, query2).value.score
  {
    MatchTiers(text1, query1);
    MatchTiers(text2, query2);
  }

  /** The worked example of a word-start query: "main" in "sig-release-main" is answered by
      the substring tier, at index 12. */
  lemma MatchExample()
    ensures TierOf("sig-release-main", "main") == Substring
    ensures Match("sig-release-main", "main").value.matches == [Span(12, 16)]
  {
    var t := "sig-release-main";
    assert Lower(t) == t;
    assert Lower("main") == "main";
    assert OccursAt("main", t, 12);
    NoEarlierMain();
    IndexOfNoEarlier(t, "main", 0, 12);
    assert !StartsWith(t, "main");
    SubstringTier(t, "main");
  }

  /** When the texts differ, the query is no prefix but occurs, the substring tier answers
      with the first occurrence. */
  lemma SubstringTier(text: string, query: string)
    requires text != "" && query != ""
    requires Lower(text) != Lower(query) && !StartsWith(Lower(text), Lower(query))
    requires IndexOf(Lower(text), Lower(query)) != -1
    ensures TierOf(text, query) == Substring
    ensures Match(text, query).value.matches
            == [Span(IndexOf(Lower(text), Lower(query)), IndexOf(Lower(text), Lower(query)) + |query|)]
  {
  }

  lemma NoEarlierMain()
    ensures forall k :: 0 <= k < 12 ==> !OccursAt("main", "sig-release-main", k)
  {
    var t := "sig-release-main";
    assert t == ['s', 'i', 'g', '-', 'r', 'e', 'l', 'e', 'a', 's', 'e', '-', 'm', 'a', 'i', 'n'];
    forall k | 0 <= k < 12 ensures !OccursAt("main", t, k) {
      assert t[k] != 'm';
    }
  }

  /** With no occurrence before `i` and one at `i`, `indexOf` finds `i`. */
  lemma {:induction false} IndexOfNoEarlier(s: string, w: string, from: nat, i: nat)
    requires w != [] && from <= i && OccursAt(w, s, i)
    requires forall k :: from <= k < i ==> !OccursAt(w, s, k)
    ensures IndexOfFrom(s, w, from) == i
    decreases i - from
  {
    if from < i {
      assert !OccursAt(w, s, from);
      IndexOfNoEarlier(s, w, from + 1, i);
    }
  }

  // ---------------------------------------------------------------- highlighting

  /** A piece of the displayed text, highlighted or plain. */
  datatype Segment = Segment(text: string, highlighted: bool)

  /** Ranges in bounds, in order and non-overlapping (adjacent ranges allowed). */
  predicate WellFormedSpans(spans: seq<Span>, length: int) {
    InBounds(spans, length) &&
    forall j, k :: 0 <= j < |spans| && k == j + 1 && k < |spans| ==> spans[j].end <= spans[k].start
  }

  function SegmentTexts(segments: seq<Segment>): seq<string> {
    seq(|segments|, k requires 0 <= k < |segments| => segments[k].text)
  }

  /** The texts of the highlighted segments, in order. */
  function HighlightedTexts(segments: seq<Segment>): seq<string> {
    if segments == [] then []
    else
      var last := segments[|segments| - 1];
      HighlightedTexts(segments[..|segments| - 1]) + (if last.highlighted then [last.text] else [])
  }

  /** The text of each range. */
  function SpanTexts(text: string, spans: seq<Span>): seq<string>
    requires InBounds(spans, |text|)
  {
    seq(|spans|, k requires 0 <= k < |spans| => text[spans[k].start..spans[k].end])
  }

  /** `highlightMatches`: without ranges (or without text) the text is one plain segment;
      otherwise, for well-formed ranges, the segments reassemble the text and the highlighted
      ones are exactly the ranges' texts, in order. */
  method HighlightMatches(text: string, matches: seq<Span>) returns (segments: seq<Segment>)
    ensures text == "" || matches == [] ==> segments == [Segment(text, false)]
    ensures WellFormedSpans(matches, |text|) && (text != "" || matches == []) ==>
      Concat(SegmentTexts(segments)) == text && HighlightedTexts(segments) == SpanTexts(text, matches)
  {
    if text == "" || |matches| == 0 {
      assert SegmentTexts([Segment(text, false)]) == [text];
      assert Concat([text]) == text + Concat([]);
      assert HighlightedTexts([Segment(text, false)]) == HighlightedTexts([]);
      return [Segment(text, false)];
    }
    segments := [];
    var lastEnd := 0;
    ghost var wf := WellFormedSpans(matches, |text|);
    for k := 0 to |matches|
      invariant lastEnd == (if k == 0 then 0 else matches[k - 1].end)
      invariant wf ==> HighlightedPrefix(text, matches, k, segments, lastEnd)
    {
      var m := matches[k];
      ghost var before := segments;
      if m.start > lastEnd {
        segments := segments + [Segment(JsSlice(text, lastEnd, m.start), false)];
      }
      segments := segments + [Segment(JsSlice(text, m.start, m.end), true)];
      assert segments == before + StepSegments(text, lastEnd, m);
      if wf {
        HighlightStep(text, matches, k, before, lastEnd);
      }
      lastEnd := m.end;
    }
    if lastEnd < |text| {
      ghost var before := segments;
      segments := segments + [Segment(JsSlice(text, lastEnd, |text|), false)];
      if wf {
        AppendSegment(before, Segment(JsSlice(text, lastEnd, |text|), false));
        assert text[..lastEnd] + text[lastEnd..] == text;
      }
    }
    if wf {
      assert matches[..|matches|] == matches;
      assert lastEnd == |text| ==> text[..lastEnd] == text;
    }
  }

  /** The state of the highlighting loop after the first `k` ranges: the segments spell the
      text up to the end of the last range, and the highlighted ones are those ranges' texts. */
  ghost predicate HighlightedPrefix(text: string, matches: seq<Span>, k: int, segments: seq<Segment>, lastEnd: int)
    requires WellFormedSpans(matches, |text|) && 0 <= k <= |matches|
  {
    0 <= lastEnd <= |text| && (k < |matches| ==> lastEnd <= matches[k].start) &&
    Concat(SegmentTexts(segments)) == text[..lastEnd] &&
    HighlightedTexts(segments) == SpanTexts(text, matches[..k])
  }

  /** The segments one range adds: the plain gap before it, if any, then the range. */
  function StepSegments(text: string, lastEnd: int, m: Span): seq<Segment> {
    (if m.start > lastEnd then [Segment(JsSlice(text, lastEnd, m.start), false)] else [])
    + [Segment(JsSlice(text, m.start, m.end), true)]
  }

  lemma HighlightStep(text: string, matches: seq<Span>, k: int, before: seq<Segment>, lastEnd: int)
    requires WellFormedSpans(matches, |text|) && 0 <= k < |matches|
    requires HighlightedPrefix(text, matches, k, before, lastEnd)
    ensures HighlightedPrefix(text, matches, k + 1, before + StepSegments(text, lastEnd, matches[k]), matches[k].end)
  {
    var m := matches[k];
    StepSegmentsText(text, before, lastEnd, m);
    StepSegmentsHighlighted(text, before, lastEnd, m);
    assert matches[..k + 1] == matches[..k] + [m];
    assert SpanTexts(text, matches[..k + 1]) == SpanTexts(text, matches[..k]) + [text[m.start..m.end]];
    if k + 1 < |matches| {
      assert matches[k].end <= matches[k + 1].start;
    }
  }

  /** The segments of one range extend the spelled text to the end of the range. */
  lemma StepSegmentsText(text: string, before: seq<Segment>, lastEnd: int, m: Span)
    requires 0 <= lastEnd <= m.start <= m.end <= |text|
    requires Concat(SegmentTexts(before)) == text[..lastEnd]
    ensures Concat(SegmentTexts(before + StepSegments(text, lastEnd, m))) == text[..m.end]
  {
    var middle := if m.start > lastEnd then before + [Segment(JsSlice(text, lastEnd, m.start), false)] else before;
    assert before + StepSegments(text, lastEnd, m) == middle + [Segment(JsSlice(text, m.start, m.end), true)];
    if m.start > lastEnd {
      AppendText(text, before, lastEnd, m.start, false);
    }
    AppendText(text, middle, m.start, m.end, true);
  }

  /** Appending the segment of `text[i..j]` to segments that spell `text[..i]` spells `text[..j]`. */
  lemma AppendText(text: string, segments: seq<Segment>, i: int, j: int, highlighted: bool)
    requires 0 <= i <= j <= |text|
    requires Concat(SegmentTexts(segments)) == text[..i]
    ensures Concat(SegmentTexts(segments + [Segment(JsSlice(text, i, j), highlighted)])) == text[..j]
  {
    AppendSegment(segments, Segment(JsSlice(text, i, j), highlighted));
    assert text[..i] + text[i..j] == text[..j];
  }

  /** The segments of one range add exactly the range's text to the highlighted ones. */
  lemma StepSegmentsHighlighted(text: string, before: seq<Segment>, lastEnd: int, m: Span)
    requires 0 <= lastEnd <= m.start <= m.end <= |text|
    ensures HighlightedTexts(before + StepSegments(text, lastEnd, m)) == HighlightedTexts(before) + [text[m.start..m.end]]
  {
    var middle := if m.start > lastEnd then before + [Segment(JsSlice(text, lastEnd, m.start), false)] else before;
    assert before + StepSegments(text, lastEnd, m) == middle + [Segment(JsSlice(text, m.start, m.end), true)];
    if m.start > lastEnd {
      AppendSegment(before, Segment(JsSlice(text, lastEnd, m.start), false));
    }
    AppendSegment(middle, Segment(JsSlice(text, m.start, m.end), true));
  }

  /** Appending a segment appends its text, and its text among the highlighted ones if it is highlighted. */
  lemma AppendSegment(segments: seq<Segment>, s: Segment)
    ensures Concat(SegmentTexts(segments + [s])) == Concat(SegmentTexts(segments)) + s.text
    ensures HighlightedTexts(segments + [s]) == HighlightedTexts(segments) + (if s.highlighted then [s.text] else [])
  {
    assert SegmentTexts(segments + [s]) == SegmentTexts(segments) + [s.text];
    ConcatAppend(SegmentTexts(segments), [s.text]);
    assert Concat([s.text]) == s.text + Concat([]);
    assert (segments + [s])[..|segments|] == segments;
  }

  /** The ranges of every match are well formed for its text, so highlighting a match
      reassembles the text. */
  lemma MatchSpansWellFormed(text: string, query: string)
    requires Match(text, query).Some?
    ensures WellFormedSpans(Match(text, query).value.matches, |text|)
  {
    MatchTiers(text, query);
    if TierOf(text, query) == Prefix {
      assert |Lower(query)| <= |Lower(text)|;
    } else if TierOf(text, query) == Substring {
      var i := IndexOf(Lower(text), Lower(query));
      assert OccursAt(Lower(query), Lower(text), i);
    }
  }

  // ---------------------------------------------------------------- ranking

  /** One ranked item with its match. */
  datatype SearchResult<T> = SearchResult(item: T, score: real, matches: seq<Span>)

  /** Non-increasing scores. */
  predicate SortedByScore<T>(results: seq<SearchResult<T>>) {
    forall i, j :: 0 <= i < j < |results| ==> results[i].score >= results[j].score
  }

  /** Place `x` before the first element it does not score below. */
  function InsertByScore<T>(x: SearchResult<T>, sorted: seq<SearchResult<T>>): seq<SearchResult<T>> {
    if sorted == [] || x.score >= sorted[0].score then [x] + sorted
    else [sorted[0]] + InsertByScore(x, sorted[1..])
  }

  /** The sort by descending score (an insertion sort keeping equal scores in input order). */
  function SortByScore<T>(results: seq<SearchResult<T>>): seq<SearchResult<T>> {
    if results == [] then [] else InsertByScore(results[0], SortByScore(results[1..]))
  }

  lemma {:induction false} InsertByScorePermutes<T>(x: SearchResult<T>, sorted: seq<SearchResult<T>>)
    ensures multiset(InsertByScore(x, sorted)) == multiset(sorted) + multiset{x}
  {
    if sorted != [] && x.score < sorted[0].score {
      InsertByScorePermutes(x, sorted[1..]);
      assert sorted == [sorted[0]] + sorted[1..];
    }
  }

  /** Inserting keeps every score at most a bound that the element and the list respect. */
  lemma {:induction false} InsertByScoreBounded<T>(x: SearchResult<T>, sorted: seq<SearchResult<T>>, bound: real)
    requires x.score <= bound && forall k :: 0 <= k < |sorted| ==> sorted[k].score <= bound
    ensures forall k :: 0 <= k < |InsertByScore(x, sorted)| ==> InsertByScore(x, sorted)[k].score <= bound
  {
    if sorted != [] && x.score < sorted[0].score {
      InsertByScoreBounded(x, sorted[1..], bound);
      var rest := InsertByScore(x, sorted[1..]);
      forall k | 0 <= k < |[sorted[0]] + rest| ensures ([sorted[0]] + rest)[k].score <= bound {
        if k > 0 {
          assert ([sorted[0]] + rest)[k] == rest[k - 1];
        }
      }
    }
  }

  lemma {:induction false} InsertByScoreSorted<T>(x: SearchResult<T>, sorted: seq<SearchResult<T>>)
    requires SortedByScore(sorted)
    ensures SortedByScore(InsertByScore(x, sorted))
  {
    if sorted != [] && x.score < sorted[0].score {
      var rest := InsertByScore(x, sorted[1..]);
      InsertByScoreSorted(x, sorted[1..]);
      InsertByScoreBounded(x, sorted[1..], sorted[0].score);
      var r := [sorted[0]] + rest;
      forall i, j | 0 <= i < j < |r| ensures r[i].score >= r[j].score {
        assert r[j] == rest[j - 1];
        if i > 0 {
          assert r[i] == rest[i - 1];
        }
      }
    }
  }

  /** Sorting yields non-increasing scores and a permutation of its input. */
  lemma {:induction false} SortByScoreCorrect<T>(results: seq<SearchResult<T>>)
    ensures SortedByScore(SortByScore(results))
    ensures multiset(SortByScore(results)) == multiset(results)
  {
    if results != [] {
      SortByScoreCorrect(results[1..]);
      InsertByScoreSorted(results[0], SortByScore(results[1..]));
      InsertByScorePermutes(results[0], SortByScore(results[1..]));
      assert results == [results[0]] + results[1..];
    }
  }

  /** `r` records the match of its item's search text. */
  predicate FromMatch<T>(r: SearchResult<T>, query: string, getSearchText: T -> string) {
    Match(getSearchText(r.item), query) == Some(MatchResult(r.score, r.matches))
  }

  /** The item's search text matches the query. */
  predicate ItemMatches<T>(item: T, query: string, getSearchText: T -> string) {
    Match(getSearchText(item), query).Some?
  }

  /** Some result is about `item`. */
  predicate Mentions<T(==)>(results: seq<SearchResult<T>>, item: T) {
    exists k :: 0 <= k < |results| && results[k].item == item
  }

  /** The results `fuzzySearch` collects before sorting: one per item whose search text
      matches, carrying that match, in item order. */
  function MatchRecords<T>(items: seq<T>, query: string, getSearchText: T -> string): seq<SearchResult<T>>
  {
    if items == [] then []
    else
      var rest := MatchRecords(items[1..], query, getSearchText);
      match Match(getSearchText(items[0]), query)
      case Some(m) => [SearchResult(items[0], m.score, m.matches)] + rest
      case None => rest
  }

  /** The items the results are about, in result order. */
  function ResultItems<T>(results: seq<SearchResult<T>>): (items: seq<T>)
    ensures |items| == |results|
    ensures forall k :: 0 <= k < |results| ==> items[k] == results[k].item
  {
    if results == [] then [] else [results[0].item] + ResultItems(results[1..])
  }

  /** The collected results are about exactly the matching items, in the items' order, and each
      carries its item's match. */
  lemma {:induction false} MatchRecordsProperties<T>(items: seq<T>, query: string, getSearchText: T -> string)
    ensures |MatchRecords(items, query, getSearchText)| <= |items|
    ensures IsSubsequence(ResultItems(MatchRecords(items, query, getSearchText)), items)
    ensures forall k :: 0 <= k < |MatchRecords(items, query, getSearchText)| ==>
              FromMatch(MatchRecords(items, query, getSearchText)[k], query, getSearchText)
    ensures forall item :: item in ResultItems(MatchRecords(items, query, getSearchText)) <==>
              item in items && ItemMatches(item, query, getSearchText)
  {
    if items != [] {
      var rest := MatchRecords(items[1..], query, getSearchText);
      MatchRecordsProperties(items[1..], query, getSearchText);
      assert items == [items[0]] + items[1..];
      var records := MatchRecords(items, query, getSearchText);
      match Match(getSearchText(items[0]), query)
      case Some(m) =>
        assert records == [SearchResult(items[0], m.score, m.matches)] + rest;
        assert records[1..] == rest;
        assert ResultItems(records) == [items[0]] + ResultItems(rest);
        assert ([items[0]] + ResultItems(rest))[1..] == ResultItems(rest);
        forall k | 0 <= k < |records| ensures FromMatch(records[k], query, getSearchText) {
          if k > 0 {
            assert records[k] == rest[k - 1];
          }
        }
      case None =>
        SubsequenceSkip(ResultItems(rest), items[1..], items[0]);
    }
  }

  /** Each collected result is about one of the items and carries its match, and every
      matching item has a result. */
  lemma MatchRecordsCover<T>(items: seq<T>, query: string, getSearchText: T -> string)
    ensures forall k :: 0 <= k < |MatchRecords(items, query, getSearchText)| ==>
              MatchRecords(items, query, getSearchText)[k].item in items &&
              FromMatch(MatchRecords(items, query, getSearchText)[k], query, getSearchText)
    ensures forall i :: 0 <= i < |items| && ItemMatches(items[i], query, getSearchText) ==>
              Mentions(MatchRecords(items, query, getSearchText), items[i])
  {
    var records := MatchRecords(items, query, getSearchText);
    MatchRecordsProperties(items, query, getSearchText);
    forall k | 0 <= k < |records| ensures records[k].item in items {
      assert records[k].item == ResultItems(records)[k];
    }
    forall i | 0 <= i < |items| && ItemMatches(items[i], query, getSearchText)
      ensures Mentions(records, items[i])
    {
      var k :| 0 <= k < |records| && ResultItems(records)[k] == items[i];
    }
  }

  /** Collecting from position `i` on: the result of item `i`, if it matches, then the rest. */
  lemma MatchRecordsFrom<T>(items: seq<T>, query: string, getSearchText: T -> string, i: int)
    requires 0 <= i < |items|
    ensures MatchRecords(items[i..], query, getSearchText) ==
      match Match(getSearchText(items[i]), query)
      case Some(m) => [SearchResult(items[i], m.score, m.matches)] + MatchRecords(items[i + 1..], query, getSearchText)
      case None => MatchRecords(items[i + 1..], query, getSearchText)
  {
    assert items[i..][1..] == items[i + 1..];
  }

  /** The collecting loop of `fuzzySearch`: one result per matching item, in item order. */
  method CollectMatches<T(==)>(items: seq<T>, query: string, getSearchText: T -> string)
    returns (collected: seq<SearchResult<T>>)
    ensures collected == MatchRecords(items, query, getSearchText)
    ensures |collected| <= |items|
    ensures forall k :: 0 <= k < |collected| ==> collected[k].item in items && FromMatch(collected[k], query, getSearchText)
    ensures forall i :: 0 <= i < |items| && ItemMatches(items[i], query, getSearchText) ==> Mentions(collected, items[i])
  {
    collected := [];
    assert items[0..] == items;
    for i := 0 to |items|
      invariant collected + MatchRecords(items[i..], query, getSearchText) == MatchRecords(items, query, getSearchText)
    {
      var text := getSearchText(items[i]);
      var m := FuzzyMatch(text, query);
      MatchRecordsFrom(items, query, getSearchText, i);
      if m.Some? {
        var r := SearchResult(items[i], m.value.score, m.value.matches);
        assert collected + [r] + MatchRecords(items[i + 1..], query, getSearchText)
            == collected + ([r] + MatchRecords(items[i + 1..], query, getSearchText));
        collected := collected + [r];
      }
    }
    assert collected == MatchRecords(items, query, getSearchText) by {
      assert items[|items|..] == [];
      assert collected + [] == collected;
    }
    MatchRecordsProperties(items, query, getSearchText);
    MatchRecordsCover(items, query, getSearchText);
  }

  /** What `fuzzySearch` returns: nothing for a blank query, otherwise the collected results,
      best score first, cut by `slice(0, maxResults)`. */
  function TopResults<T>(items: seq<T>, query: string, getSearchText: T -> string, maxResults: int): seq<SearchResult<T>>
  {
    if IsBlank(query) then [] else JsSlice(SortByScore(MatchRecords(items, query, getSearchText)), 0, maxResults)
  }

  /** `fuzzySearch`: nothing for a blank query; otherwise every item whose search text
      matches, best score first, cut to `maxResults`. */
  method FuzzySearch<T(==)>(items: seq<T>, query: string, getSearchText: T -> string, maxResults: int)
    returns (results: seq<SearchResult<T>>)
    ensures results == TopResults(items, query, getSearchText, maxResults)
    ensures IsBlank(query) ==> results == []
    ensures SortedByScore(results)
    ensures maxResults >= 0 ==> |results| <= maxResults
    ensures forall k :: 0 <= k < |results| ==> results[k].item in items && FromMatch(results[k], query, getSearchText)
    ensures !IsBlank(query) && maxResults >= |items| ==>
      forall i :: 0 <= i < |items| && ItemMatches(items[i], query, getSearchText) ==> Mentions(results, items[i])
  {
    if IsBlank(query) {
      return [];
    }
    var collected := CollectMatches(items, query, getSearchText);
    var sorted := SortByScore(collected);
    SortKeepsElements(collected);
    results := JsSlice(sorted, 0, maxResults);
    SlicePrefix(sorted, maxResults);
    if maxResults >= |items| {
      assert results == sorted;
      forall i | 0 <= i < |items| && ItemMatches(items[i], query, getSearchText)
        ensures Mentions(results, items[i])
      {
        SortKeepsMentions(collected, items[i]);
      }
    }
  }

  /** In a list sorted by score, nothing after the first `n` entries scores above any of them. */
  lemma SortedPrefixIsBest<T>(sorted: seq<SearchResult<T>>, n: int)
    requires SortedByScore(sorted) && 0 <= n <= |sorted|
    ensures forall r: SearchResult<T>, k :: r in multiset(sorted) - multiset(sorted[..n]) && 0 <= k < n ==>
              r.score <= sorted[k].score
  {
    assert sorted == sorted[..n] + sorted[n..];
    assert multiset(sorted) - multiset(sorted[..n]) == multiset(sorted[n..]);
    forall r: SearchResult<T>, k | r in multiset(sorted) - multiset(sorted[..n]) && 0 <= k < n
      ensures r.score <= sorted[k].score
    {
      assert r in sorted[n..];
      var j :| 0 <= j < |sorted[n..]| && sorted[n..][j] == r;
      assert sorted[n + j] == r;
    }
  }

  /** For a non-blank query and a non-negative limit the results are the best `maxResults`
      matches: as many as the limit allows, taken from the matches, and no match left out
      scores above any result. */
  lemma TopResultsAreBest<T>(items: seq<T>, query: string, getSearchText: T -> string, maxResults: int)
    requires !IsBlank(query) && maxResults >= 0
    ensures var records := MatchRecords(items, query, getSearchText);
      var results := TopResults(items, query, getSearchText, maxResults);
      |results| == (if maxResults < |records| then maxResults else |records|) &&
      multiset(results) <= multiset(records) &&
      forall r: SearchResult<T>, k :: r in multiset(records) - multiset(results) && 0 <= k < |results| ==>
        r.score <= results[k].score
  {
    var records := MatchRecords(items, query, getSearchText);
    var sorted := SortByScore(records);
    SortByScoreCorrect(records);
    var n := if maxResults < |sorted| then maxResults else |sorted|;
    assert |sorted| == |records| by {
      assert |multiset(sorted)| == |multiset(records)|;
    }
    assert TopResults(items, query, getSearchText, maxResults) == sorted[..n];
    assert sorted == sorted[..n] + sorted[n..];
    SortedPrefixIsBest(sorted, n);
  }

  /** `s.slice(0, n)` is a prefix of `s`, at most `n` long when `n` is not negative, and
      sorted when `s` is. */
  lemma SlicePrefix<T>(s: seq<SearchResult<T>>, n: int)
    ensures |JsSlice(s, 0, n)| <= |s|
    ensures n >= 0 ==> |JsSlice(s, 0, n)| <= n
    ensures n >= |s| ==> JsSlice(s, 0, n) == s
    ensures forall k :: 0 <= k < |JsSlice(s, 0, n)| ==> JsSlice(s, 0, n)[k] == s[k]
    ensures SortedByScore(s) ==> SortedByScore(JsSlice(s, 0, n))
  {
  }

  /** An item some result is about is still mentioned after sorting. */
  lemma SortKeepsMentions<T>(collected: seq<SearchResult<T>>, item: T)
    requires Mentions(collected, item)
    ensures Mentions(SortByScore(collected), item)
  {
    SortKeepsElements(collected);
    var k :| 0 <= k < |collected| && collected[k].item == item;
    var k' :| 0 <= k' < |SortByScore(collected)| && SortByScore(collected)[k'] == collected[k];
  }

  /** Sorting keeps the same elements and the same length, and orders them. */
  lemma SortKeepsElements<T>(collected: seq<SearchResult<T>>)
    ensures SortedByScore(SortByScore(collected))
    ensures |SortByScore(collected)| == |collected|
    ensures forall k :: 0 <= k < |SortByScore(collected)| ==> SortByScore(collected)[k] in collected
    ensures forall k :: 0 <= k < |collected| ==> exists k' :: 0 <= k' < |SortByScore(collected)| && SortByScore(collected)[k'] == collected[k]
  {
    var sorted := SortByScore(collected);
    SortByScoreCorrect(collected);
    assert |multiset(sorted)| == |multiset(collected)|;
    forall k | 0 <= k < |sorted| ensures sorted[k] in collected {
      assert sorted[k] in multiset(sorted);
    }
    forall k | 0 <= k < |collected|
      ensures exists k' :: 0 <= k' < |sorted| && sorted[k'] == collected[k]
    {
      assert collected[k] in multiset(collected);
      assert collected[k] in sorted;
    }
  }
}
