/** String and sequence helpers shared by the model: ASCII case folding, whitespace,
    joining, decimal rendering, JavaScript `slice` and `indexOf`, and subsequences. */
module Text {

  // ---------------------------------------------------------------- case folding

  function LowerChar(c: char): char {
    if 'A' <= c <= 'Z' then (c as int + 32) as char else c
  }

  function UpperChar(c: char): char {
    if 'a' <= c <= 'z' then (c as int - 32) as char else c
  }

  /** `toLowerCase`, restricted to ASCII letters. */
  function Lower(s: string): (r: string)
    ensures |r| == |s|
    ensures forall i :: 0 <= i < |s| ==> r[i] == LowerChar(s[i])
  {
    seq(|s|, i requires 0 <= i < |s| => LowerChar(s[i]))
  }

  /** `strings.ToUpper`, restricted to ASCII letters. */
  function Upper(s: string): (r: string)
    ensures |r| == |s|
    ensures forall i :: 0 <= i < |s| ==> r[i] == UpperChar(s[i])
  {
    seq(|s|, i requires 0 <= i < |s| => UpperChar(s[i]))
  }

  /** `strings.EqualFold`, restricted to ASCII letters. */
  predicate EqualFold(a: string, b: string) {
    Upper(a) == Upper(b)
  }

  // ---------------------------------------------------------------- whitespace

  /** The ASCII characters that `String.prototype.trim` and the regex class `\s` remove. */
  predicate IsWhitespace(c: char) {
    c == ' ' || c == '\t' || c == '\n' || c == '\r' || c == '\U{000B}' || c == '\U{000C}'
  }

  /** `s.trim() === ''`. */
  predicate IsBlank(s: string) {
    forall i :: 0 <= i < |s| ==> IsWhitespace(s[i])
  }

  // ---------------------------------------------------------------- joining

  /** `parts.join(sep)` / `strings.Join(parts, sep)`. */
  function Join(parts: seq<string>, sep: string): string
    decreases |parts|
  {
    if |parts| == 0 then ""
    else if |parts| == 1 then parts[0]
    else parts[0] + sep + Join(parts[1..], sep)
  }

  function Concat(parts: seq<string>): string
    decreases |parts|
  {
    if parts == [] then "" else parts[0] + Concat(parts[1..])
  }

  lemma {:induction false} ConcatAppend(a: seq<string>, b: seq<string>)
    ensures Concat(a + b) == Concat(a) + Concat(b)
    decreases |a|
  {
    if a == [] {
      assert a + b == b;
    } else {
      assert (a + b)[1..] == a[1..] + b;
      ConcatAppend(a[1..], b);
    }
  }

  /** `strings.Split(s, string(sep))`: the pieces between separators; always at least one. */
  function SplitOn(s: string, sep: char): (parts: seq<string>)
    ensures |parts| >= 1
    decreases |s|
  {
    if s == [] then [""]
    else
      var rest := SplitOn(s[1..], sep);
      if s[0] == sep then [""] + rest else [[s[0]] + rest[0]] + rest[1..]
  }

  /** A piece without separator, followed by a separator, splits off as one part. */
  lemma {:induction false} SplitOnPrefix(a: string, b: string, sep: char)
    requires sep !in a
    ensures SplitOn(a + [sep] + b, sep) == [a] + SplitOn(b, sep)
    decreases |a|
  {
    if a == [] {
      assert (a + [sep] + b)[1..] == b;
    } else {
      assert (a + [sep] + b)[1..] == a[1..] + [sep] + b;
      SplitOnPrefix(a[1..], b, sep);
      assert [a[0]] + a[1..] == a;
    }
  }

  /** A string without separator is a single part. */
  lemma {:induction false} SplitOnNone(a: string, sep: char)
    requires sep !in a
    ensures SplitOn(a, sep) == [a]
    decreases |a|
  {
    if a != [] {
      SplitOnNone(a[1..], sep);
      assert [a[0]] + a[1..] == a;
    }
  }

  /** Joining parts free of the separator and splitting again gives the parts back. */
  lemma {:induction false} SplitJoin(parts: seq<string>, sep: char)
    requires |parts| >= 1
    requires forall k :: 0 <= k < |parts| ==> sep !in parts[k]
    ensures SplitOn(Join(parts, [sep]), sep) == parts
    decreases |parts|
  {
    if |parts| == 1 {
      SplitOnNone(parts[0], sep);
    } else {
      SplitJoin(parts[1..], sep);
      SplitOnPrefix(parts[0], Join(parts[1..], [sep]), sep);
      assert [parts[0]] + parts[1..] == parts;
    }
  }

  // ---------------------------------------------------------------- decimal rendering

  function DigitChar(d: nat): char
    requires d < 10
  {
    "0123456789"[d]
  }

  /** Decimal rendering of a natural number, without leading zeros. */
  function NatToString(n: nat): (s: string)
    ensures |s| >= 1
    decreases n
  {
    if n < 10 then [DigitChar(n)] else NatToString(n / 10) + [DigitChar(n % 10)]
  }

  /** Decimal rendering of an integer, as template literals and `%d` print it. */
  function IntToString(i: int): (s: string)
    ensures |s| >= 1
  {
    if i < 0 then "-" + NatToString(-i) else NatToString(i)
  }

  // ---------------------------------------------------------------- JavaScript slice

  /** How `Array.prototype.slice` and `String.prototype.slice` read an index argument:
      negative counts from the end, and the result is clamped into [0, len]. */
  function JsIndex(i: int, len: nat): (r: nat)
    ensures r <= len
    ensures 0 <= i <= len ==> r == i
  {
    if i < 0 then (if len + i < 0 then 0 else len + i)
    else if i > len then len
    else i
  }

  /** `s.slice(a, b)`. */
  function JsSlice<T>(s: seq<T>, a: int, b: int): (r: seq<T>)
    ensures 0 <= a <= b <= |s| ==> r == s[a..b]
  {
    var lo := JsIndex(a, |s|);
    var hi := JsIndex(b, |s|);
    if lo < hi then s[lo..hi] else []
  }

  // ---------------------------------------------------------------- searching

  /** `w` occurs in `s` starting at `i`. */
  predicate OccursAt<T(==)>(w: seq<T>, s: seq<T>, i: int) {
    0 <= i && i + |w| <= |s| && s[i..i + |w|] == w
  }

  /** `s.indexOf(w, from)` for `from >= 0`: the first occurrence at or after `from`, or -1. */
  function IndexOfFrom<T(==)>(s: seq<T>, w: seq<T>, from: nat): (r: int)
    ensures r == -1 || ((from <= r || r == |s|) && OccursAt(w, s, r))
    decreases |s| - from
  {
    if |w| == 0 then (if from <= |s| then from else |s|)
    else if from + |w| > |s| then -1
    else if s[from..from + |w|] == w then from
    else IndexOfFrom(s, w, from + 1)
  }

  /** Every occurrence at or after `from` is at or after the index found. */
  lemma {:induction false} IndexOfFromFirst<T>(s: seq<T>, w: seq<T>, from: nat, i: int)
    requires from <= i && OccursAt(w, s, i)
    ensures IndexOfFrom(s, w, from) != -1 && IndexOfFrom(s, w, from) <= i
    decreases |s| - from
  {
    if |w| != 0 && s[from..from + |w|] != w {
      IndexOfFromFirst(s, w, from + 1, i);
    }
  }

  /** `s.indexOf(w)`. */
  function IndexOf<T(==)>(s: seq<T>, w: seq<T>): int {
    IndexOfFrom(s, w, 0)
  }

  /** `s.includes(w)`: `w` occurs somewhere in `s`. */
  predicate Includes<T(==)>(s: seq<T>, w: seq<T>) {
    exists i :: 0 <= i <= |s| && OccursAt(w, s, i)
  }

  /** `includes` agrees with `indexOf(w) !== -1`. */
  lemma IncludesIffIndexOf<T>(s: seq<T>, w: seq<T>)
    ensures Includes(s, w) <==> IndexOf(s, w) >= 0
  {
    if Includes(s, w) {
      var i :| 0 <= i <= |s| && OccursAt(w, s, i);
      IndexOfFromFirst(s, w, 0, i);
    }
  }

  // ---------------------------------------------------------------- subsequences

  /** `q` can be obtained from `t` by deleting elements, keeping the order. */
  predicate IsSubsequence<T(==)>(q: seq<T>, t: seq<T>)
    decreases |t|
  {
    if q == [] then true
    else if t == [] then false
    else if q[0] == t[0] then IsSubsequence(q[1..], t[1..])
    else IsSubsequence(q, t[1..])
  }

  lemma {:induction false} SubsequenceLength<T>(q: seq<T>, t: seq<T>)
    requires IsSubsequence(q, t)
    ensures |q| <= |t|
    decreases |t|
  {
    if q != [] {
      if q[0] == t[0] { SubsequenceLength(q[1..], t[1..]); } else { SubsequenceLength(q, t[1..]); }
    }
  }

  lemma {:induction false} SubsequenceSkip<T>(q: seq<T>, t: seq<T>, x: T)
    requires IsSubsequence(q, t)
    ensures IsSubsequence(q, [x] + t)
    decreases |t|, 1
  {
    if q != [] && q[0] == x {
      assert ([x] + t)[1..] == t;
      SubsequenceDropHead(q, t);
    } else if q != [] {
      assert ([x] + t)[1..] == t;
    }
  }

  lemma {:induction false} SubsequenceDropHead<T>(q: seq<T>, t: seq<T>)
    requires q != [] && IsSubsequence(q, t)
    ensures IsSubsequence(q[1..], t)
    decreases |t|, 0
  {
    if q[0] == t[0] {
      SubsequenceSkip(q[1..], t[1..], t[0]);
      assert [t[0]] + t[1..] == t;
    } else {
      SubsequenceDropHead(q, t[1..]);
      SubsequenceSkip(q[1..], t[1..], t[0]);
      assert [t[0]] + t[1..] == t;
    }
  }

  /** A contiguous occurrence is in particular a subsequence. */
  lemma {:induction false} OccurrenceIsSubsequence<T>(w: seq<T>, s: seq<T>, i: int)
    requires OccursAt(w, s, i)
    ensures IsSubsequence(w, s)
    decreases |s|
  {
    if w != [] {
      if i == 0 {
        assert w[0] == s[0];
        assert OccursAt(w[1..], s[1..], 0) by { assert s[1..][0..|w| - 1] == s[1..|w|]; }
        OccurrenceIsSubsequence(w[1..], s[1..], 0);
      } else {
        assert OccursAt(w, s[1..], i - 1) by { assert s[1..][i - 1..i - 1 + |w|] == s[i..i + |w|]; }
        OccurrenceIsSubsequence(w, s[1..], i - 1);
        SubsequenceSkip(w, s[1..], s[0]);
        assert [s[0]] + s[1..] == s;
      }
    }
  }

  // ---------------------------------------------------------------- separated pairs

  /** Joining two parts around a separator that occurs in neither left part is injective. */
  lemma SeparatedPairInjective(a1: string, b1: string, a2: string, b2: string, sep: char)
    requires sep !in a1 && sep !in a2
    requires a1 + [sep] + b1 == a2 + [sep] + b2
    ensures a1 == a2 && b1 == b2
  {
    SeparatorPosition(a1, b1, a2, b2, sep);
    SeparatorPosition(a2, b2, a1, b1, sep);
    var s := a1 + [sep] + b1;
    assert a1 == s[..|a1|] == a2;
    assert b1 == s[|a1| + 1..] == b2;
  }

  /** If the left part `a1` is the shorter one, the separator sits inside `a2`. */
  lemma SeparatorPosition(a1: string, b1: string, a2: string, b2: string, sep: char)
    ensures |a1| < |a2| && a1 + [sep] + b1 == a2 + [sep] + b2 ==> a2[|a1|] == sep
  {
    if |a1| < |a2| && a1 + [sep] + b1 == a2 + [sep] + b2 {
      var s := a1 + [sep] + b1;
      assert s[|a1|] == sep;
      assert s[|a1|] == a2[|a1|];
    }
  }
}
