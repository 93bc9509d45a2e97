/** The regular expression `/(\d{1,2})(st|nd|rd|th)\s+(\w+)\s+(\d{4})/i` and what
    `String.prototype.match` returns for it: the match at the leftmost position where one
    exists, found by a scanner, and specified by `IsMatch`, which says which index ranges of the
    string the five parts of the pattern occupy. */
module OrdinalRegex {
  import opened Basics
  import opened Text

  /** Where the parts of a match lie: the day digits are `s[start..dayEnd]`, the suffix the two
      characters after them, the word `s[wordStart..wordEnd]` and the year the four characters
      from `yearStart`. */
  datatype OrdinalMatch = OrdinalMatch(start: nat, dayEnd: nat, wordStart: nat, wordEnd: nat, yearStart: nat)

  predicate DigitsIn(s: string, i: nat, j: nat)
    requires i <= j <= |s|
  {
    forall k :: i <= k < j ==> IsDigit(s[k])
  }

  predicate SpacesIn(s: string, i: nat, j: nat)
    requires i <= j <= |s|
  {
    forall k :: i <= k < j ==> IsJsSpace(s[k])
  }

  predicate WordIn(s: string, i: nat, j: nat)
    requires i <= j <= |s|
  {
    forall k :: i <= k < j ==> IsWordChar(s[k])
  }

  /** `(st|nd|rd|th)` under the `i` flag: ASCII letters in either case. */
  predicate IsOrdinalSuffix(a: char, b: char) {
    var p := [ToLowerAscii(a), ToLowerAscii(b)];
    p == "st" || p == "nd" || p == "rd" || p == "th"
  }

  /** `m` describes a match of the pattern in `s`. */
  predicate IsMatch(s: string, m: OrdinalMatch) {
    && m.start < m.dayEnd <= m.start + 2
    && m.dayEnd + 2 < m.wordStart < m.wordEnd < m.yearStart
    && m.yearStart + 4 <= |s|
    && DigitsIn(s, m.start, m.dayEnd)
    && IsOrdinalSuffix(s[m.dayEnd], s[m.dayEnd + 1])
    && SpacesIn(s, m.dayEnd + 2, m.wordStart)
    && WordIn(s, m.wordStart, m.wordEnd)
    && SpacesIn(s, m.wordEnd, m.yearStart)
    && DigitsIn(s, m.yearStart, m.yearStart + 4)
  }

  function DayDigits(s: string, m: OrdinalMatch): (t: string)
    requires IsMatch(s, m)
    ensures 1 <= |t| <= 2 && AllDigits(t)
  {
    s[m.start..m.dayEnd]
  }

  function MonthWord(s: string, m: OrdinalMatch): (t: string)
    requires IsMatch(s, m)
    ensures |t| >= 1 && forall i :: 0 <= i < |t| ==> IsWordChar(t[i])
  {
    s[m.wordStart..m.wordEnd]
  }

  function YearDigits(s: string, m: OrdinalMatch): (t: string)
    requires IsMatch(s, m)
    ensures |t| == 4 && AllDigits(t)
  {
    s[m.yearStart..m.yearStart + 4]
  }

  // ---------------------------------------------------------------- the scanner

  /** The end of the run of white space starting at `i` (what greedy `\s+` consumes). */
  function SpanSpaces(s: string, i: nat): (j: nat)
    requires i <= |s|
    ensures i <= j <= |s| && SpacesIn(s, i, j)
    ensures j == |s| || !IsJsSpace(s[j])
    decreases |s| - i
  {
    if i < |s| && IsJsSpace(s[i]) then SpanSpaces(s, i + 1) else i
  }

  /** The end of the run of word characters starting at `i` (what greedy `\w+` consumes). */
  function SpanWord(s: string, i: nat): (j: nat)
    requires i <= |s|
    ensures i <= j <= |s| && WordIn(s, i, j)
    ensures j == |s| || !IsWordChar(s[j])
    decreases |s| - i
  {
    if i < |s| && IsWordChar(s[i]) then SpanWord(s, i + 1) else i
  }

  /** The rest of the pattern once the day digits `s[start..dayEnd]` are fixed. The greedy runs
      of `\s+` and `\w+` never need to give characters back: a shorter `\s+` would leave white
      space where `\w` or `\d` must follow, and a shorter `\w+` a word character where `\s`
      must follow. */
  function MatchAfterDay(s: string, start: nat, dayEnd: nat): (r: Option<OrdinalMatch>)
    requires start < dayEnd <= |s|
    ensures r.Some? ==> r.value.start == start && r.value.dayEnd == dayEnd
    ensures r.Some? && dayEnd <= start + 2 && DigitsIn(s, start, dayEnd) ==> IsMatch(s, r.value)
  {
    if dayEnd + 2 > |s| || !IsOrdinalSuffix(s[dayEnd], s[dayEnd + 1]) then None
    else
      var ws := SpanSpaces(s, dayEnd + 2);
      var we := SpanWord(s, ws);
      var ys := SpanSpaces(s, we);
      if ws == dayEnd + 2 || we == ws || ys == we || ys + 4 > |s| || !DigitsIn(s, ys, ys + 4) then None
      else Some(OrdinalMatch(start, dayEnd, ws, we, ys))
  }

  /** The match starting at `i`, trying two day digits before one as `\d{1,2}` does. */
  function MatchAt(s: string, i: nat): (r: Option<OrdinalMatch>)
    requires i <= |s|
    ensures r.Some? ==> IsMatch(s, r.value) && r.value.start == i
  {
    var two := if i + 2 <= |s| && IsDigit(s[i]) && IsDigit(s[i + 1]) then MatchAfterDay(s, i, i + 2) else None;
    if two.Some? then two
    else if i + 1 <= |s| && IsDigit(s[i]) then MatchAfterDay(s, i, i + 1)
    else None
  }

  /** The first match starting at `i` or later. */
  function SearchFrom(s: string, i: nat): (r: Option<OrdinalMatch>)
    requires i <= |s|
    ensures r.Some? ==> IsMatch(s, r.value) && i <= r.value.start
    ensures r.Some? ==> forall k :: i <= k < r.value.start ==> MatchAt(s, k).None?
    decreases |s| - i
  {
    if i == |s| then None
    else
      var here := MatchAt(s, i);
      if here.Some? then here else SearchFrom(s, i + 1)
  }

  /** No match starts before position `n`. */
  predicate NoMatchBefore(s: string, n: nat) {
    forall k :: 0 <= k < n && k <= |s| ==> MatchAt(s, k).None?
  }

  /** `s.match(ordinalRegex)`: `None` is JavaScript's `null`. */
  function FindOrdinal(s: string): (r: Option<OrdinalMatch>)
    ensures r.Some? ==> IsMatch(s, r.value)
  {
    SearchFrom(s, 0)
  }

  // ---------------------------------------------------------------- correctness of the scanner

  /** Every match whose day digits are `s[m.start..m.dayEnd]` is the one MatchAfterDay finds:
      the white-space and word runs of a match are maximal. */
  lemma MatchAfterDayComplete(s: string, m: OrdinalMatch)
    requires IsMatch(s, m)
    ensures MatchAfterDay(s, m.start, m.dayEnd) == Some(m)
  {
    SpanSpacesStops(s, m.dayEnd + 2, m.wordStart);
    SpanWordStops(s, m.wordStart, m.wordEnd);
    SpanSpacesStops(s, m.wordEnd, m.yearStart);
    MatchAfterDayRuns(s, m);
  }

  /** MatchAfterDay accepts when the three runs it measures end where `m` says. */
  lemma MatchAfterDayRuns(s: string, m: OrdinalMatch)
    requires m.start < m.dayEnd && m.dayEnd + 2 < m.wordStart < m.wordEnd < m.yearStart
    requires m.yearStart + 4 <= |s| && DigitsIn(s, m.yearStart, m.yearStart + 4)
    requires IsOrdinalSuffix(s[m.dayEnd], s[m.dayEnd + 1])
    requires SpanSpaces(s, m.dayEnd + 2) == m.wordStart
    requires SpanWord(s, m.wordStart) == m.wordEnd
    requires SpanSpaces(s, m.wordEnd) == m.yearStart
    ensures MatchAfterDay(s, m.start, m.dayEnd) == Some(m)
  {
  }

  /** A run of white space ends at the first other character. */
  lemma {:induction false} SpanSpacesStops(s: string, i: nat, j: nat)
    requires i <= j < |s| && SpacesIn(s, i, j) && !IsJsSpace(s[j])
    ensures SpanSpaces(s, i) == j
    decreases j - i
  {
    if i < j {
      SpanSpacesStops(s, i + 1, j);
    }
  }

  /** A run of word characters ends at the first other character. */
  lemma {:induction false} SpanWordStops(s: string, i: nat, j: nat)
    requires i <= j < |s| && WordIn(s, i, j) && !IsWordChar(s[j])
    ensures SpanWord(s, i) == j
    decreases j - i
  {
    if i < j {
      SpanWordStops(s, i + 1, j);
    }
  }

  /** A match starting at `i` is the one MatchAt returns; at most one match starts anywhere. */
  lemma MatchAtComplete(s: string, m: OrdinalMatch)
    requires IsMatch(s, m)
    ensures MatchAt(s, m.start) == Some(m)
  {
    if m.dayEnd == m.start + 2 {
      MatchAtTwoDigits(s, m);
    } else {
      MatchAtOneDigit(s, m);
    }
  }

  lemma MatchAtTwoDigits(s: string, m: OrdinalMatch)
    requires IsMatch(s, m) && m.dayEnd == m.start + 2
    ensures MatchAt(s, m.start) == Some(m)
  {
    MatchAfterDayComplete(s, m);
    MatchAtPicks(s, m.start, m);
  }

  lemma MatchAtOneDigit(s: string, m: OrdinalMatch)
    requires IsMatch(s, m) && m.dayEnd == m.start + 1
    ensures MatchAt(s, m.start) == Some(m)
  {
    // the character after one day digit is a suffix letter, so two digits cannot match here
    SuffixNotDigit(s[m.start + 1], s[m.start + 2]);
    MatchAfterDayComplete(s, m);
    MatchAtPicks(s, m.start, m);
  }

  /** MatchAt returns the match MatchAfterDay finds after the longest run of day digits. */
  lemma MatchAtPicks(s: string, i: nat, r: OrdinalMatch)
    requires i + 2 <= |s| && IsDigit(s[i]) && (r.dayEnd == i + 1 || r.dayEnd == i + 2)
    requires r.dayEnd == i + 2 ==> IsDigit(s[i + 1]) && MatchAfterDay(s, i, i + 2) == Some(r)
    requires r.dayEnd == i + 1 ==> !IsDigit(s[i + 1]) && MatchAfterDay(s, i, i + 1) == Some(r)
    ensures MatchAt(s, i) == Some(r)
  {
  }

  /** A suffix starts with a letter. */
  lemma SuffixNotDigit(a: char, b: char)
    ensures IsOrdinalSuffix(a, b) ==> !IsDigit(a)
  {
    var p := [ToLowerAscii(a), ToLowerAscii(b)];
    assert IsOrdinalSuffix(a, b) ==> p[0] == 's' || p[0] == 'n' || p[0] == 'r' || p[0] == 't';
  }

  lemma {:induction false} SearchFromComplete(s: string, i: nat, m: OrdinalMatch)
    requires i <= |s| && IsMatch(s, m) && i <= m.start
    ensures SearchFrom(s, i).Some?
    decreases |s| - i
  {
    if i == m.start {
      MatchAtComplete(s, m);
    } else if MatchAt(s, i).None? {
      SearchFromComplete(s, i + 1, m);
    }
  }

  /** `FindOrdinal` returns a match with the leftmost start of all matches, and `None` exactly
      when the pattern matches nowhere. */
  lemma FindOrdinalSpec(s: string)
    ensures FindOrdinal(s).Some? ==> IsMatch(s, FindOrdinal(s).value)
    ensures FindOrdinal(s).Some? ==>
      forall m :: IsMatch(s, m) ==> FindOrdinal(s).value.start <= m.start
    ensures FindOrdinal(s).None? <==> forall m :: !IsMatch(s, m)
  {
    if FindOrdinal(s).Some? {
      forall m | IsMatch(s, m)
        ensures FindOrdinal(s).value.start <= m.start
      {
        MatchAtComplete(s, m);
      }
    } else {
      forall m | IsMatch(s, m)
        ensures false
      {
        SearchFromComplete(s, 0, m);
      }
    }
  }

  /** A match with no match starting before it is the one found. */
  lemma FindOrdinalFirst(s: string, m: OrdinalMatch)
    requires IsMatch(s, m)
    requires NoMatchBefore(s, m.start)
    ensures FindOrdinal(s) == Some(m)
  {
    FindOrdinalSpec(s);
    var f := FindOrdinal(s).value;
    MatchAtComplete(s, f);
    MatchUnique(s, f, m);
  }

  /** What is found is determined by the matches alone: two matches with the same start are one. */
  lemma MatchUnique(s: string, m1: OrdinalMatch, m2: OrdinalMatch)
    requires IsMatch(s, m1) && IsMatch(s, m2) && m1.start == m2.start
    ensures m1 == m2
  {
    MatchAtComplete(s, m1);
    MatchAtComplete(s, m2);
  }

  /** The `i` flag: a string and its ASCII lower-casing have the same matches. */
  lemma IsMatchIgnoresCase(s: string, m: OrdinalMatch)
    ensures IsMatch(s, m) <==> IsMatch(LowerAscii(s), m)
  {
    var t := LowerAscii(s);
    if m.yearStart + 4 <= |s| && m.dayEnd + 2 <= |s| {
      assert ToLowerAscii(t[m.dayEnd]) == ToLowerAscii(s[m.dayEnd]);
      assert ToLowerAscii(t[m.dayEnd + 1]) == ToLowerAscii(s[m.dayEnd + 1]);
    }
  }

  /** The pattern matches case-insensitively: "21ST JUNE 2025" is found where "21st june 2025" is. */
  lemma FindOrdinalIgnoresCase(s: string)
    ensures FindOrdinal(s) == FindOrdinal(LowerAscii(s))
  {
    var t := LowerAscii(s);
    FindOrdinalSpec(s);
    FindOrdinalSpec(t);
    forall m ensures IsMatch(s, m) <==> IsMatch(t, m) {
      IsMatchIgnoresCase(s, m);
    }
    if FindOrdinal(s).Some? {
      var m1, m2 := FindOrdinal(s).value, FindOrdinal(t).value;
      MatchUnique(s, m1, m2);
    }
  }
}
