/** The proleptic Gregorian calendar of ECMAScript dates, read in UTC: the day rollover of the
    `Date(year, monthIndex, day)` constructor (ECMA-262 section 21.4.2.1, MakeDay in section
    21.4.1.28), the time-value range of TimeClip, `toISOString` (section 21.4.4.36) and the
    lookup of a month by a prefix of its English name. */
module Calendar {
  import opened Basics
  import opened Text

  /** A calendar day; `month` counts from 1. */
  datatype Date = Date(year: int, month: int, day: int)

  predicate IsLeapYear(y: int) {
    y % 4 == 0 && (y % 100 != 0 || y % 400 == 0)
  }

  function DaysInYear(y: int): int {
    if IsLeapYear(y) then 366 else 365
  }

  function DaysInMonth(y: int, m: int): (n: int)
    requires 1 <= m <= 12
    ensures 28 <= n <= 31
    ensures m == 2 ==> (n == 29 <==> IsLeapYear(y))
  {
    if m == 2 then (if IsLeapYear(y) then 29 else 28)
    else if m == 4 || m == 6 || m == 9 || m == 11 then 30
    else 31
  }

  predicate IsValidDate(d: Date) {
    1 <= d.month <= 12 && 1 <= d.day <= DaysInMonth(d.year, d.month)
  }

  type ValidDate = d: Date | IsValidDate(d) witness Date(1970, 1, 1)

  // ---------------------------------------------------------------- day numbers

  /** Days from 0000-01-01 to the first day of year `y` (negative before year 0). */
  function DaysBeforeYear(y: int): int {
    365 * y + (y + 3) / 4 - (y + 99) / 100 + (y + 399) / 400
  }

  /** Days from the first of January of year `y` to the first day of month `m`; month 13 stands
      for the next first of January. */
  function DaysBeforeMonth(y: int, m: int): (n: nat)
    requires 1 <= m <= 13
  {
    var common :=
      if m == 1 then 0 else if m == 2 then 31 else if m == 3 then 59 else if m == 4 then 90
      else if m == 5 then 120 else if m == 6 then 151 else if m == 7 then 181
      else if m == 8 then 212 else if m == 9 then 243 else if m == 10 then 273
      else if m == 11 then 304 else if m == 12 then 334 else 365;
    common + (if m > 2 && IsLeapYear(y) then 1 else 0)
  }

  /** The day number MakeDay computes for year `y`, month `m` (1-based) and any day `d`. */
  function MakeDay(y: int, m: int, d: int): int
    requires 1 <= m <= 12
  {
    DaysBeforeYear(y) + DaysBeforeMonth(y, m) + d - 1
  }

  /** Days from 0000-01-01 to `d`. */
  function DayNumber(d: ValidDate): int {
    MakeDay(d.year, d.month, d.day)
  }

  lemma DaysBeforeNextMonth(y: int, m: int)
    requires 1 <= m <= 12
    ensures DaysBeforeMonth(y, m + 1) == DaysBeforeMonth(y, m) + DaysInMonth(y, m)
  {
  }

  lemma DaysBeforeNextYear(y: int)
    ensures DaysBeforeYear(y + 1) == DaysBeforeYear(y) + DaysInYear(y)
  {
    DivStep4(y);
    DivStep100(y);
    DivStep400(y);
    DaysInYearCount(y);
  }

  /** The length of a year as the count of the three rules that apply to it. */
  lemma DaysInYearCount(y: int)
    ensures DaysInYear(y) ==
      365 + (if y % 4 == 0 then 1 else 0) - (if y % 100 == 0 then 1 else 0) + (if y % 400 == 0 then 1 else 0)
  {
    if y % 100 == 0 {
      var k := y / 100;
      assert y == 4 * (25 * k);
    }
    if y % 400 == 0 {
      var k := y / 400;
      assert y == 100 * (4 * k);
    }
  }

  lemma DivStep4(y: int)
    ensures (y + 4) / 4 == (y + 3) / 4 + (if y % 4 == 0 then 1 else 0)
  {
  }

  lemma DivStep100(y: int)
    ensures (y + 100) / 100 == (y + 99) / 100 + (if y % 100 == 0 then 1 else 0)
  {
  }

  lemma DivStep400(y: int)
    ensures (y + 400) / 400 == (y + 399) / 400 + (if y % 400 == 0 then 1 else 0)
  {
  }

  lemma DaysBeforeYearMonotone(a: int, b: int)
    requires a < b
    ensures DaysBeforeYear(a + 1) <= DaysBeforeYear(b)
  {
  }

  lemma DaysBeforeMonthMonotone(y: int, a: int, b: int)
    requires 1 <= a < b <= 13
    ensures DaysBeforeMonth(y, a) + DaysInMonth(y, a) <= DaysBeforeMonth(y, b)
  {
  }

  /** A date lies within its own year's stretch of day numbers. */
  lemma DayNumberInYear(d: ValidDate)
    ensures DaysBeforeYear(d.year) <= DayNumber(d) < DaysBeforeYear(d.year + 1)
  {
    DaysBeforeNextYear(d.year);
    if d.month < 12 {
      DaysBeforeMonthMonotone(d.year, d.month, 13);
    }
  }

  /** Distinct calendar dates have distinct day numbers. */
  lemma DayNumberInjective(a: ValidDate, b: ValidDate)
    requires DayNumber(a) == DayNumber(b)
    ensures a == b
  {
    if a.year < b.year {
      EarlierYear(a, b);
    } else if b.year < a.year {
      EarlierYear(b, a);
    } else if a.month < b.month {
      EarlierMonth(a, b);
    } else if b.month < a.month {
      EarlierMonth(b, a);
    }
  }

  /** A date of an earlier year has a smaller day number. */
  lemma EarlierYear(a: ValidDate, b: ValidDate)
    requires a.year < b.year
    ensures DayNumber(a) < DayNumber(b)
  {
    DayNumberInYear(a);
    DayNumberInYear(b);
    DaysBeforeYearMonotone(a.year, b.year);
  }

  /** A date of an earlier month of the same year has a smaller day number. */
  lemma EarlierMonth(a: ValidDate, b: ValidDate)
    requires a.year == b.year && a.month < b.month
    ensures DayNumber(a) < DayNumber(b)
  {
    DaysBeforeMonthMonotone(a.year, a.month, b.month);
  }

  /** A date whose day number lies in the stretch of the years `lo..hi` is in one of them. */
  lemma YearOfDayNumber(d: ValidDate, lo: int, hi: int)
    requires lo <= hi && DaysBeforeYear(lo) <= DayNumber(d) < DaysBeforeYear(hi + 1)
    ensures lo <= d.year <= hi
  {
    DayNumberInYear(d);
    if d.year < lo {
      DaysBeforeYearMonotone(d.year, lo);
    } else if d.year > hi {
      DaysBeforeYearMonotone(hi, d.year);
    }
  }

  /** Any month of the years 100..9999 with a day of at most 99 lies within the years 99..10000,
      well inside the time-value range. */
  lemma MakeDayWithin(y: int, m: int, d: int)
    requires 100 <= y <= 9999 && 1 <= m <= 12 && 0 <= d <= 99
    ensures DaysBeforeYear(99) <= MakeDay(y, m, d) < DaysBeforeYear(10001)
    ensures -MaxEpochDays <= MakeDay(y, m, d) - EpochDay <= MaxEpochDays
  {
    DaysBeforeNextYear(99);
    DaysBeforeNextYear(y);
    DaysBeforeNextYear(10000);
    if 100 < y {
      DaysBeforeYearMonotone(99, y);
    }
    if y < 9999 {
      DaysBeforeYearMonotone(y, 9999);
    }
  }

  // ---------------------------------------------------------------- rollover

  /** Day `d` of month `m` of year `y`, where `d` may lie outside the month: a day past the end
      continues into the following months, a day below 1 counts back into the previous ones. */
  function Rollover(y: int, m: int, d: int): (r: ValidDate)
    requires 1 <= m <= 12
    decreases (if d < 1 then 1 else 0), (if d < 1 then -d else d)
  {
    if d < 1 then
      var py := if m == 1 then y - 1 else y;
      var pm := if m == 1 then 12 else m - 1;
      Rollover(py, pm, d + DaysInMonth(py, pm))
    else if d > DaysInMonth(y, m) then
      var ny := if m == 12 then y + 1 else y;
      var nm := if m == 12 then 1 else m + 1;
      Rollover(ny, nm, d - DaysInMonth(y, m))
    else
      Date(y, m, d)
  }

  /** Rollover lands on the day number MakeDay computes. */
  lemma {:induction false} RolloverDayNumber(y: int, m: int, d: int)
    requires 1 <= m <= 12
    ensures DayNumber(Rollover(y, m, d)) == MakeDay(y, m, d)
    decreases (if d < 1 then 1 else 0), (if d < 1 then -d else d)
  {
    if d < 1 {
      var py := if m == 1 then y - 1 else y;
      var pm := if m == 1 then 12 else m - 1;
      RolloverDayNumber(py, pm, d + DaysInMonth(py, pm));
      DaysBeforeNextMonth(py, pm);
      if m == 1 {
        DaysBeforeNextYear(py);
      }
    } else if d > DaysInMonth(y, m) {
      var ny := if m == 12 then y + 1 else y;
      var nm := if m == 12 then 1 else m + 1;
      RolloverDayNumber(ny, nm, d - DaysInMonth(y, m));
      DaysBeforeNextMonth(y, m);
      if m == 12 {
        DaysBeforeNextYear(y);
      }
    }
  }

  /** Rollover is exactly MakeDay read back as a calendar date: the one valid date with that
      day number. */
  lemma RolloverIsMakeDay(y: int, m: int, d: int, e: ValidDate)
    requires 1 <= m <= 12
    ensures e == Rollover(y, m, d) <==> DayNumber(e) == MakeDay(y, m, d)
  {
    RolloverDayNumber(y, m, d);
    if DayNumber(e) == MakeDay(y, m, d) {
      DayNumberInjective(e, Rollover(y, m, d));
    }
  }

  // ---------------------------------------------------------------- the Date constructor

  /** Day number of 1970-01-01, the ECMAScript epoch. */
  const EpochDay: int := 719528

  /** TimeClip admits time values up to 8.64e15 ms from the epoch in either direction:
      exactly 100,000,000 days. */
  const MaxEpochDays: int := 100000000

  lemma EpochDayIsNewYear1970()
    ensures DayNumber(Date(1970, 1, 1)) == EpochDay
  {
  }

  /** The year the `Date` constructor uses: 0 to 99 are read as 1900 to 1999. */
  function ConstructorYear(year: int): (y: int)
    ensures 0 <= year <= 99 ==> y == 1900 + year
    ensures !(0 <= year <= 99) ==> y == year
  {
    if 0 <= year <= 99 then 1900 + year else year
  }

  /** `new Date(year, monthIndex, day)` read back in UTC; `None` is the invalid date TimeClip
      yields outside the representable range. */
  function JsDate(year: int, monthIndex: int, day: int): (r: Option<ValidDate>)
    ensures r.Some? ==>
      DayNumber(r.value) == MakeDay(ConstructorYear(year) + monthIndex / 12, monthIndex % 12 + 1, day)
    ensures r.Some? <==>
      -MaxEpochDays <= MakeDay(ConstructorYear(year) + monthIndex / 12, monthIndex % 12 + 1, day) - EpochDay <= MaxEpochDays
  {
    var y := ConstructorYear(year) + monthIndex / 12;
    var m := monthIndex % 12 + 1;
    var date := Rollover(y, m, day);
    RolloverDayNumber(y, m, day);
    if -MaxEpochDays <= DayNumber(date) - EpochDay <= MaxEpochDays then Some(date) else None
  }

  // ---------------------------------------------------------------- ISO printing

  /** The year as `toISOString` prints it: four digits for 0..9999, otherwise a sign and six digits. */
  function YearText(y: int): string {
    if 0 <= y <= 9999 then ZeroPad(NatToDigits(y), 4)
    else (if y < 0 then "-" else "+") + ZeroPad(NatToDigits(if y < 0 then -y else y), 6)
  }

  /** The part of `toISOString()` before the `T`. */
  function IsoDatePart(d: ValidDate): string {
    YearText(d.year) + "-" + ZeroPad(NatToDigits(d.month), 2) + "-" + ZeroPad(NatToDigits(d.day), 2)
  }

  /** `toISOString()` of the UTC midnight of `d`. */
  function ToIsoString(d: ValidDate): string {
    IsoDatePart(d) + "T00:00:00.000Z"
  }

  /** Reads a `YYYY-MM-DD` string back. */
  function ParseIsoDate(s: string): Option<Date> {
    if |s| == 10 && s[4] == '-' && s[7] == '-' && AllDigits(s[..4]) && AllDigits(s[5..7]) && AllDigits(s[8..])
    then Some(Date(DigitsValue(s[..4]), DigitsValue(s[5..7]), DigitsValue(s[8..])))
    else None
  }

  predicate IsIsoDateShape(s: string) {
    |s| == 10 && s[4] == '-' && s[7] == '-' &&
    forall i :: 0 <= i < 10 && i != 4 && i != 7 ==> IsDigit(s[i])
  }

  lemma PaddedField(n: nat, width: nat)
    requires 1 <= width && n < Pow10(width)
    ensures |ZeroPad(NatToDigits(n), width)| == width
    ensures AllDigits(ZeroPad(NatToDigits(n), width))
    ensures DigitsValue(ZeroPad(NatToDigits(n), width)) == n
  {
    NatToDigitsLength(n, width);
    ZeroPadValue(NatToDigits(n), width);
  }

  /** For years 0..9999 the date part is `YYYY-MM-DD`, and reading it back gives the date. */
  lemma IsoDateRoundTrip(d: ValidDate)
    requires 0 <= d.year <= 9999
    ensures IsIsoDateShape(IsoDatePart(d))
    ensures ParseIsoDate(IsoDatePart(d)) == Some(d)
  {
    assert Pow10(4) == 10000 && Pow10(2) == 100;
    PaddedField(d.year, 4);
    PaddedField(d.month, 2);
    PaddedField(d.day, 2);
    IsoFields(ZeroPad(NatToDigits(d.year), 4), ZeroPad(NatToDigits(d.month), 2), ZeroPad(NatToDigits(d.day), 2));
  }

  lemma IsoFields(y: string, m: string, dd: string)
    requires |y| == 4 && |m| == 2 && |dd| == 2 && AllDigits(y) && AllDigits(m) && AllDigits(dd)
    ensures IsIsoDateShape(y + "-" + m + "-" + dd)
    ensures ParseIsoDate(y + "-" + m + "-" + dd) == Some(Date(DigitsValue(y), DigitsValue(m), DigitsValue(dd)))
  {
    var s := y + "-" + m + "-" + dd;
    assert s[..4] == y && s[5..7] == m && s[8..] == dd;
    assert forall i :: 0 <= i < 4 ==> s[i] == y[i];
    assert forall i :: 5 <= i < 7 ==> s[i] == m[i - 5];
    assert forall i :: 8 <= i < 10 ==> s[i] == dd[i - 8];
  }

  lemma YearTextNoT(y: int)
    ensures 'T' !in YearText(y)
  {
    if 0 <= y <= 9999 {
      NonDigitNotIn('T', ZeroPad(NatToDigits(y), 4));
    } else {
      var digits := ZeroPad(NatToDigits(if y < 0 then -y else y), 6);
      NonDigitNotIn('T', digits);
      assert YearText(y) == (if y < 0 then "-" else "+") + digits;
    }
  }

  /** `toISOString().split('T')[0]` is the date part: the date part holds no `T`. */
  lemma IsoSplitAtT(d: ValidDate)
    ensures Split(ToIsoString(d), 'T')[0] == IsoDatePart(d)
  {
    var p := IsoDatePart(d);
    IsoDatePartNoT(d);
    TimeSuffix(p);
    SplitConcat(p, "00:00:00.000Z", 'T');
    SplitWithout(p, 'T');
  }

  lemma IsoDatePartNoT(d: ValidDate)
    ensures 'T' !in IsoDatePart(d)
  {
    var y := YearText(d.year);
    var m, dd := ZeroPad(NatToDigits(d.month), 2), ZeroPad(NatToDigits(d.day), 2);
    YearTextNoT(d.year);
    NonDigitNotIn('T', m);
    NonDigitNotIn('T', dd);
    NotInConcat('T', y, "-");
    NotInConcat('T', y + "-", m);
    NotInConcat('T', y + "-" + m, "-");
    NotInConcat('T', y + "-" + m + "-", dd);
  }

  lemma TimeSuffix(p: string)
    ensures p + "T00:00:00.000Z" == p + ['T'] + "00:00:00.000Z"
  {
    assert "T00:00:00.000Z" == ['T'] + "00:00:00.000Z";
  }

  // ---------------------------------------------------------------- month names

  const MonthNames: seq<string> := [
    "january", "february", "march", "april", "may", "june",
    "july", "august", "september", "october", "november", "december"
  ]

  /** `findIndex` over `MonthNames[k..]` of the months that start with `word`. */
  function MonthIndexFrom(word: string, k: nat): (r: Option<nat>)
    requires k <= 12
    ensures r.Some? ==> k <= r.value < 12 && word <= MonthNames[r.value]
    ensures r.Some? ==> forall j :: k <= j < r.value ==> !(word <= MonthNames[j])
    ensures r.None? ==> forall j :: k <= j < 12 ==> !(word <= MonthNames[j])
    decreases 12 - k
  {
    if k == 12 then None
    else if word <= MonthNames[k] then Some(k)
    else MonthIndexFrom(word, k + 1)
  }

  /** The 0-based index of the first month, in calendar order, whose name starts with `word`. */
  function MonthIndex(word: string): (r: Option<nat>)
    ensures r.Some? ==> r.value < 12 && word <= MonthNames[r.value]
    ensures r.Some? ==> forall j :: 0 <= j < r.value ==> !(word <= MonthNames[j])
    ensures r.None? ==> forall j :: 0 <= j < 12 ==> !(word <= MonthNames[j])
  {
    MonthIndexFrom(word, 0)
  }

  /** Ambiguous prefixes resolve to the earliest month: "ma" is March, not May. */
  lemma MonthIndexMa()
    ensures MonthIndex("ma") == Some(2)
  {
    assert "ma"[0] != MonthNames[0][0] && "ma"[0] != MonthNames[1][0];
    assert "ma" == MonthNames[2][..2];
  }

  /** "ju" is June, not July; "jul" is July. */
  lemma MonthIndexJu()
    ensures MonthIndex("ju") == Some(5)
    ensures MonthIndex("jul") == Some(6)
  {
    assert "ju"[1] != MonthNames[0][1];
    assert "ju"[0] != MonthNames[1][0] && "ju"[0] != MonthNames[2][0] && "ju"[0] != MonthNames[3][0];
    assert "ju"[0] != MonthNames[4][0];
    assert "ju" == MonthNames[5][..2];
    assert "jul"[1] != MonthNames[0][1];
    assert "jul"[0] != MonthNames[1][0] && "jul"[0] != MonthNames[2][0] && "jul"[0] != MonthNames[3][0];
    assert "jul"[0] != MonthNames[4][0] && "jul"[2] != MonthNames[5][2];
    assert "jul" == MonthNames[6][..3];
  }

  /** A word that starts no month name leaves the month unresolved. */
  lemma MonthIndexNone()
    ensures MonthIndex("junes") == None
    ensures MonthIndex("2") == None
  {
    assert forall j :: 0 <= j < 12 ==> MonthNames[j][0] != '2';
    assert "junes"[1] != MonthNames[0][1] && |MonthNames[6]| < 5;
    assert |MonthNames[5]| < 5;
    assert forall j :: 0 <= j < 12 && j != 0 && j != 5 && j != 6 ==> MonthNames[j][0] != 'j';
  }
}
