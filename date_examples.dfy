/** Worked inputs of `MultiFormatDateSchema` for which the direct parse gives an invalid date,
    so that the ordinal fallback decides. */
module DateExamples {
  import opened Basics
  import opened Text
  import opened Calendar
  import opened OrdinalRegex
  import opened Schemas

  /** The text `pre` followed by an ordinal date written with single spaces. */
  function OrdinalText(pre: string, day: string, suffix: string, word: string, year: string): string {
    pre + day + suffix + " " + word + " " + year
  }

  /** Where the parts of such a text lie. */
  function OrdinalTextMatch(pre: string, day: string, word: string): OrdinalMatch {
    var a := |pre| + |day|;
    OrdinalMatch(|pre|, a, a + 3, a + 3 + |word|, a + 4 + |word|)
  }

  predicate OrdinalParts(day: string, suffix: string, word: string, year: string) {
    && 1 <= |day| <= 2 && AllDigits(day)
    && |suffix| == 2 && IsOrdinalSuffix(suffix[0], suffix[1])
    && |word| >= 1 && (forall i :: 0 <= i < |word| ==> IsWordChar(word[i]))
    && |year| == 4 && AllDigits(year)
  }

  /** Such a text has the ordinal match that starts right after `pre`. */
  lemma ShapeMatches(pre: string, day: string, suffix: string, word: string, year: string)
    requires OrdinalParts(day, suffix, word, year)
    ensures IsMatch(OrdinalText(pre, day, suffix, word, year), OrdinalTextMatch(pre, day, word))
    ensures DayDigits(OrdinalText(pre, day, suffix, word, year), OrdinalTextMatch(pre, day, word)) == day
    ensures MonthWord(OrdinalText(pre, day, suffix, word, year), OrdinalTextMatch(pre, day, word)) == word
    ensures YearDigits(OrdinalText(pre, day, suffix, word, year), OrdinalTextMatch(pre, day, word)) == year
  {
    var s := OrdinalText(pre, day, suffix, word, year);
    var a := |pre| + |day|;
    assert s[|pre|..a] == day;
    assert s[a + 3..a + 3 + |word|] == word;
    assert s[a + 4 + |word|..] == year;
    assert IsOrdinalSuffix(s[a], s[a + 1]) by {
      assert s[a] == suffix[0] && s[a + 1] == suffix[1];
    }
    assert SpacesIn(s, a + 2, a + 3) && SpacesIn(s, a + 3 + |word|, a + 4 + |word|) by {
      assert s[a + 2] == ' ' && s[a + 3 + |word|] == ' ';
      assert IsJsSpace(' ');
    }
    assert DigitsIn(s, |pre|, a) by {
      forall k | |pre| <= k < a ensures IsDigit(s[k]) {
        assert s[k] == s[|pre|..a][k - |pre|];
      }
    }
    assert WordIn(s, a + 3, a + 3 + |word|) by {
      forall k | a + 3 <= k < a + 3 + |word| ensures IsWordChar(s[k]) {
        assert s[k] == s[a + 3..a + 3 + |word|][k - a - 3];
      }
    }
    assert DigitsIn(s, a + 4 + |word|, a + 8 + |word|) by {
      forall k | a + 4 + |word| <= k < a + 8 + |word| ensures IsDigit(s[k]) {
        assert s[k] == s[a + 4 + |word|..][k - a - 4 - |word|];
      }
    }
  }

  /** The fallback on an ordinal text with no match before it: the date whose day number MakeDay
      gives for the year, the month the word names and the day. */
  lemma FallbackExample(pre: string, day: string, suffix: string, word: string, year: string,
                        parse: DateParser, k: nat, expected: ValidDate)
    requires OrdinalParts(day, suffix, word, year)
    requires NoMatchBefore(OrdinalText(pre, day, suffix, word, year), |pre|)
    requires parse(OrdinalText(pre, day, suffix, word, year)).None?
    requires MonthIndex(LowerAscii(word)) == Some(k)
    requires DayNumber(expected) == MakeDay(ConstructorYear(DigitsValue(year)), k + 1, DigitsValue(day))
    ensures DateTransform(OrdinalText(pre, day, suffix, word, year), parse) == Ok(IsoDatePart(expected))
  {
    var s := OrdinalText(pre, day, suffix, word, year);
    var m := OrdinalTextMatch(pre, day, word);
    ShapeMatches(pre, day, suffix, word, year);
    FindOrdinalFirst(s, m);
    OrdinalFallbackDate(s, parse, m);
    var d := OrdinalFallback(s).value;
    assert DayNumber(d) == DayNumber(expected);
    DayNumberInjective(d, expected);
  }

  lemma Parts21stJune2025()
    ensures OrdinalParts("21", "st", "June", "2025")
  {
    assert IsOrdinalSuffix('s', 't');
    assert forall i :: 0 <= i < |"June"| ==> IsWordChar("June"[i]);
  }

  lemma Parts31stJune2025()
    ensures OrdinalParts("31", "st", "June", "2025")
  {
    assert IsOrdinalSuffix('s', 't');
    assert forall i :: 0 <= i < |"June"| ==> IsWordChar("June"[i]);
  }

  lemma Parts99thDecember9999()
    ensures OrdinalParts("99", "th", "December", "9999")
  {
    assert IsOrdinalSuffix('t', 'h');
    assert forall i :: 0 <= i < |"December"| ==> IsWordChar("December"[i]);
  }

  lemma Parts1stMay0050()
    ensures OrdinalParts("1", "st", "May", "0050")
  {
    assert IsOrdinalSuffix('s', 't');
    assert forall i :: 0 <= i < |"May"| ==> IsWordChar("May"[i]);
  }

  lemma MonthIndexJune()
    ensures MonthIndex(LowerAscii("June")) == Some(5)
  {
    assert LowerAscii("June") == "june";
    assert "june"[1] != MonthNames[0][1];
    assert "june"[0] != MonthNames[1][0] && "june"[0] != MonthNames[2][0] && "june"[0] != MonthNames[3][0];
    assert "june"[0] != MonthNames[4][0];
    assert "june" == MonthNames[5][..4];
  }

  lemma MonthIndexDecember()
    ensures MonthIndex(LowerAscii("December")) == Some(11)
  {
    assert LowerAscii("December") == "december";
    assert forall j :: 0 <= j < 11 ==> MonthNames[j][0] != 'd';
    assert "december" == MonthNames[11];
  }

  lemma MonthIndexMay()
    ensures MonthIndex(LowerAscii("May")) == Some(4)
  {
    assert LowerAscii("May") == "may";
    assert "may"[0] != MonthNames[0][0] && "may"[0] != MonthNames[1][0];
    assert "may"[2] != MonthNames[2][2] && "may"[0] != MonthNames[3][0];
    assert "may" == MonthNames[4];
  }

  lemma Year2025()
    ensures AllDigits("2025") && DigitsValue("2025") == 2025 && ConstructorYear(2025) == 2025
  {
    DigitsValue4("2025");
  }

  /** The day numbers the fallback computes for the worked inputs. */
  lemma June21Day()
    ensures DayNumber(Date(2025, 6, 21)) == MakeDay(ConstructorYear(DigitsValue("2025")), 5 + 1, DigitsValue("21"))
  {
    Year2025();
    assert DigitsValue("21") == 21 by { DigitsValue2("21"); }
  }

  lemma July1Day()
    ensures DayNumber(Date(2025, 7, 1)) == MakeDay(ConstructorYear(DigitsValue("2025")), 5 + 1, DigitsValue("31"))
  {
    Year2025();
    assert DigitsValue("31") == 31 by { DigitsValue2("31"); }
    JulyFirst();
  }

  lemma March8Year10000Day()
    ensures DayNumber(Date(10000, 3, 8)) == MakeDay(ConstructorYear(DigitsValue("9999")), 11 + 1, DigitsValue("99"))
  {
    assert DigitsValue("9999") == 9999 by { DigitsValue4("9999"); }
    assert DigitsValue("99") == 99 by { DigitsValue2("99"); }
    MarchEighth10000();
  }

  lemma May1Year1950Day()
    ensures DayNumber(Date(1950, 5, 1)) == MakeDay(ConstructorYear(DigitsValue("0050")), 4 + 1, DigitsValue("1"))
  {
    assert DigitsValue("0050") == 50 by { DigitsValue4("0050"); }
    assert DigitsValue("1") == 1 by { assert "1"[..0] == []; }
  }

  /** The spellings of the years in these examples, one digit at a time. */
  lemma Spelling2025()
    ensures NatToDigits(2025) == "2025"
  {
    DigitsStep(20, 0, 2);
    DigitsStep(202, 2, 20);
    DigitsStep(2025, 5, 202);
  }

  lemma Spelling1950()
    ensures NatToDigits(1950) == "1950"
  {
    DigitsStep(19, 9, 1);
    DigitsStep(195, 5, 19);
    DigitsStep(1950, 0, 195);
  }

  lemma Spelling1000()
    ensures NatToDigits(1000) == "1000"
  {
    DigitsStep(10, 0, 1);
    DigitsStep(100, 0, 10);
    DigitsStep(1000, 0, 100);
  }

  lemma IsoJune21()
    ensures IsoDatePart(Date(2025, 6, 21)) == "2025-06-21"
  {
    Spelling2025();
    PadTwo(0, 6);
    PadTwo(2, 1);
  }

  lemma OrdinalJuneText()
    ensures "21st June 2025" == OrdinalText([], "21", "st", "June", "2025")
  {
  }

  lemma OrdinalJuneDate(parse: DateParser)
    requires parse("21st June 2025").None?
    ensures DateTransform("21st June 2025", parse) == Ok(IsoDatePart(Date(2025, 6, 21)))
  {
    OrdinalJuneText();
    MonthIndexJune();
    June21Day();
    Parts21stJune2025();
    FallbackExample([], "21", "st", "June", "2025", parse, 5, Date(2025, 6, 21));
  }

  /** "21st June 2025" is 21 June 2025. */
  lemma OrdinalJune(parse: DateParser)
    requires parse("21st June 2025").None?
    ensures DateTransform("21st June 2025", parse) == Ok("2025-06-21")
  {
    OrdinalJuneDate(parse);
    IsoJune21();
  }

  lemma JulyFirst()
    ensures DayNumber(Date(2025, 7, 1)) == MakeDay(2025, 6, 31)
  {
    assert DaysBeforeMonth(2025, 7) == DaysBeforeMonth(2025, 6) + 30;
  }

  lemma IsoJuly1()
    ensures IsoDatePart(Date(2025, 7, 1)) == "2025-07-01"
  {
    Spelling2025();
    PadTwo(0, 7);
    PadTwo(0, 1);
  }

  lemma OrdinalRolloverText()
    ensures "31st June 2025" == OrdinalText([], "31", "st", "June", "2025")
  {
  }

  lemma OrdinalRolloverDate(parse: DateParser)
    requires parse("31st June 2025").None?
    ensures DateTransform("31st June 2025", parse) == Ok(IsoDatePart(Date(2025, 7, 1)))
  {
    OrdinalRolloverText();
    MonthIndexJune();
    July1Day();
    Parts31stJune2025();
    FallbackExample([], "31", "st", "June", "2025", parse, 5, Date(2025, 7, 1));
  }

  /** "31st June 2025" rolls over, as `new Date(2025, 5, 31)` does, to 1 July 2025. */
  lemma OrdinalRollover(parse: DateParser)
    requires parse("31st June 2025").None?
    ensures DateTransform("31st June 2025", parse) == Ok("2025-07-01")
  {
    OrdinalRolloverDate(parse);
    IsoJuly1();
  }

  lemma NoMatchAtDigits20()
    ensures NoMatchBefore(OrdinalText("20", "21", "st", "June", "2025"), 2)
  {
    var s := OrdinalText("20", "21", "st", "June", "2025");
    assert s[1] == '0' && s[2] == '2' && s[3] == '1' && s[4] == 's';
    SuffixNotDigit('0', '2');
    SuffixNotDigit('2', '1');
    SuffixNotDigit('1', 's');
    NoMatchAtDigit(s, 0);
    NoMatchAtDigit(s, 1);
  }

  /** No match starts where neither one nor two digits are followed by a suffix. */
  lemma NoMatchAtDigit(s: string, i: nat)
    requires i + 3 < |s| && !IsOrdinalSuffix(s[i + 1], s[i + 2]) && !IsOrdinalSuffix(s[i + 2], s[i + 3])
    ensures MatchAt(s, i).None?
  {
  }

  lemma OrdinalLeftmostText()
    ensures "2021st June 2025" == OrdinalText("20", "21", "st", "June", "2025")
  {
  }

  lemma OrdinalLeftmostDate(parse: DateParser)
    requires parse("2021st June 2025").None?
    ensures DateTransform("2021st June 2025", parse) == Ok(IsoDatePart(Date(2025, 6, 21)))
  {
    var e: ValidDate := Date(2025, 6, 21);
    OrdinalLeftmostText();
    MonthIndexJune();
    June21Day();
    Parts21stJune2025();
    NoMatchAtDigits20();
    FallbackExample("20", "21", "st", "June", "2025", parse, 5, e);
  }

  /** In "2021st June 2025" neither "20" nor "02" is followed by a suffix: the day is 21. */
  lemma OrdinalLeftmost(parse: DateParser)
    requires parse("2021st June 2025").None?
    ensures DateTransform("2021st June 2025", parse) == Ok("2025-06-21")
  {
    OrdinalLeftmostDate(parse);
    IsoJune21();
  }

  lemma MarchEighth10000()
    ensures DayNumber(Date(10000, 3, 8)) == MakeDay(9999, 12, 99)
  {
    DaysBeforeNextYear(9999);
  }

  lemma IsoMarch8Year10000()
    ensures IsoDatePart(Date(10000, 3, 8)) == "+010000-03-08"
  {
    Spelling1000();
    DigitsStep(10000, 0, 1000);
    assert NatToDigits(10000) == "10000";
    assert ZeroPad("10000", 6) == "010000";
    PadTwo(0, 3);
    PadTwo(0, 8);
  }

  lemma OrdinalPastYear9999Text()
    ensures "99th December 9999" == OrdinalText([], "99", "th", "December", "9999")
  {
  }

  lemma OrdinalPastYear9999Date(parse: DateParser)
    requires parse("99th December 9999").None?
    ensures DateTransform("99th December 9999", parse) == Ok(IsoDatePart(Date(10000, 3, 8)))
  {
    OrdinalPastYear9999Text();
    MonthIndexDecember();
    March8Year10000Day();
    Parts99thDecember9999();
    FallbackExample([], "99", "th", "December", "9999", parse, 11, Date(10000, 3, 8));
  }

  /** The largest day and year the pattern admits leave the four-digit years: "99th December
      9999" is 8 March 10000, which `toISOString` prints with a sign and six year digits. */
  lemma OrdinalPastYear9999(parse: DateParser)
    requires parse("99th December 9999").None?
    ensures DateTransform("99th December 9999", parse) == Ok("+010000-03-08")
  {
    OrdinalPastYear9999Date(parse);
    IsoMarch8Year10000();
  }

  lemma IsoMay1Year1950()
    ensures IsoDatePart(Date(1950, 5, 1)) == "1950-05-01"
  {
    Spelling1950();
    PadTwo(0, 5);
    PadTwo(0, 1);
  }

  lemma OrdinalTwoDigitYearText()
    ensures "1st May 0050" == OrdinalText([], "1", "st", "May", "0050")
  {
  }

  lemma OrdinalTwoDigitYearDate(parse: DateParser)
    requires parse("1st May 0050").None?
    ensures DateTransform("1st May 0050", parse) == Ok(IsoDatePart(Date(1950, 5, 1)))
  {
    OrdinalTwoDigitYearText();
    MonthIndexMay();
    May1Year1950Day();
    Parts1stMay0050();
    FallbackExample([], "1", "st", "May", "0050", parse, 4, Date(1950, 5, 1));
  }

  /** `new Date(year, ...)` reads the years 0 to 99 as 1900 to 1999: "1st May 0050" is in 1950. */
  lemma OrdinalTwoDigitYear(parse: DateParser)
    requires parse("1st May 0050").None?
    ensures DateTransform("1st May 0050", parse) == Ok("1950-05-01")
  {
    OrdinalTwoDigitYearDate(parse);
    IsoMay1Year1950();
  }

  /** A string without a digit has no ordinal match, so an unparseable one is an issue. */
  lemma NoDigitNoDate(s: string, parse: DateParser)
    requires s != "" && parse(s).None?
    requires forall k :: 0 <= k < |s| ==> !IsDigit(s[k])
    ensures DateTransform(s, parse) == Fail([Issue([], Custom(UnableToParse(s)))])
  {
  }

  lemma NotADate(parse: DateParser)
    requires parse("not-a-date").None?
    ensures DateTransform("not-a-date", parse) == Fail([Issue([], Custom("Unable to parse date: \"not-a-date\""))])
  {
    assert forall k :: 0 <= k < |"not-a-date"| ==> !IsDigit("not-a-date"[k]);
    NoDigitNoDate("not-a-date", parse);
    assert UnableToParse("not-a-date") == "Unable to parse date: \"not-a-date\"";
  }
}
