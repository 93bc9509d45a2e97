# Housekeep MCP server: request validation and tool payloads

This project models the two pieces of pure logic in the Housekeep MCP server.

The first is the request validation of `netlify/mcp-server/types.ts`:

- `TransformNumberSchema`: a string becomes a number, or the blank sentinel `""` when it is
  empty or `Number()` reads it as NaN.
- `MultiFormatDateSchema`: null and `""` become `""`. Any other string goes to the engine's
  direct date parse. When that gives an invalid date, the leftmost match of the ordinal
  pattern `(\d{1,2})(st|nd|rd|th)\s+(\w+)\s+(\d{4})` (case-insensitive) is tried: its word is
  looked up as a prefix of the month names, and the day is built with
  `new Date(year, monthIndex, day)`. The result is printed as the date part of
  `toISOString()`. When no date comes out, there is one custom issue.
- `TradesQuoteRequestSchema`: a zod object whose five fields are all checked and whose
  issues are all collected.

The second is the deterministic part of the handlers in `netlify/mcp-server/index.ts`:

- the upstream request each of the two tools makes;
- the summary text built from `sub_items`;
- the six query pairs of the quote request, appended in order to a `URLSearchParams`;
- the error thrown on a non-ok response;
- the `TypeError` of `null.join` when `tasks_hours` is null;
- the fixed text of the `using-get-trades-quote` resource.

Modules:

- `Basics`: `Option` and `Result`.
- `Text`: character classes, decimal digits, zero padding, `join` and `split`.
- `JsNumber`: `Number(string)` and `String(number)` over integers.
- `Calendar`: proleptic Gregorian dates, read in UTC:
  - day numbers and the day rollover of the `Date` constructor (ECMA-262 section 21.4.2.1,
    with MakeDay from section 21.4.1.28);
  - the time-value range of TimeClip;
  - the date part of `toISOString` (section 21.4.4.36);
  - the month lookup by prefix.
- `OrdinalRegex`: a leftmost-match scanner for the ordinal pattern, proved equal to a
  declarative description of a match (`IsMatch`).
- `Schemas`: the three schemas over an untyped JSON value, with zod's outcome
  `Ok(value) | Fail(issues)`.
- `Tools`: the two tool handlers and the resource.
- `DateExamples`: worked inputs of the date schema, proved.

The engine's direct `new Date(string)` parse is implementation-defined (ECMA-262 section
21.4.3.2). It is the parameter `parse: DateParser`. The upstream `fetch` of the quote tool is
a function parameter, and the summary response is an input value.

Three behaviours of the code are worth noting:

- A string that `Number()` reads as NaN (for example `"abc"`) is not rejected by
  `TransformNumberSchema`. It becomes the blank sentinel `""`.
- The resource is registered with `mimeType: "text/plain"` (index.ts:91). The content entry
  the read handler returns carries only `uri` and `text`.
- The normalised date has the ten-character `YYYY-MM-DD` shape only for years 0..9999. The
  ordinal pattern admits day 99 and year 9999, and `"99th December 9999"` rolls over to
  8 March 10000. `toISOString` prints that year with a sign and six digits, so the value is
  `"+010000-03-08"` (`DateExamples.OrdinalPastYear9999`).

## Model

| member | source | states |
|---|---|---|
| Schemas.NumberSchema | netlify/mcp-server/types.ts:3 | only a JSON string is accepted; any other value fails with exactly one invalid_type issue (expected string, received its type), and a string is never rejected |
| Schemas.TransformNumberBlank | netlify/mcp-server/types.ts:3-7 | the result is the blank sentinel exactly when the input is "" or `Number()` gives NaN; otherwise it is the number `Number()` reads |
| Schemas.TransformNumberBlanks | netlify/mcp-server/types.ts:4-6 | "abc" and "" are blank, while " " is the number 0, as `Number(" ")` is |
| Schemas.TransformNumberDigits | netlify/mcp-server/types.ts:4-6 | "3" is 3 and "-12" is -12 |
| Schemas.TransformNumberIgnoresSpaces | netlify/mcp-server/types.ts:4 | white space around a value does not change the result |
| Schemas.TransformNumberOfString | netlify/mcp-server/types.ts:4-6 | the decimal spelling of any integer is read back as that integer |
| Schemas.SpacesAreNumberZero | netlify/mcp-server/types.ts:4-6 | a non-empty string of white space only is the number 0, not the blank sentinel |
| JsNumber.NumberOfString | netlify/mcp-server/types.ts:4 | `Number(String(n)) == n` for every integer n |
| JsNumber.NumberIgnoresSpaces | netlify/mcp-server/types.ts:4 | `Number()` ignores leading and trailing white space |
| JsNumber.SpacesAreZero | netlify/mcp-server/types.ts:4 | a string of white space only, "" included, is the number 0 |
| JsNumber.IntToString | netlify/mcp-server/index.ts:60-61 | `String(n)` is non-empty, has no white space at either end, and is all digits for n >= 0 |
| Schemas.DateSchema | netlify/mcp-server/types.ts:9-13 | null and "" give "" with no issue; a value that is neither a string nor null fails with the invalid_type issue |
| Schemas.OptionalDateField | netlify/mcp-server/types.ts:58 | an absent, null or "" `job_date` gives "" |
| Schemas.DirectParseFirst | netlify/mcp-server/types.ts:19-22 | when the direct parse gives a valid date, the result is that date's `YYYY-MM-DD` and the fallback is not consulted |
| Schemas.OrdinalFallbackDate | netlify/mcp-server/types.ts:22-40 | when the direct parse fails, the leftmost match decides: a word that starts no month name gives the one "Unable to parse date" issue; otherwise the result is the date whose day number MakeDay computes from the year, the month and the unclamped day |
| Schemas.FallbackInRange | netlify/mcp-server/types.ts:38 | every year of four digits, month index and day of two digits gives a valid `Date` (TimeClip never rejects it), with a year in 99..10000 |
| Schemas.DateFailure | netlify/mcp-server/types.ts:43-48 | a non-empty string fails exactly when the direct parse and the fallback both fail, and then with a single custom issue `Unable to parse date: "<input>"`; in particular it fails with that issue when the direct parse fails and the pattern matches nowhere |
| Schemas.DateSuccessIsIso | netlify/mcp-server/types.ts:51 | a successful value is the date part of `toISOString()` of the resolved date; for years 0..9999 it has the `YYYY-MM-DD` shape and reads back as that valid calendar date |
| Schemas.DateIdempotent | netlify/mcp-server/types.ts:9-52 | given a direct parse that reads ISO dates, normalising a normalised date (year 0..9999) gives it back unchanged |
| OrdinalRegex.FindOrdinal | netlify/mcp-server/types.ts:24-25 | a returned match is a match of the pattern |
| OrdinalRegex.FindOrdinalSpec | netlify/mcp-server/types.ts:24-25 | the scanner finds a match exactly when one exists anywhere in the string, and the one it finds starts leftmost |
| OrdinalRegex.FindOrdinalFirst | netlify/mcp-server/types.ts:25 | a match before which no match starts is the one `match` returns |
| OrdinalRegex.MatchUnique | netlify/mcp-server/types.ts:24 | two matches that start at the same place are the same match (greedy runs, two day digits before one) |
| OrdinalRegex.MatchAtComplete | netlify/mcp-server/types.ts:24 | every match starting at a position is the one the scanner reports there |
| OrdinalRegex.MatchAfterDayComplete | netlify/mcp-server/types.ts:24 | once the day digits are fixed, the greedy white-space and word runs find every match |
| OrdinalRegex.SearchFrom | netlify/mcp-server/types.ts:25 | a match found from position i is a match starting at i or later, with no match between i and it |
| OrdinalRegex.SearchFromComplete | netlify/mcp-server/types.ts:25 | a search from any position at or before a match succeeds |
| OrdinalRegex.MatchAt | netlify/mcp-server/types.ts:24 | a match reported at position i is a match of the pattern starting at i |
| OrdinalRegex.MatchAfterDay | netlify/mcp-server/types.ts:24 | a match built after day digits is a match of the pattern with those day digits |
| OrdinalRegex.SpanSpaces | netlify/mcp-server/types.ts:24 | `\s+` consumes a maximal run of white space |
| OrdinalRegex.SpanWord | netlify/mcp-server/types.ts:24 | `\w+` consumes a maximal run of word characters |
| OrdinalRegex.IsMatchIgnoresCase | netlify/mcp-server/types.ts:24 | under the `i` flag a string and its lower-casing have the same matches |
| OrdinalRegex.FindOrdinalIgnoresCase | netlify/mcp-server/types.ts:24-25 | `match` finds the same match in a string and in its lower-casing |
| OrdinalRegex.DayDigits | netlify/mcp-server/types.ts:28 | the day group is one or two digits |
| OrdinalRegex.MonthWord | netlify/mcp-server/types.ts:28 | the month group is a non-empty run of word characters |
| OrdinalRegex.YearDigits | netlify/mcp-server/types.ts:28 | the year group is exactly four digits |
| Calendar.MonthIndex | netlify/mcp-server/types.ts:29-35 | the result is the first month, in January..December order, whose name starts with the word; `None` exactly when no name does |
| Calendar.MonthIndexFrom | netlify/mcp-server/types.ts:33-35 | the search from month k finds the first month at or after k whose name starts with the word |
| Calendar.MonthIndexMa | netlify/mcp-server/types.ts:33-35 | "ma" is March, not May |
| Calendar.MonthIndexJu | netlify/mcp-server/types.ts:33-35 | "ju" is June and "jul" is July |
| Calendar.MonthIndexNone | netlify/mcp-server/types.ts:33-37 | "junes" and "2" start no month name |
| Calendar.JsDate | netlify/mcp-server/types.ts:38 | `new Date(year, monthIndex, day)` is valid exactly when MakeDay's day number is within TimeClip's range, and is then the date with that day number |
| Calendar.ConstructorYear | netlify/mcp-server/types.ts:38 | the `Date` constructor reads years 0..99 as 1900..1999 and others as they are |
| Calendar.RolloverDayNumber | netlify/mcp-server/types.ts:38 | carrying an out-of-range day into the neighbouring months lands on the day number MakeDay computes |
| Calendar.RolloverIsMakeDay | netlify/mcp-server/types.ts:38 | the rolled-over date is the one valid date with MakeDay's day number |
| Calendar.DayNumberInjective | netlify/mcp-server/types.ts:38 | distinct valid dates have distinct day numbers |
| Calendar.DayNumberInYear | netlify/mcp-server/types.ts:38 | a date's day number lies within its own year |
| Calendar.DaysBeforeNextYear | netlify/mcp-server/types.ts:38 | consecutive years are 365 or 366 days apart, by the Gregorian leap-year rule |
| Calendar.DaysInYearCount | netlify/mcp-server/types.ts:38 | a year's length is 365 plus one for a multiple of 4, minus one for a multiple of 100, plus one for a multiple of 400 |
| Calendar.DaysInMonth | netlify/mcp-server/types.ts:38 | months have 28..31 days, and February has 29 exactly in leap years |
| Calendar.EpochDayIsNewYear1970 | netlify/mcp-server/types.ts:38 | the day number of the ECMAScript epoch is that of 1 January 1970 |
| Calendar.MakeDayWithin | netlify/mcp-server/types.ts:38 | days 0..99 of any month of the years 100..9999 fall in the years 99..10000 and within TimeClip's range |
| Calendar.YearOfDayNumber | netlify/mcp-server/types.ts:38 | a day number within the years lo..hi belongs to a date of one of those years |
| Calendar.IsoSplitAtT | netlify/mcp-server/types.ts:51 | `toISOString().split('T')[0]` is the date part of the ISO string |
| Calendar.IsoDateRoundTrip | netlify/mcp-server/types.ts:51 | for years 0..9999 the date part is `YYYY-MM-DD` and reading it back gives the date |
| Calendar.IsoDatePartNoT | netlify/mcp-server/types.ts:51 | the date part holds no `T` |
| Schemas.TaskTypeSchema | netlify/mcp-server/types.ts:59-63 | exactly the three identifiers are accepted, case-sensitively and without coercion; anything else is one invalid_union issue |
| Schemas.TaskIdsRule | netlify/mcp-server/types.ts:59-63 | an array passes exactly when every element is one of the three identifiers; the task types keep the array's order and each other element is reported under its index |
| Schemas.TaskTypeIdInjective | netlify/mcp-server/types.ts:60-62 | the three identifiers are distinct |
| Schemas.ArrayOf | netlify/mcp-server/types.ts:59 | an array passes exactly when every element passes, gives the elements' values in order, and keeps every element's issues under its index |
| Schemas.ArrayOfIssuesFromElements | netlify/mcp-server/types.ts:59 | every issue of an array is an issue of one of its elements under that element's index, so nothing else is reported |
| Schemas.ArrayOfAppend | netlify/mcp-server/types.ts:59 | one more element appends its own issues, under its index, after those of the earlier elements: the issues come in index order |
| Schemas.NullableString | netlify/mcp-server/types.ts:64 | exactly strings and null pass; null stays distinct from a string |
| Schemas.HoursRule | netlify/mcp-server/types.ts:64 | a null `tasks_hours` passes as null and an empty array as no hours; an array passes exactly when every element is a string or null; an absent field is one invalid_type issue (expected array, received undefined) |
| Schemas.QuoteRequestReportsEveryField | netlify/mcp-server/types.ts:55-66 | the object passes exactly when all five fields pass; its issues are exactly those of the five fields, each under the field's key, concatenated in the order of the shape |
| Schemas.NestedIssuesKept | netlify/mcp-server/types.ts:55-66 | issues of a nested value appear under the nesting key |
| Schemas.QuoteRequestDefaults | netlify/mcp-server/types.ts:56-58 | in a valid request, an absent or null `num_bedrooms` or `frequency` becomes the blank sentinel and an absent or null `job_date` becomes "" |
| Schemas.Nest | netlify/mcp-server/types.ts:55-66 | nesting keeps the outcome's kind and value and prefixes every issue path with the key |
| DateExamples.OrdinalJune | netlify/mcp-server/types.ts:22-51 | "21st June 2025" normalises to "2025-06-21" when the direct parse fails |
| DateExamples.OrdinalRollover | netlify/mcp-server/types.ts:38 | "31st June 2025" rolls over to "2025-07-01" |
| DateExamples.OrdinalLeftmost | netlify/mcp-server/types.ts:24-28 | in "2021st June 2025" the day digits are "21", so the value is "2025-06-21" |
| DateExamples.OrdinalPastYear9999 | netlify/mcp-server/types.ts:38-51 | "99th December 9999" is 8 March 10000, printed "+010000-03-08" |
| DateExamples.OrdinalTwoDigitYear | netlify/mcp-server/types.ts:38 | "1st May 0050" is in 1950, printed "1950-05-01" |
| DateExamples.NoDigitNoDate | netlify/mcp-server/types.ts:43-48 | a string without digits that the direct parse rejects fails with the one "Unable to parse date" issue |
| DateExamples.NotADate | netlify/mcp-server/types.ts:43-48 | "not-a-date" fails with `Unable to parse date: "not-a-date"` |
| DateExamples.FallbackExample | netlify/mcp-server/types.ts:22-51 | an ordinal text with no match before it normalises to the ISO date part of the date with MakeDay's day number |
| DateExamples.ShapeMatches | netlify/mcp-server/types.ts:24-28 | an ordinal text with single spaces is a match whose groups are its day, word and year |
| Tools.SummaryTool | netlify/mcp-server/index.ts:26-44 | the tool requests the summary endpoint; a non-ok response is the error "Failed to fetch trades services summary: <statusText>" and no content, an ok one is one text content holding the summary text |
| Tools.SummaryTextLines | netlify/mcp-server/index.ts:33-35 | split into lines, the summary text is, for each sub-item in order, its name line and identifier line, with a `---` line between consecutive sub-items |
| Tools.SummaryTextEmpty | netlify/mcp-server/index.ts:33-35 | no sub-items give the empty text |
| Tools.SummaryLines | netlify/mcp-server/index.ts:33-35 | n >= 1 sub-items give 3n - 1 lines (two per sub-item and n - 1 separators); none give the single empty line |
| Tools.SummaryBlocks | netlify/mcp-server/index.ts:34 | one block per sub-item, in input order |
| Tools.BlockLines | netlify/mcp-server/index.ts:34 | a block is the name line and the identifier line |
| Tools.QueryParams.constructor | netlify/mcp-server/index.ts:59 | a new `URLSearchParams` holds no pairs |
| Tools.QueryParams.Append | netlify/mcp-server/index.ts:60-65 | `append` adds one pair at the end |
| Tools.BuildQuoteQuery | netlify/mcp-server/index.ts:59-65 | the six appends give the six pairs of the query; a null `tasks_hours` throws at its `join`, before the fifth append |
| Tools.QuoteTool | netlify/mcp-server/index.ts:55-84 | a null `tasks_hours` fails with no upstream request; otherwise one request to the quote endpoint with the query, where a non-ok response is the error "Failed to fetch trades quote: <statusText>" and no content, and an ok one is its body as text |
| Tools.QuoteCall | netlify/mcp-server/index.ts:48-84 | arguments that fail `{ parameters: TradesQuoteRequestSchema }` give their issues and never reach the handler; valid ones with null `tasks_hours` fail with no request; the others make the one request of the normalised parameters, and return its body as text content when it is ok and the error "Failed to fetch trades quote: <statusText>" otherwise |
| Tools.QuoteQueryKeys | netlify/mcp-server/index.ts:59-65 | the query has exactly six pairs, keyed num_bedrooms, frequency, job_date, tasks_string_ids, tasks_hours, tasks_quantities in that order |
| Tools.QuoteQueryScalars | netlify/mcp-server/index.ts:60-65 | the two numbers are read back by the same transform (the sentinel stays ""), the job date is as normalised and tasks_quantities is "" |
| Tools.NumberTextRoundTrip | netlify/mcp-server/index.ts:60-61 | `String()` of a normalised number is read back as that number, and the sentinel as the sentinel |
| Tools.QuoteQueryTaskIds | netlify/mcp-server/index.ts:63 | splitting tasks_string_ids at commas gives the identifiers in request order; no identifiers give "" |
| Tools.QuoteQueryHours | netlify/mcp-server/index.ts:64 | splitting tasks_hours at commas gives the hours in order, null as "" |
| Tools.TaskIdTexts | netlify/mcp-server/index.ts:63 | the identifiers joined are those of the task types, in order |
| Tools.HourTexts | netlify/mcp-server/index.ts:64 | `join` prints a null element as "" and a string as itself |
| Schemas.TaskTypeIdNoComma | netlify/mcp-server/index.ts:63 | no identifier holds a comma |
| Text.SplitJoin | netlify/mcp-server/index.ts:63-64 | splitting a comma-join of comma-free parts gives the parts back |
| Text.Join | netlify/mcp-server/index.ts:35 | joining no parts is "" and joining one part is that part |
| Text.JoinAppend | netlify/mcp-server/index.ts:35 | joining one more part adds the separator and that part at the end |
| Tools.ReadGuide | netlify/mcp-server/index.ts:92-104 | a read returns exactly one content entry, with the resource's uri |
| Tools.GuideNamesEveryTaskType | netlify/mcp-server/index.ts:97-101 | the guide text names the `tasks_string_ids` argument and the identifier of every task type the schema accepts |
| Tools.GuideNamesArgument | netlify/mcp-server/index.ts:97 | the guide text names `tasks_string_ids` |
| Tools.GuideNamesGardener | netlify/mcp-server/index.ts:99 | the guide text names `gardener-tasktype` |
| Tools.GuideNamesPlumber | netlify/mcp-server/index.ts:100 | the guide text names `plumber-tasktype` |
| Tools.GuideNamesHandyman | netlify/mcp-server/index.ts:101 | the guide text names `handyman-tasktype` |
| Schemas.TransformNumber | netlify/mcp-server/types.ts:3-7 | definition of the transform: "" or a NaN reading gives the blank sentinel, otherwise the number; its properties are `TransformNumberBlank` and the rows after it |
| Schemas.OptionalNumberField | netlify/mcp-server/types.ts:56-57 | definition of `.nullable().optional()` with `?? ""` on the number schema; its defaults are `QuoteRequestDefaults` |
| Schemas.OrdinalFallback | netlify/mcp-server/types.ts:22-40 | definition of the fallback: leftmost match, month lookup and the `Date` constructor; stated by `OrdinalFallbackDate` |
| Schemas.ResolveDate | netlify/mcp-server/types.ts:16-41 | definition: the direct parse, and the fallback only when it fails; stated by `DirectParseFirst` and `OrdinalFallbackDate` |
| Schemas.DateTransform | netlify/mcp-server/types.ts:9-52 | definition of the date transform on a string; stated by `DateFailure`, `DateSuccessIsIso` and `DateIdempotent` |
| Schemas.TaskIdsField | netlify/mcp-server/types.ts:59-63 | definition of the required `tasks_string_ids` array; stated by `TaskIdsRule` |
| Schemas.HoursField | netlify/mcp-server/types.ts:64 | definition of the required, nullable `tasks_hours` array; stated by `HoursRule` |
| Schemas.QuoteRequestSchema | netlify/mcp-server/types.ts:55-66 | definition of the object schema; stated by `QuoteRequestReportsEveryField` and `QuoteRequestDefaults` |
| Schemas.QuoteToolArguments | netlify/mcp-server/index.ts:51-53 | definition of the tool's input schema `{ parameters: TradesQuoteRequestSchema }`; its use is stated by `Tools.QuoteCall` |
| JsNumber.Trim | netlify/mcp-server/types.ts:4 | definition of the white-space trim `Number()` applies first; stated by `TrimSurrounding` |
| JsNumber.StringToNumber | netlify/mcp-server/types.ts:4 | definition of `Number()` over integers, `None` for NaN; stated by `NumberOfString`, `NumberIgnoresSpaces` and `SpacesAreZero` |
| Calendar.MakeDay | netlify/mcp-server/types.ts:38 | definition of MakeDay's day count for any day of a month; stated by `RolloverIsMakeDay` and `JsDate` |
| Calendar.Rollover | netlify/mcp-server/types.ts:38 | definition of the carry of a day outside its month into the neighbouring months; stated by `RolloverDayNumber` and `RolloverIsMakeDay` |
| Calendar.DayNumber | netlify/mcp-server/types.ts:38 | definition of the day count of a valid date; stated by `DayNumberInYear` and `DayNumberInjective` |
| Calendar.YearText | netlify/mcp-server/types.ts:51 | definition of the year field of `toISOString`: four digits for 0..9999, otherwise a sign and six digits; stated by `IsoDateRoundTrip` and `DateExamples.IsoMarch8Year10000` |
| Calendar.IsoDatePart | netlify/mcp-server/types.ts:51 | definition of the date part of the ISO string; stated by `IsoDateRoundTrip` and `IsoDatePartNoT` |
| Calendar.ToIsoString | netlify/mcp-server/types.ts:51 | definition of `toISOString()` of a date at midnight UTC; stated by `IsoSplitAtT` |
| Tools.SummaryText | netlify/mcp-server/index.ts:33-35 | definition of the summary text; stated by `SummaryTextLines` and `SummaryTextEmpty` |
| Tools.NumberText | netlify/mcp-server/index.ts:60-61 | definition of `String()` of a normalised number; stated by `NumberTextRoundTrip` |
| Tools.QuoteQuery | netlify/mcp-server/index.ts:59-65 | definition of the six query pairs; stated by `QuoteQueryKeys`, `QuoteQueryScalars`, `QuoteQueryTaskIds` and `QuoteQueryHours` |
| OrdinalRegex.IsMatch | netlify/mcp-server/types.ts:24 | definition of a match of the case-insensitive ordinal pattern: one or two digits, a suffix st, nd, rd or th in either case, white space, a run of word characters, white space and four digits; the scanner is tied to it by `FindOrdinalSpec`, `FindOrdinal` and `MatchUnique` |
| Calendar.IsLeapYear | netlify/mcp-server/types.ts:38 | definition of the Gregorian leap year the `Date` constructor's day count uses; stated by `DaysInYearCount`, `DaysBeforeNextYear` and `DaysInMonth` |
| Calendar.ParseIsoDate | netlify/mcp-server/types.ts:51 | definition of reading a `YYYY-MM-DD` string back into a date; it inverts the date part by `IsoDateRoundTrip` |
| Schemas.UnableToParse | netlify/mcp-server/types.ts:46 | definition of the message `Unable to parse date: "<input>"`; stated by `DateFailure` and `DateExamples.NotADate` |
| Schemas.TaskTypeId | netlify/mcp-server/types.ts:60-62 | definition of the three identifiers `gardener-tasktype`, `plumber-tasktype` and `handyman-tasktype`; stated by `TaskTypeSchema`, `TaskTypeIdInjective` and `TaskTypeIdNoComma` |
| Tools.SummaryBlock | netlify/mcp-server/index.ts:34 | definition of one sub-item's block, its name line and identifier line; stated by `BlockLines` and `SummaryBlocks` |
| Tools.GuideText | netlify/mcp-server/index.ts:97-101 | definition of the guide text, the concatenation of its five literals; stated by `GuideNamesEveryTaskType` and the `GuideNames…` rows |
| Calendar.MonthNames | netlify/mcp-server/types.ts:29-32 | definition of `monthNames`, the twelve lower-case English month names in calendar order; stated by `MonthIndex`, `MonthIndexMa`, `MonthIndexJu` and `MonthIndexNone` |
| Text.DigitsValue | netlify/mcp-server/types.ts:38 | definition of `parseInt` of the year and day groups, decimal with leading zeros allowed; stated by `DigitsValue2` and `DigitsValue4`; `OrdinalFallbackDate` applies it to the day and year groups |
| Schemas.DateParser | netlify/mcp-server/types.ts:19 | the engine-defined `new Date(dateStr)`, a parameter of every date lemma: `None` is an invalid date, otherwise the UTC calendar day |
| Schemas.ParsesIsoDates | netlify/mcp-server/types.ts:19 | the one assumption made of `new Date(dateStr)`: it reads every `YYYY-MM-DD` of the years 0..9999 as that date; used only by `DateIdempotent` |
| OrdinalRegex.IsOrdinalSuffix | netlify/mcp-server/types.ts:24 | definition of the suffix group, st, nd, rd or th under the `i` flag, its ASCII letters in either case; part of `IsMatch`, and its case-insensitivity is stated by `IsMatchIgnoresCase` |
| Text.IsDigit | netlify/mcp-server/types.ts:24 | definition of the class `\d`, the ASCII digits only; the day and year groups `DayDigits` and `YearDigits` return are all `\d` |
| Text.IsWordChar | netlify/mcp-server/types.ts:24 | definition of the class `\w` without the `u` flag: ASCII letters, digits and `_`; used by `SpanWord` and `MonthWord` |
| Text.IsJsSpace | netlify/mcp-server/types.ts:24 | definition of the class `\s`, which is also the white space `Number()` trims; used by `SpanSpaces` and `NumberIgnoresSpaces` |
| Text.ToLowerAscii | netlify/mcp-server/types.ts:34 | definition of lower-casing one character, ASCII letters only; used by `IsOrdinalSuffix` and `IsMatchIgnoresCase` |
| Text.LowerAscii | netlify/mcp-server/types.ts:34 | definition of `month.toLowerCase()` on the word group, which has only ASCII word characters; stated by `IsMatchIgnoresCase` and `FindOrdinalIgnoresCase`; `OrdinalFallbackDate` applies it before the month lookup |
| Schemas.TypeOf | netlify/mcp-server/types.ts:3 | definition of the received type zod reports in an invalid_type issue, `undefined` for an absent field; used by `NumberSchema`, and `HoursRule` states the absent case |
| Schemas.TypeError | netlify/mcp-server/types.ts:3 | definition of zod's single invalid_type issue, with the expected and the received type, at the value's own path; stated by `NumberSchema` and `DateSchema` |
| Tools.ApiBase | netlify/mcp-server/index.ts:8 | the base URL of the upstream API |
| Tools.SummaryUrl | netlify/mcp-server/index.ts:26 | the summary endpoint; stated by `SummaryTool` |
| Tools.QuoteUrl | netlify/mcp-server/index.ts:69 | the quote endpoint, to which the query is added; stated by `QuoteTool` |
| Tools.GuideUri | netlify/mcp-server/index.ts:90-96 | the resource's uri, the same where it is registered and in its content; stated by `ReadGuide` |
| Calendar.EpochDay | netlify/mcp-server/types.ts:38 | the day number of the ECMAScript epoch; stated by `EpochDayIsNewYear1970` |
| Calendar.MaxEpochDays | netlify/mcp-server/types.ts:38 | TimeClip's bound of 8.64e15 ms either side of the epoch, as 100,000,000 days; used by `JsDate` and `MakeDayWithin` |
| Text.NatToDigits | netlify/mcp-server/index.ts:60-61 | definition of `String(n)` for a non-negative integer, the shortest decimal spelling; its value reads back as n, and `NumberOfString` uses it |
| Text.ZeroPad | netlify/mcp-server/types.ts:51 | definition of the zero-filled fields of `toISOString`, padded on the left to a width; used by `YearText` and `IsoDateRoundTrip` |
| Text.Split | netlify/mcp-server/index.ts:63-64 | `split` at a character gives at least one piece; it undoes `join` by `SplitJoin` |

## Left out

- `netlify/functions/serverless-mcp-server.ts` is not part of this model. It is HTTP transport plumbing.
- The MCP SDK is not modelled: server construction, tool and resource registration, request dispatch and unknown-tool handling. `Tools.QuoteCall` assumes that the SDK validates the arguments against the input schema before the handler runs. `Schemas.QuoteRequestReportsEveryField` assumes the issues come in the order of zod's synchronous parse.
- `fetch`, `response.json()`, `JSON.stringify(text, null, 2)` and `console.log` are I/O or foreign code. The upstream responses are inputs, and the quote body is the text the handler returns.
- A malformed upstream body is not modelled, for example a summary without `sub_items`.
- The internals of the direct `new Date(string)` parse are engine-defined. The parse is the parameter `parse`, which gives the UTC calendar day of the date.
- Time zones: `new Date(year, monthIndex, day)` builds local midnight while `toISOString` prints UTC. The model reads the fallback date in UTC. East of UTC the printed day can be the day before.
- `Number()` is modelled over optionally signed decimal integers with surrounding white space. Decimals, exponents, non-decimal literals (0x, 0o, 0b), `Infinity` and the loss of precision of doubles are out; the model reads such strings as NaN, so for example `"0b11"` (3 in JavaScript) becomes the blank sentinel.
- `String(n)` is the plain decimal spelling. The exponent form JavaScript uses from 1e21 up is not modelled.
- The query is an ordered list of key/value pairs. The byte-level `application/x-www-form-urlencoded` serialisation and percent-encoding of `URLSearchParams` (WHATWG URL Standard, section 5.2) are not modelled.
- zod's default issue messages, the inner errors of a failed union, and the exact `received` type names beyond `JsType` are not modelled. Only the kind, the path and the custom date message are.
- The registration option `mimeType: "text/plain"` (index.ts:91) is not modelled, because the read handler's content entry does not carry it.
- Tools.SummaryTextLines: stated only when no name or identifier holds a line break, because a line break inside a field makes the lines ambiguous.
- Tools.BlockLines: stated only when neither the name nor the identifier holds a line break, for the same reason.
- Tools.QuoteQueryHours: stated only for at least one hour and hours without commas, because a comma inside an hour cannot be told apart from the separator.
- Schemas.DateIdempotent: stated only under the assumption `ParsesIsoDates` on the direct parse, and only for years 0..9999, because the parse is engine-defined.
