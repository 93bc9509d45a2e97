/** The request validation of `netlify/mcp-server/types.ts`: the three zod schemas
    `TransformNumberSchema`, `MultiFormatDateSchema` and `TradesQuoteRequestSchema`, each a
    function from an untyped JSON value to either the normalised value or the list of issues. */
module Schemas {
  import opened Basics
  import opened Text
  import opened JsNumber
  import opened Calendar
  import opened OrdinalRegex

  /** An untyped request value as it arrives in JSON. */
  datatype Json =
    | JNull
    | JBool(b: bool)
    | JNumber(n: int)
    | JString(s: string)
    | JArray(items: seq<Json>)
    | JObject(fields: map<string, Json>)

  /** The type names zod reports; `TUndefined` is an absent key. */
  datatype JsType = TUndefined | TNull | TBoolean | TNumber | TString | TArray | TObject

  function TypeOf(v: Option<Json>): JsType {
    match v
    case None => TUndefined
    case Some(JNull) => TNull
    case Some(JBool(_)) => TBoolean
    case Some(JNumber(_)) => TNumber
    case Some(JString(_)) => TString
    case Some(JArray(_)) => TArray
    case Some(JObject(_)) => TObject
  }

  datatype PathSegment = Key(name: string) | Index(i: nat)

  /** zod's issue codes as far as these schemas raise them: `invalid_type` (an absent required
      key is the one zod words "Required"), `invalid_union` and `custom` with its message. */
  datatype IssueKind = InvalidType(expected: JsType, received: JsType) | InvalidUnion | Custom(message: string)

  datatype Issue = Issue(path: seq<PathSegment>, kind: IssueKind)

  /** What `safeParse` tells: the normalised value, or every issue found. */
  datatype Outcome<+T> = Ok(value: T) | Fail(issues: seq<Issue>)

  function IssuesOf<T>(o: Outcome<T>): seq<Issue> {
    if o.Fail? then o.issues else []
  }

  /** The outcome of a part, seen from the value that contains it under `seg`. */
  function Nest<T>(seg: PathSegment, o: Outcome<T>): (r: Outcome<T>)
    ensures r.Ok? == o.Ok? && (o.Ok? ==> r == o)
    ensures |IssuesOf(r)| == |IssuesOf(o)|
    ensures forall i :: 0 <= i < |IssuesOf(o)| ==>
      IssuesOf(r)[i] == Issue([seg] + IssuesOf(o)[i].path, IssuesOf(o)[i].kind)
  {
    match o
    case Ok(_) => o
    case Fail(issues) =>
      Fail(seq(|issues|, i requires 0 <= i < |issues| => Issue([seg] + issues[i].path, issues[i].kind)))
  }

  function TypeError<T>(expected: JsType, v: Option<Json>): Outcome<T> {
    Fail([Issue([], InvalidType(expected, TypeOf(v)))])
  }

  function Field(fields: map<string, Json>, key: string): Option<Json> {
    if key in fields then Some(fields[key]) else None
  }

  // ---------------------------------------------------------------- TransformNumberSchema

  /** The value of `TransformNumberSchema`: the number, or the blank sentinel "". */
  datatype NumberValue = Blank | Num(n: int)

  /** The transform of `TransformNumberSchema`: "" and NaN become the blank sentinel. */
  function TransformNumber(val: string): NumberValue {
    var num := StringToNumber(val);
    if num.None? || val == "" then Blank else Num(num.value)
  }

  /** `TransformNumberSchema`: only a string is accepted; it is never rejected once it is one. */
  function NumberSchema(v: Json): (o: Outcome<NumberValue>)
    ensures o.Ok? <==> v.JString?
    ensures o.Ok? ==> o.value == TransformNumber(v.s)
    ensures o.Fail? ==> o.issues == [Issue([], InvalidType(TString, TypeOf(Some(v))))]
  {
    if v.JString? then Ok(TransformNumber(v.s)) else TypeError(TString, Some(v))
  }

  /** `TransformNumberSchema.nullable().optional().transform((val) => val ?? "")`. */
  function OptionalNumberField(v: Option<Json>): Outcome<NumberValue> {
    if v.None? || v.value.JNull? then Ok(Blank) else NumberSchema(v.value)
  }

  /** The blank sentinel is exactly the empty string and the strings `Number` reads as NaN. */
  lemma TransformNumberBlank(val: string)
    ensures TransformNumber(val) == Blank <==> val == "" || StringToNumber(val).None?
    ensures TransformNumber(val).Num? ==> StringToNumber(val) == Some(TransformNumber(val).n)
  {
  }

  /** A printed integer is read back as itself. */
  lemma TransformNumberOfString(n: int)
    ensures TransformNumber(IntToString(n)) == Num(n)
  {
    NumberOfString(n);
  }

  /** "3" is 3 and "-12" is -12. */
  lemma TransformNumberDigits()
    ensures TransformNumber("3") == Num(3)
    ensures TransformNumber("-12") == Num(-12)
  {
    assert IntToString(3) == "3";
    TransformNumberOfString(3);
    assert NatToDigits(12) == NatToDigits(1) + [DigitChar(2)] == "12";
    assert IntToString(-12) == "-12";
    TransformNumberOfString(-12);
  }

  /** White space around a value is ignored: " 3 " is read as "3" is. */
  lemma TransformNumberIgnoresSpaces(pre: string, t: string, post: string)
    requires AllSpace(pre) && AllSpace(post)
    requires t != "" && !IsJsSpace(t[0]) && !IsJsSpace(t[|t| - 1])
    ensures TransformNumber(pre + t + post) == TransformNumber(t)
  {
    NumberIgnoresSpaces(pre, t, post);
  }

  /** "abc" (NaN) and "" are blank, but white space alone is 0, as `Number(" ")` is. */
  lemma TransformNumberBlanks()
    ensures TransformNumber("abc") == Blank
    ensures TransformNumber("") == Blank
    ensures TransformNumber(" ") == Num(0)
  {
    NotANumberIsBlank();
    EmptyIsBlank();
    SpaceIsZero();
  }

  lemma EmptyIsBlank()
    ensures TransformNumber("") == Blank
  {
    SpacesAreZero("");
  }

  lemma SpaceIsZero()
    ensures TransformNumber(" ") == Num(0)
  {
    assert IsJsSpace(" "[0]);
    SpacesAreNumberZero(" ");
  }

  lemma NotANumberIsBlank()
    ensures TransformNumber("abc") == Blank
  {
    TrimUntouched("abc");
    assert !IsDigit("abc"[0]);
  }

  /** A non-empty string of white space only is the number 0. */
  lemma SpacesAreNumberZero(s: string)
    requires s != "" && AllSpace(s)
    ensures TransformNumber(s) == Num(0)
  {
    SpacesAreZero(s);
  }

  // ---------------------------------------------------------------- MultiFormatDateSchema

  /** `new Date(dateStr)` on a string: engine-defined, hence a parameter. `None` is an invalid
      date; otherwise the UTC calendar day of the date. */
  type DateParser = string -> Option<ValidDate>

  function UnableToParse(s: string): string {
    "Unable to parse date: \"" + s + "\""
  }

  /** The ordinal fallback: the leftmost match of the ordinal pattern, its word lower-cased and
      looked up among the month names, and `new Date(parseInt(year), monthIndex, parseInt(day))`.
      `None` when there is no match, no month or an out-of-range time value. */
  function OrdinalFallback(s: string): Option<ValidDate> {
    match FindOrdinal(s)
    case None => None
    case Some(m) =>
      var k := MonthIndex(LowerAscii(MonthWord(s, m)));
      if k.None? then None
      else JsDate(DigitsValue(YearDigits(s, m)), k.value, DigitsValue(DayDigits(s, m)))
  }

  /** The date held by `let date` when the transform checks it: the direct parse, or the
      fallback when the direct parse gives an invalid date. */
  function ResolveDate(s: string, parse: DateParser): Option<ValidDate> {
    if parse(s).Some? then parse(s) else OrdinalFallback(s)
  }

  /** The transform of `MultiFormatDateSchema` on a string. */
  function DateTransform(s: string, parse: DateParser): Outcome<string> {
    if s == "" then Ok("")
    else
      match ResolveDate(s, parse)
      case None => Fail([Issue([], Custom(UnableToParse(s)))])
      case Some(d) => Ok(Split(ToIsoString(d), 'T')[0])
  }

  /** `MultiFormatDateSchema`: `z.string().nullable()` followed by the transform. */
  function DateSchema(v: Json, parse: DateParser): (o: Outcome<string>)
    ensures v == JNull || v == JString("") ==> o == Ok("")
    ensures !v.JNull? && !v.JString? ==> o == TypeError(TString, Some(v))
  {
    match v
    case JNull => Ok("")
    case JString(s) => DateTransform(s, parse)
    case _ => TypeError(TString, Some(v))
  }

  /** `MultiFormatDateSchema.nullable().optional().transform((val) => val ?? "")`. */
  function OptionalDateField(v: Option<Json>, parse: DateParser): (o: Outcome<string>)
    ensures v.None? || v == Some(JNull) || v == Some(JString("")) ==> o == Ok("")
  {
    if v.None? || v.value.JNull? then Ok("") else DateSchema(v.value, parse)
  }

  /** A date the direct parse accepts is printed as its `YYYY-MM-DD`; the fallback is not tried. */
  lemma DirectParseFirst(s: string, parse: DateParser)
    requires s != "" && parse(s).Some?
    ensures DateTransform(s, parse) == Ok(IsoDatePart(parse(s).value))
  {
    IsoSplitAtT(parse(s).value);
  }

  /** When the direct parse fails, the leftmost ordinal match decides: its month word must start
      a month name (the first in calendar order that it starts), and the result is the date
      whose day number MakeDay computes from the year, that month and the day, as it stands. */
  lemma OrdinalFallbackDate(s: string, parse: DateParser, m: OrdinalMatch)
    requires s != "" && parse(s).None? && FindOrdinal(s) == Some(m)
    ensures MonthIndex(LowerAscii(MonthWord(s, m))).None? ==>
      DateTransform(s, parse) == Fail([Issue([], Custom(UnableToParse(s)))])
    ensures MonthIndex(LowerAscii(MonthWord(s, m))).Some? ==>
      && OrdinalFallback(s).Some?
      && DayNumber(OrdinalFallback(s).value) ==
         MakeDay(ConstructorYear(DigitsValue(YearDigits(s, m))),
                 MonthIndex(LowerAscii(MonthWord(s, m))).value + 1, DigitsValue(DayDigits(s, m)))
      && DateTransform(s, parse) == Ok(IsoDatePart(OrdinalFallback(s).value))
  {
    var k := MonthIndex(LowerAscii(MonthWord(s, m)));
    if k.Some? {
      var year, day := DigitsValue(YearDigits(s, m)), DigitsValue(DayDigits(s, m));
      DigitsValueBound(YearDigits(s, m));
      DigitsValueBound(DayDigits(s, m));
      assert Pow10(4) == 10000 && Pow10(2) == 100 && Pow10(1) == 10;
      FallbackInRange(year, k.value, day);
      assert OrdinalFallback(s) == JsDate(year, k.value, day);
      IsoSplitAtT(OrdinalFallback(s).value);
    }
  }

  /** The fallback never produces a time value TimeClip rejects, and its year stays in
      99..10000 (day 0 of January 100 is 31 December 99; day 99 of December 9999 is in 10000). */
  lemma FallbackInRange(year: nat, monthIndex: nat, day: nat)
    requires year <= 9999 && monthIndex < 12 && day <= 99
    ensures JsDate(year, monthIndex, day).Some?
    ensures 99 <= JsDate(year, monthIndex, day).value.year <= 10000
    ensures DayNumber(JsDate(year, monthIndex, day).value) == MakeDay(ConstructorYear(year), monthIndex + 1, day)
  {
    assert monthIndex / 12 == 0 && monthIndex % 12 == monthIndex;
    MakeDayWithin(ConstructorYear(year), monthIndex + 1, day);
    YearOfDayNumber(JsDate(year, monthIndex, day).value, 99, 10000);
  }

  /** The one failure of the date transform: neither the direct parse nor the fallback gives a
      date, and then there is exactly one issue, naming the input. */
  lemma DateFailure(s: string, parse: DateParser)
    requires s != ""
    ensures DateTransform(s, parse).Fail? <==> parse(s).None? && OrdinalFallback(s).None?
    ensures DateTransform(s, parse).Fail? ==>
      DateTransform(s, parse).issues == [Issue([], Custom(UnableToParse(s)))]
    ensures parse(s).None? && FindOrdinal(s).None? ==>
      DateTransform(s, parse) == Fail([Issue([], Custom(UnableToParse(s)))])
  {
  }

  /** On success the value is the `YYYY-MM-DD` of a valid calendar date (month 01..12, a day
      within that month) whenever the year is 0..9999; reading it back gives that date. */
  lemma DateSuccessIsIso(s: string, parse: DateParser)
    requires s != "" && DateTransform(s, parse).Ok?
    ensures ResolveDate(s, parse).Some?
    ensures DateTransform(s, parse).value == IsoDatePart(ResolveDate(s, parse).value)
    ensures 0 <= ResolveDate(s, parse).value.year <= 9999 ==>
      IsIsoDateShape(DateTransform(s, parse).value) &&
      ParseIsoDate(DateTransform(s, parse).value) == ResolveDate(s, parse)
  {
    var d := ResolveDate(s, parse).value;
    IsoSplitAtT(d);
    if 0 <= d.year <= 9999 {
      IsoDateRoundTrip(d);
    }
  }

  /** The direct parse reads every `YYYY-MM-DD` string as its date (engines do, for ISO dates). */
  ghost predicate ParsesIsoDates(parse: DateParser) {
    forall d: ValidDate :: 0 <= d.year <= 9999 ==> parse(IsoDatePart(d)) == Some(d)
  }

  /** Normalising a normalised date changes nothing, given a direct parse that reads ISO dates. */
  lemma DateIdempotent(s: string, parse: DateParser)
    requires ParsesIsoDates(parse)
    requires DateTransform(s, parse).Ok?
    requires s == "" || 0 <= ResolveDate(s, parse).value.year <= 9999
    ensures DateTransform(DateTransform(s, parse).value, parse) == DateTransform(s, parse)
  {
    if s != "" {
      DateSuccessIsIso(s, parse);
      var d := ResolveDate(s, parse).value;
      var r := IsoDatePart(d);
      assert parse(r) == Some(d);
      assert r != "" by { IsoDateRoundTrip(d); }
      DirectParseFirst(r, parse);
    }
  }

  // ---------------------------------------------------------------- TradesQuoteRequestSchema

  datatype TaskType = Gardener | Plumber | Handyman

  function TaskTypeId(t: TaskType): string {
    match t
    case Gardener => "gardener-tasktype"
    case Plumber => "plumber-tasktype"
    case Handyman => "handyman-tasktype"
  }

  /** The union of the three literals: exact, case-sensitive equality and no coercion. */
  function TaskTypeSchema(v: Json): (o: Outcome<TaskType>)
    ensures forall t :: v == JString(TaskTypeId(t)) ==> o == Ok(t)
    ensures o.Ok? ==> v == JString(TaskTypeId(o.value))
    ensures o.Fail? ==> o.issues == [Issue([], InvalidUnion)]
  {
    if v == JString("gardener-tasktype") then Ok(Gardener)
    else if v == JString("plumber-tasktype") then Ok(Plumber)
    else if v == JString("handyman-tasktype") then Ok(Handyman)
    else Fail([Issue([], InvalidUnion)])
  }

  /** No identifier holds a comma, so a comma-joined list of identifiers splits back. */
  lemma TaskTypeIdNoComma(t: TaskType)
    ensures ',' !in TaskTypeId(t)
  {
  }

  /** Distinct task types have distinct identifiers, so the identifiers in the query determine
      the task types of the request. */
  lemma TaskTypeIdInjective(a: TaskType, b: TaskType)
    requires TaskTypeId(a) == TaskTypeId(b)
    ensures a == b
  {
  }

  /** `z.string().nullable()`. */
  function NullableString(v: Json): (o: Outcome<Option<string>>)
    ensures o.Ok? <==> v.JNull? || v.JString?
    ensures o.Ok? ==> o.value == if v.JNull? then None else Some(v.s)
  {
    match v
    case JNull => Ok(None)
    case JString(s) => Ok(Some(s))
    case _ => TypeError(TString, Some(v))
  }

  /** `z.array(element)` on the items of an array: every item is checked and every issue kept,
      under the item's index, in index order. */
  function ArrayOf<T>(items: seq<Json>, element: Json -> Outcome<T>): (o: Outcome<seq<T>>)
    ensures o.Ok? <==> forall i :: 0 <= i < |items| ==> element(items[i]).Ok?
    ensures o.Ok? ==>
      (|o.value| == |items| && forall i :: 0 <= i < |items| ==> o.value[i] == element(items[i]).value)
    ensures forall i, j :: 0 <= i < |items| && 0 <= j < |IssuesOf(element(items[i]))| ==>
      Issue([Index(i)] + IssuesOf(element(items[i]))[j].path, IssuesOf(element(items[i]))[j].kind) in IssuesOf(o)
    decreases |items|
  {
    if |items| == 0 then Ok([])
    else
      var n := |items| - 1;
      var init := ArrayOf(items[..n], element);
      var last := Nest(Index(n), element(items[n]));
      if init.Ok? && last.Ok? then Ok(init.value + [last.value])
      else Fail(IssuesOf(init) + IssuesOf(last))
  }

  /** The converse of `ArrayOf`'s inclusion: every issue of the array is an issue of one of its
      elements, under that element's index, so nothing else is reported. */
  /** `iss` is an issue of one of the elements, put under that element's index. */
  ghost predicate IssueOfElement<T>(items: seq<Json>, element: Json -> Outcome<T>, iss: Issue) {
    exists i, j :: 0 <= i < |items| && 0 <= j < |IssuesOf(element(items[i]))| &&
      iss == Issue([Index(i)] + IssuesOf(element(items[i]))[j].path, IssuesOf(element(items[i]))[j].kind)
  }

  lemma {:induction false} ArrayOfIssuesFromElements<T>(items: seq<Json>, element: Json -> Outcome<T>, k: nat)
    requires k < |IssuesOf(ArrayOf(items, element))|
    ensures IssueOfElement(items, element, IssuesOf(ArrayOf(items, element))[k])
    decreases |items|
  {
    var n := |items| - 1;
    var init := ArrayOf(items[..n], element);
    var last := Nest(Index(n), element(items[n]));
    assert IssuesOf(ArrayOf(items, element)) == IssuesOf(init) + IssuesOf(last);
    if k < |IssuesOf(init)| {
      ArrayOfIssuesFromElements(items[..n], element, k);
      var i, j :| 0 <= i < n && 0 <= j < |IssuesOf(element(items[..n][i]))| &&
        IssuesOf(init)[k] == Issue([Index(i)] + IssuesOf(element(items[..n][i]))[j].path, IssuesOf(element(items[..n][i]))[j].kind);
      assert items[..n][i] == items[i];
    } else {
      var j := k - |IssuesOf(init)|;
      assert IssuesOf(ArrayOf(items, element))[k] == IssuesOf(last)[j];
      assert IssuesOf(last)[j] == Issue([Index(n)] + IssuesOf(element(items[n]))[j].path, IssuesOf(element(items[n]))[j].kind);
    }
  }

  /** One more element appends its issues, under its index, after those of the elements before
      it: the issues come in index order. */
  lemma ArrayOfAppend<T>(items: seq<Json>, x: Json, element: Json -> Outcome<T>)
    ensures IssuesOf(ArrayOf(items + [x], element)) ==
      IssuesOf(ArrayOf(items, element)) + IssuesOf(Nest(Index(|items|), element(x)))
  {
    var all, n := items + [x], |items|;
    assert all[..n] == items && all[n] == x && |all| - 1 == n;
    var init, last := ArrayOf(items, element), Nest(Index(n), element(x));
    assert ArrayOf(all, element) ==
      if init.Ok? && last.Ok? then Ok(init.value + [last.value])
      else Fail(IssuesOf(init) + IssuesOf(last));
  }

  /** `tasks_string_ids`: a required array of task type literals. */
  function TaskIdsField(v: Option<Json>): Outcome<seq<TaskType>> {
    if v.Some? && v.value.JArray? then ArrayOf(v.value.items, TaskTypeSchema)
    else TypeError(TArray, v)
  }

  /** `tasks_hours`: a required, nullable array of nullable strings. */
  function HoursField(v: Option<Json>): Outcome<Option<seq<Option<string>>>> {
    if v == Some(JNull) then Ok(None)
    else if v.Some? && v.value.JArray? then
      var o := ArrayOf(v.value.items, NullableString);
      if o.Ok? then Ok(Some(o.value)) else Fail(o.issues)
    else TypeError(TArray, v)
  }

  /** The normalised quote request. */
  datatype QuoteRequest = QuoteRequest(
    numBedrooms: NumberValue,
    frequency: NumberValue,
    jobDate: string,
    tasksStringIds: seq<TaskType>,
    tasksHours: Option<seq<Option<string>>>)

  /** The outcome of each field, under its key, in the order of the object's shape. */
  function NumBedroomsOutcome(fields: map<string, Json>): Outcome<NumberValue> {
    Nest(Key("num_bedrooms"), OptionalNumberField(Field(fields, "num_bedrooms")))
  }

  function FrequencyOutcome(fields: map<string, Json>): Outcome<NumberValue> {
    Nest(Key("frequency"), OptionalNumberField(Field(fields, "frequency")))
  }

  function JobDateOutcome(fields: map<string, Json>, parse: DateParser): Outcome<string> {
    Nest(Key("job_date"), OptionalDateField(Field(fields, "job_date"), parse))
  }

  function TaskIdsOutcome(fields: map<string, Json>): Outcome<seq<TaskType>> {
    Nest(Key("tasks_string_ids"), TaskIdsField(Field(fields, "tasks_string_ids")))
  }

  function HoursOutcome(fields: map<string, Json>): Outcome<Option<seq<Option<string>>>> {
    Nest(Key("tasks_hours"), HoursField(Field(fields, "tasks_hours")))
  }

  /** `TradesQuoteRequestSchema`: every field is checked, and the object fails with the issues of
      all failing fields, in field order; keys outside the shape are dropped. */
  function QuoteRequestSchema(v: Json, parse: DateParser): Outcome<QuoteRequest> {
    if !v.JObject? then TypeError(TObject, Some(v))
    else
      var nb := NumBedroomsOutcome(v.fields);
      var fr := FrequencyOutcome(v.fields);
      var jd := JobDateOutcome(v.fields, parse);
      var ids := TaskIdsOutcome(v.fields);
      var hrs := HoursOutcome(v.fields);
      if nb.Ok? && fr.Ok? && jd.Ok? && ids.Ok? && hrs.Ok? then
        Ok(QuoteRequest(nb.value, fr.value, jd.value, ids.value, hrs.value))
      else
        Fail(IssuesOf(nb) + IssuesOf(fr) + IssuesOf(jd) + IssuesOf(ids) + IssuesOf(hrs))
  }

  /** The tool's input schema `{ parameters: TradesQuoteRequestSchema }`. */
  function QuoteToolArguments(args: Json, parse: DateParser): Outcome<QuoteRequest> {
    if !args.JObject? then TypeError(TObject, Some(args))
    else
      var p := Field(args.fields, "parameters");
      if p.None? then Fail([Issue([Key("parameters")], InvalidType(TObject, TUndefined))])
      else Nest(Key("parameters"), QuoteRequestSchema(p.value, parse))
  }

  /** A failing field never hides another: the object succeeds exactly when every field does,
      each failing field's issues are all reported, under the field's key, and the object's
      issues are exactly those of its fields, in the order of the shape. */
  lemma QuoteRequestReportsEveryField(v: Json, parse: DateParser)
    requires v.JObject?
    ensures QuoteRequestSchema(v, parse).Ok? <==>
      && OptionalNumberField(Field(v.fields, "num_bedrooms")).Ok?
      && OptionalNumberField(Field(v.fields, "frequency")).Ok?
      && OptionalDateField(Field(v.fields, "job_date"), parse).Ok?
      && TaskIdsField(Field(v.fields, "tasks_string_ids")).Ok?
      && HoursField(Field(v.fields, "tasks_hours")).Ok?
    ensures forall iss :: iss in IssuesOf(OptionalNumberField(Field(v.fields, "num_bedrooms"))) ==>
      Issue([Key("num_bedrooms")] + iss.path, iss.kind) in IssuesOf(QuoteRequestSchema(v, parse))
    ensures forall iss :: iss in IssuesOf(OptionalNumberField(Field(v.fields, "frequency"))) ==>
      Issue([Key("frequency")] + iss.path, iss.kind) in IssuesOf(QuoteRequestSchema(v, parse))
    ensures forall iss :: iss in IssuesOf(OptionalDateField(Field(v.fields, "job_date"), parse)) ==>
      Issue([Key("job_date")] + iss.path, iss.kind) in IssuesOf(QuoteRequestSchema(v, parse))
    ensures forall iss :: iss in IssuesOf(TaskIdsField(Field(v.fields, "tasks_string_ids"))) ==>
      Issue([Key("tasks_string_ids")] + iss.path, iss.kind) in IssuesOf(QuoteRequestSchema(v, parse))
    ensures forall iss :: iss in IssuesOf(HoursField(Field(v.fields, "tasks_hours"))) ==>
      Issue([Key("tasks_hours")] + iss.path, iss.kind) in IssuesOf(QuoteRequestSchema(v, parse))
    ensures IssuesOf(QuoteRequestSchema(v, parse)) ==
      IssuesOf(Nest(Key("num_bedrooms"), OptionalNumberField(Field(v.fields, "num_bedrooms")))) +
      IssuesOf(Nest(Key("frequency"), OptionalNumberField(Field(v.fields, "frequency")))) +
      IssuesOf(Nest(Key("job_date"), OptionalDateField(Field(v.fields, "job_date"), parse))) +
      IssuesOf(Nest(Key("tasks_string_ids"), TaskIdsField(Field(v.fields, "tasks_string_ids")))) +
      IssuesOf(Nest(Key("tasks_hours"), HoursField(Field(v.fields, "tasks_hours"))))
  {
    var o := QuoteRequestSchema(v, parse);
    var nb := NumBedroomsOutcome(v.fields);
    var fr := FrequencyOutcome(v.fields);
    var jd := JobDateOutcome(v.fields, parse);
    var ids := TaskIdsOutcome(v.fields);
    var hrs := HoursOutcome(v.fields);
    assert IssuesOf(o) == IssuesOf(nb) + IssuesOf(fr) + IssuesOf(jd) + IssuesOf(ids) + IssuesOf(hrs);
    NestedIssuesKept(Key("num_bedrooms"), OptionalNumberField(Field(v.fields, "num_bedrooms")));
    NestedIssuesKept(Key("frequency"), OptionalNumberField(Field(v.fields, "frequency")));
    NestedIssuesKept(Key("job_date"), OptionalDateField(Field(v.fields, "job_date"), parse));
    NestedIssuesKept(Key("tasks_string_ids"), TaskIdsField(Field(v.fields, "tasks_string_ids")));
    NestedIssuesKept(Key("tasks_hours"), HoursField(Field(v.fields, "tasks_hours")));
  }

  lemma NestedIssuesKept<T>(seg: PathSegment, o: Outcome<T>)
    ensures forall iss :: iss in IssuesOf(o) ==> Issue([seg] + iss.path, iss.kind) in IssuesOf(Nest(seg, o))
  {
    forall iss | iss in IssuesOf(o)
      ensures Issue([seg] + iss.path, iss.kind) in IssuesOf(Nest(seg, o))
    {
      var i :| 0 <= i < |IssuesOf(o)| && IssuesOf(o)[i] == iss;
      assert IssuesOf(Nest(seg, o))[i] == Issue([seg] + iss.path, iss.kind);
    }
  }

  /** An absent or null `num_bedrooms`, `frequency` or `job_date` becomes the blank sentinel. */
  lemma QuoteRequestDefaults(v: Json, parse: DateParser)
    requires v.JObject? && QuoteRequestSchema(v, parse).Ok?
    ensures Field(v.fields, "num_bedrooms") in {None, Some(JNull)} ==> QuoteRequestSchema(v, parse).value.numBedrooms == Blank
    ensures Field(v.fields, "frequency") in {None, Some(JNull)} ==> QuoteRequestSchema(v, parse).value.frequency == Blank
    ensures Field(v.fields, "job_date") in {None, Some(JNull)} ==> QuoteRequestSchema(v, parse).value.jobDate == ""
  {
  }

  /** `tasks_string_ids` accepts exactly the arrays of the three identifiers, keeps their order,
      and reports each other element under its index. */
  lemma TaskIdsRule(items: seq<Json>)
    ensures TaskIdsField(Some(JArray(items))).Ok? <==>
      forall i :: 0 <= i < |items| ==> exists t :: items[i] == JString(TaskTypeId(t))
    ensures TaskIdsField(Some(JArray(items))).Ok? ==>
      var ids := TaskIdsField(Some(JArray(items))).value;
      |ids| == |items| && forall i :: 0 <= i < |items| ==> JString(TaskTypeId(ids[i])) == items[i]
    ensures forall i :: 0 <= i < |items| && TaskTypeSchema(items[i]).Fail? ==>
      Issue([Index(i)], InvalidUnion) in IssuesOf(TaskIdsField(Some(JArray(items))))
  {
    var o := ArrayOf(items, TaskTypeSchema);
    if o.Ok? {
      forall i | 0 <= i < |items|
        ensures exists t :: items[i] == JString(TaskTypeId(t))
      {
        assert items[i] == JString(TaskTypeId(TaskTypeSchema(items[i]).value));
      }
    }
    forall i | 0 <= i < |items| && TaskTypeSchema(items[i]).Fail?
      ensures Issue([Index(i)], InvalidUnion) in IssuesOf(o)
    {
      assert IssuesOf(TaskTypeSchema(items[i]))[0] == Issue([], InvalidUnion);
      assert [Index(i)] + [] == [Index(i)];
    }
  }

  /** `tasks_hours` is null or an array of strings and nulls; null stays null, distinct from []. */
  lemma HoursRule(v: Option<Json>)
    ensures v == Some(JNull) ==> HoursField(v) == Ok(None)
    ensures v == Some(JArray([])) ==> HoursField(v) == Ok(Some([]))
    ensures v.Some? && v.value.JArray? ==>
      (HoursField(v).Ok? <==> forall i :: 0 <= i < |v.value.items| ==> v.value.items[i].JNull? || v.value.items[i].JString?)
    ensures v.None? ==> HoursField(v) == Fail([Issue([], InvalidType(TArray, TUndefined))])
  {
  }
}
