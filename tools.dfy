/** The deterministic part of the two tool handlers and the resource of
    `netlify/mcp-server/index.ts`: the upstream request each tool makes, the text it returns, the
    error it raises on a non-ok response, and the fixed text of the `using-get-trades-quote`
    resource. The upstream responses are inputs. */
module Tools {
  import opened Basics
  import opened Text
  import opened JsNumber
  import opened Schemas

  const ApiBase: string := "https://housekeep.com/api/v1"
  const SummaryUrl: string := ApiBase + "/work/tradespeople/v3/"
  const QuoteUrl: string := ApiBase + "/trades-quote/"

  /** A query string as the ordered list of its key/value pairs. */
  type Query = seq<(string, string)>

  /** A GET request to `url` with the query string `query`. */
  datatype UpstreamRequest = Get(url: string, query: Query)

  /** One element of `sub_items` in the summary response. */
  datatype SubItem = SubItem(name: string, stringIdentifier: string)

  datatype SummaryResponse = SummaryResponse(ok: bool, statusText: string, subItems: seq<SubItem>)

  /** The quote response; `body` is its JSON body as the handler prints it back. */
  datatype QuoteResponse = QuoteResponse(ok: bool, statusText: string, body: string)

  datatype Content = TextContent(text: string)

  /** What a call can end in other than content: an `Error` thrown on a non-ok response, the
      `TypeError` of `null.join`, or the SDK's rejection of arguments that fail the schema. */
  datatype ToolError = UpstreamError(message: string) | JoinOnNull | InvalidParams(issues: seq<Issue>)

  /** The upstream request a call made (if any) and what it returned. */
  datatype ToolRun = ToolRun(request: Option<UpstreamRequest>, result: Result<seq<Content>, ToolError>)

  // ---------------------------------------------------------------- get-trades-services-summary

  function SummaryBlock(item: SubItem): string {
    "Name: " + item.name + "\nString identifier: " + item.stringIdentifier
  }

  function SummaryBlocks(items: seq<SubItem>): (blocks: seq<string>)
    ensures |blocks| == |items| && forall i :: 0 <= i < |items| ==> blocks[i] == SummaryBlock(items[i])
  {
    seq(|items|, i requires 0 <= i < |items| => SummaryBlock(items[i]))
  }

  /** The text of the summary: one block per sub-item, in order, separated by `---` lines. */
  function SummaryText(items: seq<SubItem>): string {
    Join(SummaryBlocks(items), "\n---\n")
  }

  /** The summary tool once the response is in: a non-ok status is an error and no text. */
  function SummaryTool(response: SummaryResponse): (run: ToolRun)
    ensures run.request == Some(Get(SummaryUrl, []))
    ensures run.result.Failure? <==> !response.ok
    ensures !response.ok ==>
      run.result.error == UpstreamError("Failed to fetch trades services summary: " + response.statusText)
    ensures response.ok ==> run.result.value == [TextContent(SummaryText(response.subItems))]
  {
    var request := Get(SummaryUrl, []);
    if !response.ok then
      ToolRun(Some(request), Failure(UpstreamError("Failed to fetch trades services summary: " + response.statusText)))
    else
      ToolRun(Some(request), Success([TextContent(SummaryText(response.subItems))]))
  }

  /** The lines of the summary text, read independently: for each sub-item its name line and its
      identifier line, with a `---` line between consecutive sub-items; "" for no sub-items. */
  function SummaryLines(items: seq<SubItem>): (lines: seq<string>)
    ensures |items| >= 1 ==> |lines| == 3 * |items| - 1
    ensures |items| == 0 ==> lines == [""]
  {
    if |items| == 0 then [""]
    else
      seq(3 * |items| - 1, j requires 0 <= j < 3 * |items| - 1 => Line(items, j))
  }

  /** Line `j`: the name line, the identifier line or the separator of sub-item `j / 3`. */
  function Line(items: seq<SubItem>, j: nat): string
    requires j / 3 < |items|
  {
    if j % 3 == 0 then "Name: " + items[j / 3].name
    else if j % 3 == 1 then "String identifier: " + items[j / 3].stringIdentifier
    else "---"
  }

  predicate NoNewline(items: seq<SubItem>) {
    forall i :: 0 <= i < |items| ==> '\n' !in items[i].name && '\n' !in items[i].stringIdentifier
  }

  /** Split into lines, the summary text is exactly the lines above: n blocks in input order and
      n - 1 separators, as long as no name or identifier holds a line break. */
  lemma {:induction false} SummaryTextLines(items: seq<SubItem>)
    requires NoNewline(items)
    ensures Split(SummaryText(items), '\n') == SummaryLines(items)
    decreases |items|
  {
    if |items| == 1 {
      BlockLines(items[0]);
      assert SummaryLines(items) == ["Name: " + items[0].name, "String identifier: " + items[0].stringIdentifier];
    } else if |items| > 1 {
      SummaryTextLines(items[1..]);
      SummaryTextCons(items);
      SummaryLinesCons(items);
    }
  }

  lemma SummaryTextCons(items: seq<SubItem>)
    requires |items| >= 2 && NoNewline(items)
    ensures Split(SummaryText(items), '\n') ==
      ["Name: " + items[0].name, "String identifier: " + items[0].stringIdentifier, "---"] + Split(SummaryText(items[1..]), '\n')
  {
    var b, t := SummaryBlock(items[0]), SummaryText(items[1..]);
    SummaryTextShape(items);
    BlockLines(items[0]);
    SplitConcat(b, "---" + ['\n'] + t, '\n');
    SplitConcat("---", t, '\n');
    SplitWithout("---", '\n');
    TwoThenCons("Name: " + items[0].name, "String identifier: " + items[0].stringIdentifier, "---", Split(t, '\n'));
  }

  lemma TwoThenCons<T>(x: T, y: T, z: T, r: seq<T>)
    ensures [x, y] + ([z] + r) == [x, y, z] + r
  {
  }

  /** The text of two or more sub-items: the first block, a line break, a `---` line, a line
      break and the text of the others. */
  lemma SummaryTextShape(items: seq<SubItem>)
    requires |items| >= 2
    ensures SummaryText(items) == SummaryBlock(items[0]) + ['\n'] + ("---" + ['\n'] + SummaryText(items[1..]))
  {
    var b, t := SummaryBlock(items[0]), SummaryText(items[1..]);
    assert SummaryBlocks(items)[1..] == SummaryBlocks(items[1..]);
    assert SummaryText(items) == b + "\n---\n" + t;
    SeparatorShape(b, t);
  }

  lemma SeparatorShape(b: string, t: string)
    ensures b + "\n---\n" + t == b + ['\n'] + ("---" + ['\n'] + t)
  {
    assert "\n---\n" == ['\n'] + "---" + ['\n'];
  }

  lemma BlockLines(item: SubItem)
    requires '\n' !in item.name && '\n' !in item.stringIdentifier
    ensures Split(SummaryBlock(item), '\n') == ["Name: " + item.name, "String identifier: " + item.stringIdentifier]
  {
    var a, b := "Name: " + item.name, "String identifier: " + item.stringIdentifier;
    BlockShape(item);
    SplitConcat(a, b, '\n');
    SplitWithout(a, '\n');
    SplitWithout(b, '\n');
  }

  /** A block is its name line, a line break and its identifier line. */
  lemma BlockShape(item: SubItem)
    ensures SummaryBlock(item) == ("Name: " + item.name) + ['\n'] + ("String identifier: " + item.stringIdentifier)
  {
    var n, i := item.name, item.stringIdentifier;
    var l: string := "String identifier: ";
    assert "\nString identifier: " == ['\n'] + l by { IdentifierLabel(); }
    assert SummaryBlock(item) == ("Name: " + n) + (['\n'] + l) + i;
  }

  lemma IdentifierLabel()
    ensures "\nString identifier: " == ['\n'] + "String identifier: "
  {
  }

  lemma SummaryLinesCons(items: seq<SubItem>)
    requires |items| >= 2
    ensures SummaryLines(items) ==
      ["Name: " + items[0].name, "String identifier: " + items[0].stringIdentifier, "---"] + SummaryLines(items[1..])
  {
    LinesSplit(items);
    assert Line(items, 0) == "Name: " + items[0].name;
    assert Line(items, 1) == "String identifier: " + items[0].stringIdentifier;
    assert Line(items, 2) == "---";
  }

  lemma LinesSplit(items: seq<SubItem>)
    requires |items| >= 2
    ensures SummaryLines(items) == [Line(items, 0), Line(items, 1), Line(items, 2)] + SummaryLines(items[1..])
  {
    var l, r := SummaryLines(items), SummaryLines(items[1..]);
    var h := [Line(items, 0), Line(items, 1), Line(items, 2)];
    assert |l| == |h + r|;
    forall j | 0 <= j < |l|
      ensures l[j] == (h + r)[j]
    {
      assert l[j] == Line(items, j);
      if j >= 3 {
        LineShift(items, j);
        assert r[j - 3] == Line(items[1..], j - 3);
        assert (h + r)[j] == r[j - 3];
      } else {
        assert (h + r)[j] == h[j];
      }
    }
  }

  /** Past the first three lines, the lines are those of the remaining sub-items. */
  lemma LineShift(items: seq<SubItem>, j: nat)
    requires j >= 3 && j / 3 < |items|
    ensures Line(items, j) == Line(items[1..], j - 3)
  {
    assert (j - 3) % 3 == j % 3 && (j - 3) / 3 == j / 3 - 1;
    assert items[1..][j / 3 - 1] == items[j / 3];
  }

  /** An empty `sub_items` gives the empty text. */
  lemma SummaryTextEmpty()
    ensures SummaryText([]) == ""
  {
  }

  // ---------------------------------------------------------------- get-trades-quote

  /** `URLSearchParams` as the handler uses it: a list of pairs that `append` extends. */
  class QueryParams {
    var pairs: Query

    constructor ()
      ensures pairs == []
    {
      pairs := [];
    }

    method Append(key: string, value: string)
      modifies this
      ensures pairs == old(pairs) + [(key, value)]
    {
      pairs := pairs + [(key, value)];
    }
  }

  /** `String(v)` of a normalised number: the blank sentinel stays "". */
  function NumberText(v: NumberValue): string {
    if v.Blank? then "" else IntToString(v.n)
  }

  function TaskIdTexts(ids: seq<TaskType>): (texts: seq<string>)
    ensures |texts| == |ids| && forall i :: 0 <= i < |ids| ==> texts[i] == TaskTypeId(ids[i])
  {
    seq(|ids|, i requires 0 <= i < |ids| => TaskTypeId(ids[i]))
  }

  /** `join` prints a null element as the empty string. */
  function HourTexts(hours: seq<Option<string>>): (texts: seq<string>)
    ensures |texts| == |hours|
    ensures forall i :: 0 <= i < |hours| ==> texts[i] == if hours[i].None? then "" else hours[i].value
  {
    seq(|hours|, i requires 0 <= i < |hours| => if hours[i].None? then "" else hours[i].value)
  }

  /** The query of the quote request, for a request whose `tasks_hours` array is `hours`. */
  function QuoteQuery(p: QuoteRequest, hours: seq<Option<string>>): Query {
    [ ("num_bedrooms", NumberText(p.numBedrooms)),
      ("frequency", NumberText(p.frequency)),
      ("job_date", p.jobDate),
      ("tasks_string_ids", Join(TaskIdTexts(p.tasksStringIds), ",")),
      ("tasks_hours", Join(HourTexts(hours), ",")),
      ("tasks_quantities", "") ]
  }

  /** The six `append` calls, in order; `tasks_hours.join` throws on null before the fifth. */
  method BuildQuoteQuery(p: QuoteRequest) returns (r: Result<Query, ToolError>)
    ensures p.tasksHours.None? <==> r == Failure(JoinOnNull)
    ensures p.tasksHours.Some? ==> r == Success(QuoteQuery(p, p.tasksHours.value))
  {
    var params := new QueryParams();
    params.Append("num_bedrooms", NumberText(p.numBedrooms));
    params.Append("frequency", NumberText(p.frequency));
    params.Append("job_date", p.jobDate);
    params.Append("tasks_string_ids", Join(TaskIdTexts(p.tasksStringIds), ","));
    if p.tasksHours.None? {
      return Failure(JoinOnNull);
    }
    params.Append("tasks_hours", Join(HourTexts(p.tasksHours.value), ","));
    params.Append("tasks_quantities", "");
    assert params.pairs == QuoteQuery(p, p.tasksHours.value);
    r := Success(params.pairs);
  }

  /** The quote tool after validation: no request when the query cannot be built, otherwise one
      request to the quote endpoint; a non-ok status is an error and no content. */
  method QuoteTool(p: QuoteRequest, fetch: Query -> QuoteResponse) returns (run: ToolRun)
    ensures p.tasksHours.None? ==> run == ToolRun(None, Failure(JoinOnNull))
    ensures p.tasksHours.Some? ==>
      var q := QuoteQuery(p, p.tasksHours.value);
      && run.request == Some(Get(QuoteUrl, q))
      && (run.result.Failure? <==> !fetch(q).ok)
      && (!fetch(q).ok ==> run.result.error == UpstreamError("Failed to fetch trades quote: " + fetch(q).statusText))
      && (fetch(q).ok ==> run.result.value == [TextContent(fetch(q).body)])
  {
    var query := BuildQuoteQuery(p);
    if query.Failure? {
      return ToolRun(None, Failure(query.error));
    }
    var response := fetch(query.value);
    var request := Some(Get(QuoteUrl, query.value));
    if !response.ok {
      return ToolRun(request, Failure(UpstreamError("Failed to fetch trades quote: " + response.statusText)));
    }
    run := ToolRun(request, Success([TextContent(response.body)]));
  }

  /** A `get-trades-quote` call: arguments that fail the input schema never reach the handler. */
  method QuoteCall(args: Json, parse: DateParser, fetch: Query -> QuoteResponse) returns (run: ToolRun)
    ensures QuoteToolArguments(args, parse).Fail? ==>
      run == ToolRun(None, Failure(InvalidParams(QuoteToolArguments(args, parse).issues)))
    ensures QuoteToolArguments(args, parse).Ok? && QuoteToolArguments(args, parse).value.tasksHours.None? ==>
      run == ToolRun(None, Failure(JoinOnNull))
    ensures QuoteToolArguments(args, parse).Ok? && QuoteToolArguments(args, parse).value.tasksHours.Some? ==>
      var p := QuoteToolArguments(args, parse).value;
      var q := QuoteQuery(p, p.tasksHours.value);
      && run.request == Some(Get(QuoteUrl, q))
      && (run.result.Failure? <==> !fetch(q).ok)
      && (!fetch(q).ok ==> run.result.error == UpstreamError("Failed to fetch trades quote: " + fetch(q).statusText))
      && (fetch(q).ok ==> run.result.value == [TextContent(fetch(q).body)])
  {
    var parsed := QuoteToolArguments(args, parse);
    if parsed.Fail? {
      return ToolRun(None, Failure(InvalidParams(parsed.issues)));
    }
    run := QuoteTool(parsed.value, fetch);
  }

  /** The query has the six keys in this order whatever the request. */
  lemma QuoteQueryKeys(p: QuoteRequest, hours: seq<Option<string>>)
    ensures |QuoteQuery(p, hours)| == 6
    ensures forall i :: 0 <= i < 6 ==>
      (QuoteQuery(p, hours)[i].0 ==
       ["num_bedrooms", "frequency", "job_date", "tasks_string_ids", "tasks_hours", "tasks_quantities"][i])
  {
  }

  /** The numbers in the query are read back by the same transform, the job date is as it is
      and `tasks_quantities` is empty. */
  lemma QuoteQueryScalars(p: QuoteRequest, hours: seq<Option<string>>)
    ensures TransformNumber(QuoteQuery(p, hours)[0].1) == p.numBedrooms
    ensures TransformNumber(QuoteQuery(p, hours)[1].1) == p.frequency
    ensures QuoteQuery(p, hours)[2].1 == p.jobDate
    ensures QuoteQuery(p, hours)[5].1 == ""
  {
    var q := QuoteQuery(p, hours);
    assert q[0].1 == NumberText(p.numBedrooms) && q[1].1 == NumberText(p.frequency);
    NumberTextRoundTrip(p.numBedrooms);
    NumberTextRoundTrip(p.frequency);
  }

  /** Splitting `tasks_string_ids` at commas gives back the identifiers in request order. */
  lemma QuoteQueryTaskIds(p: QuoteRequest, hours: seq<Option<string>>)
    ensures |p.tasksStringIds| == 0 ==> QuoteQuery(p, hours)[3].1 == ""
    ensures |p.tasksStringIds| >= 1 ==> Split(QuoteQuery(p, hours)[3].1, ',') == TaskIdTexts(p.tasksStringIds)
  {
    var ids := TaskIdTexts(p.tasksStringIds);
    if |ids| >= 1 {
      forall i | 0 <= i < |ids|
        ensures ',' !in ids[i]
      {
        TaskTypeIdNoComma(p.tasksStringIds[i]);
      }
      SplitJoin(ids, ',');
    }
  }

  /** Splitting `tasks_hours` at commas gives back the hours, null as "", when none holds a comma. */
  lemma QuoteQueryHours(p: QuoteRequest, hours: seq<Option<string>>)
    requires |hours| >= 1
    requires forall i :: 0 <= i < |hours| && hours[i].Some? ==> ',' !in hours[i].value
    ensures Split(QuoteQuery(p, hours)[4].1, ',') == HourTexts(hours)
  {
    SplitJoin(HourTexts(hours), ',');
  }

  lemma NumberTextRoundTrip(v: NumberValue)
    ensures TransformNumber(NumberText(v)) == v
  {
    if v.Num? {
      TransformNumberOfString(v.n);
    }
  }

  // ---------------------------------------------------------------- using-get-trades-quote

  const GuideUri: string := "housekeep://using-get-trades-quote"

  /** The guide's sentences, joined without separators as the source concatenates them. */
  const GuideIntro: string := GuideIntroStart + "tasks_string_ids" + "` argument."
  const GuideIntroStart: string := "To use the get-trades-quote tool, you must pass a `"
  const GuideList: string := "This is a list of task type identifiers from Housekeep. "
  const GuideGardener: string := "For gardening jobs, the identifier is `gardener-tasktype`."
  const GuidePlumber: string := "For plumbing jobs, it is `plumber-tasktype`."
  const GuideHandyman: string := "For handyman jobs, it is `handyman-tasktype`. "
  function GuideText(): string {
    GuideIntro + GuideList + GuideGardener + GuidePlumber + GuideHandyman
  }

  datatype ResourceContent = ResourceContent(uri: string, text: string)

  /** A read of the resource. */
  function ReadGuide(): (contents: seq<ResourceContent>)
    ensures |contents| == 1 && contents[0].uri == GuideUri
  {
    [ResourceContent(GuideUri, GuideText())]
  }

  predicate MentionsAt(text: string, word: string, i: nat) {
    i + |word| <= |text| && text[i..i + |word|] == word
  }

  ghost predicate Mentions(text: string, word: string) {
    exists i: nat :: MentionsAt(text, word, i)
  }

  /** A word between two strings is mentioned where it starts. */
  lemma MentionsBetween(before: string, word: string, after: string)
    ensures MentionsAt(before + word + after, word, |before|)
  {
    var text := before + word + after;
    assert text[|before|..|before| + |word|] == word;
  }

  /** A mention stays a mention when text is added after it or before it. */
  lemma MentionsExtend(text: string, word: string, i: nat, more: string)
    requires MentionsAt(text, word, i)
    ensures MentionsAt(text + more, word, i)
    ensures MentionsAt(more + text, word, |more| + i)
  {
    assert (text + more)[i..i + |word|] == text[i..i + |word|];
    assert (more + text)[|more| + i..|more| + i + |word|] == text[i..i + |word|];
  }

  lemma GuideNamesArgument()
    ensures Mentions(GuideText(), "tasks_string_ids")
  {
    var w := "tasks_string_ids";
    var i := |GuideIntroStart|;
    MentionsBetween(GuideIntroStart, w, "` argument.");
    MentionsExtend(GuideIntro, w, i, GuideList);
    MentionsExtend(GuideIntro + GuideList, w, i, GuideGardener);
    MentionsExtend(GuideIntro + GuideList + GuideGardener, w, i, GuidePlumber);
    MentionsExtend(GuideIntro + GuideList + GuideGardener + GuidePlumber, w, i, GuideHandyman);
  }

  lemma GardenerAt()
    ensures MentionsAt(GuideGardener, TaskTypeId(Gardener), 39)
  {
    assert GuideGardener[39..39 + 17] == TaskTypeId(Gardener);
  }

  lemma PlumberAt()
    ensures MentionsAt(GuidePlumber, TaskTypeId(Plumber), 26)
  {
    assert GuidePlumber[26..26 + 16] == TaskTypeId(Plumber);
  }

  lemma HandymanAt()
    ensures MentionsAt(GuideHandyman, TaskTypeId(Handyman), 26)
  {
    assert GuideHandyman[26..26 + 17] == TaskTypeId(Handyman);
  }

  lemma GuideNamesGardener()
    ensures Mentions(GuideText(), TaskTypeId(Gardener))
  {
    var w, before := TaskTypeId(Gardener), GuideIntro + GuideList;
    var i := |before| + 39;
    GardenerAt();
    MentionsExtend(GuideGardener, w, 39, before);
    MentionsExtend(before + GuideGardener, w, i, GuidePlumber);
    MentionsExtend(before + GuideGardener + GuidePlumber, w, i, GuideHandyman);
  }

  lemma GuideNamesPlumber()
    ensures Mentions(GuideText(), TaskTypeId(Plumber))
  {
    var w, before := TaskTypeId(Plumber), GuideIntro + GuideList + GuideGardener;
    var i := |before| + 26;
    PlumberAt();
    MentionsExtend(GuidePlumber, w, 26, before);
    MentionsExtend(before + GuidePlumber, w, i, GuideHandyman);
  }

  lemma GuideNamesHandyman()
    ensures Mentions(GuideText(), TaskTypeId(Handyman))
  {
    var w, before := TaskTypeId(Handyman), GuideIntro + GuideList + GuideGardener + GuidePlumber;
    HandymanAt();
    MentionsExtend(GuideHandyman, w, 26, before);
  }

  /** The guide names the argument and the identifier of every task type the schema accepts. */
  lemma GuideNamesEveryTaskType()
    ensures Mentions(ReadGuide()[0].text, "tasks_string_ids")
    ensures forall t :: Mentions(ReadGuide()[0].text, TaskTypeId(t))
  {
    GuideNamesArgument();
    GuideNamesGardener();
    GuideNamesPlumber();
    GuideNamesHandyman();
    forall t ensures Mentions(GuideText(), TaskTypeId(t)) {
      match t
      case Gardener =>
      case Plumber =>
      case Handyman =>
    }
  }
}
