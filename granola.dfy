/**
 * Normalisers for the payloads the Granola MCP tools return: text content,
 * JSON found in text, tool selection by name, argument filtering against a
 * tool's input schema, meeting records and summaries. `JSON.parse` and
 * `JSON.stringify` are injected.
 */
module Granola {
  import opened Common
  import opened Text
  import opened JsValue

  const MeetingToolCandidates: seq<string> := ["get_meetings", "get_all_meetings", "get_recent_meetings", "get_todays_meetings"]
  const SummaryToolCandidates: seq<string> := ["get_document_summary", "get_meeting_by_id"]

  /** A listed tool: its name and the keys of `inputSchema.properties`, `None` when that is absent. */
  datatype Tool = Tool(name: string, properties: Option<seq<string>>)

  /** The `text` of one content item when its type is "text" and its text is a string. */
  function TextSegment(content: Json): Option<string> {
    if IsRecord(content) && Get(content, "type") == Some(JStr("text")) then AsString(Get(content, "text")) else None
  }

  /** The text segments of a content list, in order. */
  function TextSegments(items: seq<Json>): (r: seq<string>)
    ensures |r| <= |items|
  {
    if |items| == 0 then []
    else
      var last := TextSegment(items[|items| - 1]);
      TextSegments(items[..|items| - 1]) + (if last.Some? then [last.value] else [])
  }

  /** Collecting segments distributes over concatenated content lists. */
  lemma {:induction false} TextSegmentsAppend(a: seq<Json>, b: seq<Json>)
    ensures TextSegments(a + b) == TextSegments(a) + TextSegments(b)
    decreases |b|
  {
    if |b| == 0 {
      assert a + b == a;
    } else {
      assert (a + b)[..|a + b| - 1] == a + b[..|b| - 1];
      TextSegmentsAppend(a, b[..|b| - 1]);
    }
  }

  /** An item that is not a well-formed text item contributes nothing. */
  lemma SkippedItemContributesNothing(items: seq<Json>, item: Json)
    requires TextSegment(item).None?
    ensures TextSegments(items + [item]) == TextSegments(items)
  {
    assert (items + [item])[..|items|] == items;
  }

  /** The content list of a tool result, or `None` when the result has no `content` array. */
  function ContentItems(toolResult: Json): Option<seq<Json>> {
    if IsRecord(toolResult) && IsArrayValue(Get(toolResult, "content")) then Some(Get(toolResult, "content").value.items) else None
  }

  /** What `getTextContent` yields. */
  function TextContent(toolResult: Json): (r: string)
    ensures IsTrimmed(r)
    ensures ContentItems(toolResult).None? ==> r == ""
  {
    match ContentItems(toolResult)
    case None => ""
    case Some(items) => Trim(Join(TextSegments(items), "\n"))
  }

  /** `getTextContent`: the text items' texts joined by newlines, trimmed; "" without a content array. */
  method GetTextContent(toolResult: Json) returns (r: string)
    ensures r == TextContent(toolResult)
  {
    if !IsRecord(toolResult) || !IsArrayValue(Get(toolResult, "content")) {
      return "";
    }
    var items := Get(toolResult, "content").value.items;
    var segments: seq<string> := [];
    var k := 0;
    while k < |items|
      invariant 0 <= k <= |items|
      invariant segments == TextSegments(items[..k])
    {
      assert items[..k + 1][..k] == items[..k];
      var content := items[k];
      if IsRecord(content) && Get(content, "type") == Some(JStr("text")) && AsString(Get(content, "text")).Some? {
        segments := segments + [AsString(Get(content, "text")).value];
      }
      k := k + 1;
    }
    assert items[..k] == items;
    r := Trim(Join(segments, "\n"));
  }

  /** `text[i..i+7]` is "```json" with "json" in any ASCII case. */
  predicate OpensFence(text: string, i: nat)
    requires i + 7 <= |text|
  {
    text[i] == '`' && text[i + 1] == '`' && text[i + 2] == '`'
    && ToLowerChar(text[i + 3]) == 'j' && ToLowerChar(text[i + 4]) == 's'
    && ToLowerChar(text[i + 5]) == 'o' && ToLowerChar(text[i + 6]) == 'n'
  }

  /** The first fence opening at or after `i`. */
  function FindFenceOpen(text: string, i: nat): (r: Option<nat>)
    ensures r.Some? ==> i <= r.value && r.value + 7 <= |text| && OpensFence(text, r.value)
    ensures r.Some? ==> forall q :: i <= q < r.value ==> !OpensFence(text, q)
    ensures r.None? ==> forall q :: i <= q && q + 7 <= |text| ==> !OpensFence(text, q)
    decreases |text| - i
  {
    if i + 7 > |text| then None
    else if OpensFence(text, i) then Some(i)
    else FindFenceOpen(text, i + 1)
  }

  /** "```" starts at `q`. */
  predicate ClosesAt(text: string, q: nat)
    requires q + 3 <= |text|
  {
    text[q..q + 3] == "```"
  }

  /** `text` holds no "```" anywhere. */
  predicate NoFenceClose(text: string) {
    forall q: nat :: q + 3 <= |text| ==> !ClosesAt(text, q)
  }

  /** `text` holds no "```json" opening anywhere. */
  predicate NoFenceOpen(text: string) {
    forall q: nat :: q + 7 <= |text| ==> !OpensFence(text, q)
  }

  /** The first "```" at or after `i`. */
  function FindFenceClose(text: string, i: nat): (r: Option<nat>)
    ensures r.Some? ==> i <= r.value && r.value + 3 <= |text| && ClosesAt(text, r.value)
    ensures r.Some? ==> forall q: nat :: i <= q < r.value ==> !ClosesAt(text, q)
    ensures r.None? ==> forall q: nat :: i <= q && q + 3 <= |text| ==> !ClosesAt(text, q)
    decreases |text| - i
  {
    if i + 3 > |text| then None
    else if ClosesAt(text, i) then Some(i)
    else FindFenceClose(text, i + 1)
  }

  /** The first position at or after `i` that is not white space (or the end). */
  function SkipSpace(text: string, i: nat): (r: nat)
    requires i <= |text|
    ensures i <= r <= |text|
    ensures forall q :: i <= q < r ==> IsSpace(text[q])
    ensures r == |text| || !IsSpace(text[r])
    decreases |text| - i
  {
    if i < |text| && IsSpace(text[i]) then SkipSpace(text, i + 1) else i
  }

  /**
   * Capture group 1 of /```json\s*([\s\S]*?)```/i: after the first opening and its white
   * space, everything up to the next "```". A later opening cannot succeed where the first
   * failed, because it lies after the first one's white space.
   */
  function FencedJsonBlock(text: string): (r: Option<string>)
    ensures NoFenceOpen(text) ==> r.None?
    ensures r.Some? ==> NoFenceClose(r.value)
    ensures r.Some? ==> r.value == [] || !IsSpace(r.value[0])
  {
    match FindFenceOpen(text, 0)
    case None => None
    case Some(p) =>
      var body := SkipSpace(text, p + 7);
      match FindFenceClose(text, body)
      case None => None
      case Some(q) =>
        NoCloseBeforeFirst(text, body, q);
        Some(text[body..q])
  }

  /** The text between `body` and the first "```" after it holds no "```" of its own. */
  lemma NoCloseBeforeFirst(text: string, body: nat, q: nat)
    requires FindFenceClose(text, body) == Some(q)
    ensures body <= q <= |text|
    ensures NoFenceClose(text[body..q])
  {
    var block := text[body..q];
    forall k: nat | k + 3 <= |block|
      ensures !ClosesAt(block, k)
    {
      assert block[k..k + 3] == text[body + k..body + k + 3];
      assert !ClosesAt(text, body + k);
    }
  }

  /** The first opening of text that has none before `before` ends is right after `before`. */
  lemma OpeningFound(before: string, block: string, after: string)
    requires NoFenceOpen(before)
    ensures FindFenceOpen(before + "```json" + block + "```" + after, 0) == Some(|before|)
  {
    var text := before + "```json" + block + "```" + after;
    var p := |before|;
    assert text[..p] == before;
    assert text[p..p + 7] == "```json";
    assert OpensFence(text, p);
    forall q: nat | q < p
      ensures !OpensFence(text, q)
    {
      NoOpeningBefore(text, before, q);
    }
  }

  /** No opening starts inside `before` when `before` holds none and "```" follows it. */
  lemma NoOpeningBefore(text: string, before: string, q: nat)
    requires NoFenceOpen(before) && q < |before| && |before| + 7 <= |text|
    requires text[..|before|] == before && text[|before|..|before| + 3] == "```"
    ensures !OpensFence(text, q)
  {
    var p := |before|;
    if q + 7 <= p {
      assert !OpensFence(before, q);
      assert text[q..q + 7] == before[q..q + 7];
    } else {
      // The opening would have to read one of the backticks after `before` as a letter.
      var j := if q + 3 >= p then q + 3 else p;
      assert text[j] == text[|before|..|before| + 3][j - p] == '`';
    }
  }

  /** The first "```" after `prefix` is the one right after `block`. */
  lemma ClosingFound(prefix: string, block: string, after: string)
    requires NoFenceClose(block + "``")
    ensures FindFenceClose(prefix + block + "```" + after, |prefix|) == Some(|prefix| + |block|)
  {
    var text := prefix + block + "```" + after;
    var b := |prefix|;
    var c := b + |block|;
    var tail := block + "``";
    assert ClosesAt(text, c);
    forall q: nat | b <= q < c
      ensures !ClosesAt(text, q)
    {
      assert text[q..q + 3] == tail[q - b..q - b + 3];
      assert !ClosesAt(tail, q - b);
    }
  }

  /** A block fenced as "```json" … "```" comes back out of the surrounding text. */
  lemma FencedBlockFound(before: string, block: string, after: string)
    requires NoFenceOpen(before)
    requires block == [] || !IsSpace(block[0])
    requires NoFenceClose(block + "``")
    ensures FencedJsonBlock(before + "```json" + block + "```" + after) == Some(block)
  {
    var prefix := before + "```json";
    var text := prefix + block + "```" + after;
    OpeningFound(before, block, after);
    var b := |prefix|;
    BlockStartsAt(prefix, block, after);
    ClosingFound(prefix, block, after);
    assert text[b..b + |block|] == block;
  }

  /** No white space is skipped before a block that does not start with white space. */
  lemma BlockStartsAt(prefix: string, block: string, after: string)
    requires block == [] || !IsSpace(block[0])
    ensures SkipSpace(prefix + block + "```" + after, |prefix|) == |prefix|
  {
    var text := prefix + block + "```" + after;
    if block != [] {
      assert text[|prefix|] == block[0];
    } else {
      assert text[|prefix|] == '`';
    }
  }

  /**
   * `extractJsonFromText`: the empty text as it is; else the text parsed as JSON; else a
   * non-empty fenced json block parsed; else the text unchanged.
   */
  function ExtractJsonFromText(text: string, parse: string -> Option<Json>): (r: Json)
    ensures parse(text).Some? && text != "" ==> r == parse(text).value
  {
    if text == "" then JStr(text)
    else if parse(text).Some? then parse(text).value
    else
      var block := FencedJsonBlock(text);
      if block.Some? && block.value != "" && parse(block.value).Some? then parse(block.value).value
      else JStr(text)
  }

  /** When neither the text nor a fenced block parses, the text comes back unchanged. */
  lemma UnparsableTextKept(text: string, parse: string -> Option<Json>)
    requires parse(text).None?
    requires FencedJsonBlock(text).None? || parse(FencedJsonBlock(text).value).None?
    ensures ExtractJsonFromText(text, parse) == JStr(text)
  {
  }

  /** `extractToolPayload`: a defined `structuredContent` (even null) wins over the text content. */
  function ExtractToolPayload(toolResult: Json, parse: string -> Option<Json>): (r: Json)
    ensures IsRecord(toolResult) && Get(toolResult, "structuredContent").Some? ==> r == Get(toolResult, "structuredContent").value
    ensures !IsRecord(toolResult) ==> r == JStr("")
  {
    if IsRecord(toolResult) && Get(toolResult, "structuredContent").Some? then Get(toolResult, "structuredContent").value
    else ExtractJsonFromText(TextContent(toolResult), parse)
  }

  /** `isToolError`: only a literal `isError: true` marks an error. */
  predicate IsToolError(toolResult: Json) {
    IsRecord(toolResult) && Get(toolResult, "isError") == Some(JBool(true))
  }

  /** A truthy `isError` that is not the boolean `true` (a string, a number) does not mark an error. */
  lemma TruthyIsErrorIgnored(toolResult: Json, flag: Json)
    requires Get(toolResult, "isError") == Some(flag) && flag != JBool(true)
    ensures !IsToolError(toolResult)
  {
  }

  /** `tools.find((entry) => entry.name === name)`: the first tool of that name. */
  function FindTool(tools: seq<Tool>, name: string): (r: Option<Tool>)
    ensures r.Some? ==> r.value in tools && r.value.name == name
    ensures r.Some? ==> exists i :: 0 <= i < |tools| && tools[i] == r.value && forall j :: 0 <= j < i ==> tools[j].name != name
    ensures r.None? <==> forall j :: 0 <= j < |tools| ==> tools[j].name != name
  {
    if |tools| == 0 then None
    else if tools[0].name == name then Some(tools[0])
    else
      var rest := FindTool(tools[1..], name);
      assert rest.Some? ==> exists i :: 0 <= i < |tools| && tools[i] == rest.value && forall j :: 0 <= j < i ==> tools[j].name != name by {
        if rest.Some? {
          var i :| 0 <= i < |tools| - 1 && tools[1..][i] == rest.value && forall j :: 0 <= j < i ==> tools[1..][j].name != name;
          assert tools[i + 1] == rest.value;
          forall j | 0 <= j < i + 1 ensures tools[j].name != name {
            if j > 0 { assert tools[j] == tools[1..][j - 1]; }
          }
        }
      }
      rest
  }

  function ToolNames(tools: seq<Tool>): set<string> {
    set j | 0 <= j < |tools| :: tools[j].name
  }

  /** What `pickToolByName` returns: the tool for the earliest candidate any tool carries. */
  function PickTool(tools: seq<Tool>, candidates: seq<string>): (r: Option<Tool>)
    ensures r.Some? ==> r.value in tools && r.value.name in candidates
    ensures r.None? <==> forall i :: 0 <= i < |candidates| ==> candidates[i] !in ToolNames(tools)
  {
    if |candidates| == 0 then None
    else
      var tool := FindTool(tools, candidates[0]);
      if tool.Some? then tool
      else
        assert candidates[0] !in ToolNames(tools);
        var rest := PickTool(tools, candidates[1..]);
        assert forall i :: 1 <= i < |candidates| ==> candidates[i] == candidates[1..][i - 1];
        rest
  }

  /** The picked tool's name is the first candidate any tool carries. */
  lemma {:induction false} PickToolIsEarliest(tools: seq<Tool>, candidates: seq<string>, i: nat)
    requires i < |candidates| && candidates[i] in ToolNames(tools)
    requires forall j :: 0 <= j < i ==> candidates[j] !in ToolNames(tools)
    ensures PickTool(tools, candidates).Some? && PickTool(tools, candidates).value.name == candidates[i]
  {
    if i > 0 {
      assert candidates[0] !in ToolNames(tools);
      assert FindTool(tools, candidates[0]).None?;
      PickToolIsEarliest(tools, candidates[1..], i - 1);
    } else {
      var w :| 0 <= w < |tools| && tools[w].name == candidates[0];
      assert FindTool(tools, candidates[0]).Some?;
    }
  }

  /** Reordering the tool list does not change which name is picked. */
  lemma PickToolOrderIndependent(tools: seq<Tool>, reordered: seq<Tool>, candidates: seq<string>)
    requires ToolNames(tools) == ToolNames(reordered)
    ensures PickTool(tools, candidates).None? <==> PickTool(reordered, candidates).None?
    ensures PickTool(tools, candidates).Some? ==>
      PickTool(tools, candidates).value.name == PickTool(reordered, candidates).value.name
  {
    if PickTool(tools, candidates).Some? {
      var i := EarliestPresent(tools, candidates);
      PickToolIsEarliest(tools, candidates, i);
      PickToolIsEarliest(reordered, candidates, i);
    }
  }

  /** The index of the earliest candidate some tool carries. */
  lemma EarliestPresent(tools: seq<Tool>, candidates: seq<string>) returns (i: nat)
    requires exists k :: 0 <= k < |candidates| && candidates[k] in ToolNames(tools)
    ensures i < |candidates| && candidates[i] in ToolNames(tools)
    ensures forall j :: 0 <= j < i ==> candidates[j] !in ToolNames(tools)
  {
    i := 0;
    while candidates[i] !in ToolNames(tools)
      invariant i < |candidates|
      invariant forall j :: 0 <= j < i ==> candidates[j] !in ToolNames(tools)
      invariant exists k :: i <= k < |candidates| && candidates[k] in ToolNames(tools)
      decreases |candidates| - i
    {
      i := i + 1;
    }
  }

  /** `pickToolByName`: tries the candidates in order and returns on the first match. */
  method PickToolByName(tools: seq<Tool>, candidates: seq<string>) returns (r: Option<Tool>)
    ensures r == PickTool(tools, candidates)
  {
    var k := 0;
    while k < |candidates|
      invariant 0 <= k <= |candidates|
      invariant PickTool(tools, candidates[k..]) == PickTool(tools, candidates)
    {
      var tool := FindTool(tools, candidates[k]);
      assert candidates[k..][1..] == candidates[k + 1..];
      if tool.Some? {
        return tool;
      }
      k := k + 1;
    }
    return None;
  }

  /** The entries of `defaults` whose key is in `keys`, in order, values unchanged. */
  function FilterEntries(defaults: seq<(string, Json)>, keys: set<string>): (r: seq<(string, Json)>)
    ensures forall e :: e in r <==> e in defaults && e.0 in keys
    ensures |r| <= |defaults|
  {
    if |defaults| == 0 then []
    else
      var init := FilterEntries(defaults[..|defaults| - 1], keys);
      var last := defaults[|defaults| - 1];
      assert defaults == defaults[..|defaults| - 1] + [last];
      init + (if last.0 in keys then [last] else [])
  }

  /** `filterArgsBySchema`: {} without schema properties; otherwise the defaults whose key is a property. */
  method FilterArgsBySchema(tool: Tool, defaults: seq<(string, Json)>) returns (args: seq<(string, Json)>)
    ensures tool.properties.None? ==> args == []
    ensures tool.properties.Some? ==> args == FilterEntries(defaults, set k | k in tool.properties.value)
  {
    if tool.properties.None? {
      return [];
    }
    var propertySet := set k | k in tool.properties.value;
    args := [];
    var k := 0;
    while k < |defaults|
      invariant 0 <= k <= |defaults|
      invariant args == FilterEntries(defaults[..k], propertySet)
    {
      assert defaults[..k + 1][..k] == defaults[..k];
      if defaults[k].0 in propertySet {
        args := args + [defaults[k]];
      }
      k := k + 1;
    }
    assert defaults[..k] == defaults;
  }

  /** A normalised meeting: the original record plus the resolved fields. */
  datatype Meeting = Meeting(
    source: Json, id: string, title: string,
    startedAt: Option<string>, endedAt: Option<string>, summary: Option<string>)

  function IdAliases(item: Json): seq<Option<Json>> {
    [Get(item, "document_id"), Get(item, "documentId"), Get(item, "id"), Get(item, "meeting_id"), Get(item, "meetingId")]
  }

  function TitleAliases(item: Json): seq<Option<Json>> {
    [Get(item, "title"), Get(item, "name"), Get(item, "topic")]
  }

  function SummaryAliases(item: Json): seq<Option<Json>> {
    [Get(item, "summary"), Get(item, "document_summary"), Get(item, "meeting_summary"), Get(item, "brief")]
  }

  function StringOr(o: Option<string>, fallback: string): string {
    if o.Some? then o.value else fallback
  }

  /** `normalizeMeeting`. */
  function NormalizeMeeting(item: Json): (r: Meeting)
    ensures r.source == item
    ensures r.startedAt == AsString(Get(item, "started_at")) && r.endedAt == AsString(Get(item, "ended_at"))
  {
    Meeting(
      item,
      StringOr(AsString(Coalesce(IdAliases(item))), "unknown"),
      StringOr(AsString(Coalesce(TitleAliases(item))), "Untitled meeting"),
      AsString(Get(item, "started_at")),
      AsString(Get(item, "ended_at")),
      AsString(Coalesce(SummaryAliases(item))))
  }

  /** The first present id alias decides the id; a non-string one gives "unknown". */
  lemma MeetingIdFromFirstAlias(item: Json, k: nat)
    requires k < 5 && !Nullish(IdAliases(item)[k])
    requires forall j :: 0 <= j < k ==> Nullish(IdAliases(item)[j])
    ensures NormalizeMeeting(item).id == StringOr(AsString(IdAliases(item)[k]), "unknown")
  {
    CoalesceFirstPresent(IdAliases(item), k);
  }

  lemma MeetingTitleFromFirstAlias(item: Json, k: nat)
    requires k < 3 && !Nullish(TitleAliases(item)[k])
    requires forall j :: 0 <= j < k ==> Nullish(TitleAliases(item)[j])
    ensures NormalizeMeeting(item).title == StringOr(AsString(TitleAliases(item)[k]), "Untitled meeting")
  {
    CoalesceFirstPresent(TitleAliases(item), k);
  }

  lemma MeetingSummaryFromFirstAlias(item: Json, k: nat)
    requires k < 4 && !Nullish(SummaryAliases(item)[k])
    requires forall j :: 0 <= j < k ==> Nullish(SummaryAliases(item)[j])
    ensures NormalizeMeeting(item).summary == AsString(SummaryAliases(item)[k])
  {
    CoalesceFirstPresent(SummaryAliases(item), k);
  }

  /** Without any alias the defaults apply. */
  lemma MeetingWithoutAliases(item: Json)
    requires forall j :: 0 <= j < 5 ==> Nullish(IdAliases(item)[j])
    requires forall j :: 0 <= j < 3 ==> Nullish(TitleAliases(item)[j])
    ensures NormalizeMeeting(item).id == "unknown" && NormalizeMeeting(item).title == "Untitled meeting"
  {
    CoalesceAllNullish(IdAliases(item));
    CoalesceAllNullish(TitleAliases(item));
  }

  /** `items.filter(isRecord).map(normalizeMeeting)`. */
  function NormalizeRecords(items: seq<Json>): (r: seq<Meeting>)
    ensures |r| <= |items|
    ensures forall k :: 0 <= k < |r| ==> IsRecord(r[k].source) && r[k].source in items
  {
    if |items| == 0 then []
    else
      var rest := NormalizeRecords(items[1..]);
      if IsRecord(items[0]) then [NormalizeMeeting(items[0])] + rest else rest
  }

  /** A list made only of records loses nothing: entry k becomes meeting k. */
  lemma {:induction false} NormalizeAllRecords(items: seq<Json>)
    requires forall k :: 0 <= k < |items| ==> IsRecord(items[k])
    ensures |NormalizeRecords(items)| == |items|
    ensures forall k :: 0 <= k < |items| ==> NormalizeRecords(items)[k] == NormalizeMeeting(items[k])
  {
    if |items| > 0 {
      NormalizeAllRecords(items[1..]);
    }
  }

  /** `normalizeMeetings`: a top-level array, else the first array among meetings, documents and items. */
  function NormalizeMeetings(payload: Json): (r: seq<Meeting>)
    ensures payload.JArr? ==> r == NormalizeRecords(payload.items)
    ensures !IsRecord(payload) ==> r == []
    ensures var meetings := Get(payload, "meetings");
      payload.JObj? && IsArrayValue(meetings) ==> r == NormalizeRecords(meetings.value.items)
    ensures var documents := Get(payload, "documents");
      payload.JObj? && !IsArrayValue(Get(payload, "meetings")) && IsArrayValue(documents) ==>
        r == NormalizeRecords(documents.value.items)
    ensures var items := Get(payload, "items");
      var noEarlier := !IsArrayValue(Get(payload, "meetings")) && !IsArrayValue(Get(payload, "documents"));
      payload.JObj? && noEarlier && IsArrayValue(items) ==> r == NormalizeRecords(items.value.items)
    ensures var noEarlier := !IsArrayValue(Get(payload, "meetings")) && !IsArrayValue(Get(payload, "documents"));
      payload.JObj? && noEarlier && !IsArrayValue(Get(payload, "items")) ==> r == []
  {
    if payload.JArr? then NormalizeRecords(payload.items)
    else if !IsRecord(payload) then []
    else if IsArrayValue(Get(payload, "meetings")) then NormalizeRecords(Get(payload, "meetings").value.items)
    else if IsArrayValue(Get(payload, "documents")) then NormalizeRecords(Get(payload, "documents").value.items)
    else if IsArrayValue(Get(payload, "items")) then NormalizeRecords(Get(payload, "items").value.items)
    else []
  }

  /** A `meetings` array wins even over a later `documents` array, and even when it holds no records. */
  lemma MeetingsArrayWins(entries: seq<Json>, documents: seq<Json>)
    requires forall k :: 0 <= k < |entries| ==> !IsRecord(entries[k])
    ensures NormalizeMeetings(JObj([("meetings", JArr(entries)), ("documents", JArr(documents))])) == []
  {
    var payload := JObj([("meetings", JArr(entries)), ("documents", JArr(documents))]);
    assert Get(payload, "meetings") == Some(JArr(entries));
    NoRecordsNoMeetings(entries);
  }

  lemma {:induction false} NoRecordsNoMeetings(items: seq<Json>)
    requires forall k :: 0 <= k < |items| ==> !IsRecord(items[k])
    ensures NormalizeRecords(items) == []
  {
    if |items| > 0 {
      NoRecordsNoMeetings(items[1..]);
    }
  }

  const PreferredSummaryKeys: seq<string> := ["document_id", "documentId", "id", "meeting_id", "meetingId"]

  /** `/id$/i`: the key ends in "id" in any ASCII case. */
  predicate EndsWithId(key: string) {
    |key| >= 2 && ToLower(key[|key| - 2..]) == "id"
  }

  /** The first element of `xs` that is in `pool`: every earlier element is missing from `pool`. */
  function FirstIn(xs: seq<string>, pool: seq<string>): (r: Option<string>)
    ensures r.Some? ==> r.value in pool
    ensures r.Some? ==> exists i :: 0 <= i < |xs| && xs[i] == r.value && forall j :: 0 <= j < i ==> xs[j] !in pool
    ensures r.None? ==> forall i :: 0 <= i < |xs| ==> xs[i] !in pool
  {
    if |xs| == 0 then None
    else if xs[0] in pool then Some(xs[0])
    else
      var rest := FirstIn(xs[1..], pool);
      assert rest.Some? ==> exists i :: 0 <= i < |xs| && xs[i] == rest.value && forall j :: 0 <= j < i ==> xs[j] !in pool by {
        if rest.Some? {
          var i :| 0 <= i < |xs| - 1 && xs[1..][i] == rest.value && forall j :: 0 <= j < i ==> xs[1..][j] !in pool;
          assert xs[i + 1] == rest.value;
          assert forall j :: 0 <= j < i + 1 ==> xs[j] !in pool by {
            forall j | 0 <= j < i + 1 ensures xs[j] !in pool {
              if j > 0 { assert xs[j] == xs[1..][j - 1]; }
            }
          }
        }
      }
      rest
  }

  /** The first element of `xs` ending in "id": every earlier element does not. */
  function FirstIdLike(xs: seq<string>): (r: Option<string>)
    ensures r.Some? ==> EndsWithId(r.value)
    ensures r.Some? ==> exists i :: 0 <= i < |xs| && xs[i] == r.value && forall j :: 0 <= j < i ==> !EndsWithId(xs[j])
    ensures r.None? ==> forall i :: 0 <= i < |xs| ==> !EndsWithId(xs[i])
  {
    if |xs| == 0 then None
    else if EndsWithId(xs[0]) then Some(xs[0])
    else
      var rest := FirstIdLike(xs[1..]);
      assert rest.Some? ==> exists i :: 0 <= i < |xs| && xs[i] == rest.value && forall j :: 0 <= j < i ==> !EndsWithId(xs[j]) by {
        if rest.Some? {
          var i :| 0 <= i < |xs| - 1 && xs[1..][i] == rest.value && forall j :: 0 <= j < i ==> !EndsWithId(xs[1..][j]);
          assert xs[i + 1] == rest.value;
          assert forall j :: 0 <= j < i + 1 ==> !EndsWithId(xs[j]) by {
            forall j | 0 <= j < i + 1 ensures !EndsWithId(xs[j]) {
              if j > 0 { assert xs[j] == xs[1..][j - 1]; }
            }
          }
        }
      }
      rest
  }

  /** The schema's property names, in order; none when the schema lists no properties. */
  function PropertyNames(tool: Tool): seq<string> {
    if tool.properties.Some? then tool.properties.value else []
  }

  /**
   * `buildSummaryArgs`: a one-key object mapping the chosen key to the document id. The key is
   * the first preferred key the schema has, else its first id-like property, else its first
   * property, else "document_id".
   */
  function BuildSummaryArgs(tool: Tool, documentId: string): (r: seq<(string, Json)>)
    ensures |r| == 1 && r[0].1 == JStr(documentId)
    ensures var properties := PropertyNames(tool);
      (exists i :: 0 <= i < |PreferredSummaryKeys| && PreferredSummaryKeys[i] in properties) ==>
        r[0].0 in properties
        && (exists i :: 0 <= i < |PreferredSummaryKeys| && PreferredSummaryKeys[i] == r[0].0
              && forall j :: 0 <= j < i ==> PreferredSummaryKeys[j] !in properties)
    ensures var properties := PropertyNames(tool);
      (forall i :: 0 <= i < |PreferredSummaryKeys| ==> PreferredSummaryKeys[i] !in properties)
      && (exists i :: 0 <= i < |properties| && EndsWithId(properties[i])) ==>
        EndsWithId(r[0].0)
        && (exists i :: 0 <= i < |properties| && properties[i] == r[0].0
              && forall j :: 0 <= j < i ==> !EndsWithId(properties[j]))
    ensures var properties := PropertyNames(tool);
      (forall i :: 0 <= i < |PreferredSummaryKeys| ==> PreferredSummaryKeys[i] !in properties)
      && (forall i :: 0 <= i < |properties| ==> !EndsWithId(properties[i])) && properties != [] ==>
        r[0].0 == properties[0]
    ensures PropertyNames(tool) == [] ==> r[0].0 == "document_id"
  {
    var properties := PropertyNames(tool);
    var preferred := FirstIn(PreferredSummaryKeys, properties);
    var key :=
      if preferred.Some? then preferred.value
      else if FirstIdLike(properties).Some? then FirstIdLike(properties).value
      else if |properties| > 0 then properties[0]
      else "document_id";
    [(key, JStr(documentId))]
  }

  /** The key is a schema property whenever the schema has one, and "document_id" otherwise. */
  lemma SummaryKeyIsProperty(tool: Tool, documentId: string)
    ensures var properties := PropertyNames(tool);
      (|properties| > 0 ==> BuildSummaryArgs(tool, documentId)[0].0 in properties)
      && (|properties| == 0 ==> BuildSummaryArgs(tool, documentId)[0].0 == "document_id")
  {
  }

  /**
   * A preferred key the schema has beats every id-like property, wherever it stands in the
   * schema: the chosen key is that preferred key or an earlier-listed one.
   */
  lemma PreferredKeyWins(tool: Tool, documentId: string, k: nat)
    requires k < |PreferredSummaryKeys| && PreferredSummaryKeys[k] in PropertyNames(tool)
    ensures BuildSummaryArgs(tool, documentId)[0].0 in PreferredSummaryKeys[..k + 1]
  {
    var key := BuildSummaryArgs(tool, documentId)[0].0;
    var i :| 0 <= i < |PreferredSummaryKeys| && PreferredSummaryKeys[i] == key
      && forall j :: 0 <= j < i ==> PreferredSummaryKeys[j] !in PropertyNames(tool);
    assert i <= k;
    assert PreferredSummaryKeys[..k + 1][i] == key;
  }

  function SummaryTextAliases(payload: Json): seq<Option<Json>> {
    [Get(payload, "summary"), Get(payload, "document_summary"), Get(payload, "meeting_summary"), Get(payload, "text")]
  }

  /** `summaryFromPayload`; `stringify` is `JSON.stringify`. */
  function SummaryFromPayload(payload: Json, stringify: Json -> string): (r: string)
    ensures payload.JStr? ==> r == payload.s
    ensures payload.JArr? ==> r == Join(seq(|payload.items|, k requires 0 <= k < |payload.items| => stringify(payload.items[k])), "\n")
    ensures !payload.JStr? && !IsRecord(payload) ==> r == ""
  {
    match payload
    case JStr(s) => s
    case JArr(items) => Join(seq(|items|, k requires 0 <= k < |items| => stringify(items[k])), "\n")
    case JObj(_) =>
      var candidate := AsString(Coalesce(SummaryTextAliases(payload)));
      if candidate.Some? then candidate.value else stringify(payload)
    case _ => ""
  }

  /** An object's first present summary alias is used when it is a string, else the whole object is serialised. */
  lemma ObjectSummaryFromFirstAlias(payload: Json, stringify: Json -> string, k: nat)
    requires payload.JObj? && k < 4 && !Nullish(SummaryTextAliases(payload)[k])
    requires forall j :: 0 <= j < k ==> Nullish(SummaryTextAliases(payload)[j])
    ensures SummaryFromPayload(payload, stringify) ==
      if AsString(SummaryTextAliases(payload)[k]).Some? then AsString(SummaryTextAliases(payload)[k]).value else stringify(payload)
  {
    CoalesceFirstPresent(SummaryTextAliases(payload), k);
  }
}
