/**
 * Gemini text extraction and the guards and prompt assembly of the video-prompt
 * request. The HTTP call is an injected `Result<Json>`: `Err` carries the message
 * a non-ok response raises.
 */
module ScriptGenerator {
  import opened Common
  import opened Text
  import opened JsValue

  const EmptySummaryError: string := "Cannot generate video prompt from an empty meeting summary."
  const MissingApiKeyError: string := "Missing GOOGLE_AI_API_KEY environment variable."
  const NoContentError: string := "Gemini did not return video prompt content."

  /** The string `text` of every record part, in order. */
  function PartTexts(parts: seq<Json>): (r: seq<string>)
    ensures |r| <= |parts|
  {
    if |parts| == 0 then []
    else
      var last := parts[|parts| - 1];
      var text := if IsRecord(last) then AsString(Get(last, "text")) else None;
      PartTexts(parts[..|parts| - 1]) + (if text.Some? then [text.value] else [])
  }

  /** The parts of a candidate whose `content` is a record holding a `parts` array. */
  function CandidateParts(candidate: Json): Option<seq<Json>> {
    if IsRecord(candidate) && IsRecordValue(Get(candidate, "content"))
      && IsArrayValue(Get(Get(candidate, "content").value, "parts"))
    then Some(Get(Get(candidate, "content").value, "parts").value.items)
    else None
  }

  /** The texts collected from every well-formed candidate, in candidate order then part order. */
  function Collected(candidates: seq<Json>): seq<string> {
    if |candidates| == 0 then []
    else
      var parts := CandidateParts(candidates[|candidates| - 1]);
      Collected(candidates[..|candidates| - 1]) + (if parts.Some? then PartTexts(parts.value) else [])
  }

  /** Collection distributes over concatenated candidate lists. */
  lemma {:induction false} CollectedAppend(a: seq<Json>, b: seq<Json>)
    ensures Collected(a + b) == Collected(a) + Collected(b)
    decreases |b|
  {
    if |b| == 0 {
      assert a + b == a;
    } else {
      assert (a + b)[..|a + b| - 1] == a + b[..|b| - 1];
      CollectedAppend(a, b[..|b| - 1]);
    }
  }

  /** A malformed candidate contributes nothing. */
  lemma MalformedCandidateSkipped(candidates: seq<Json>, candidate: Json)
    requires CandidateParts(candidate).None?
    ensures Collected(candidates + [candidate]) == Collected(candidates)
  {
    assert (candidates + [candidate])[..|candidates|] == candidates;
  }

  /** The candidates array of a payload, if it has one. */
  function Candidates(payload: Json): Option<seq<Json>> {
    if IsRecord(payload) && IsArrayValue(Get(payload, "candidates")) then Some(Get(payload, "candidates").value.items) else None
  }

  /** What `extractGeminiText` yields. */
  function GeminiText(payload: Json): (r: string)
    ensures IsTrimmed(r)
    ensures Candidates(payload).None? ==> r == ""
  {
    match Candidates(payload)
    case None => ""
    case Some(candidates) => Trim(Join(Collected(candidates), "\n"))
  }

  /** `extractGeminiText`: the nested loops over candidates and their parts. */
  method ExtractGeminiText(payload: Json) returns (r: string)
    ensures r == GeminiText(payload)
  {
    if !IsRecord(payload) || !IsArrayValue(Get(payload, "candidates")) {
      return "";
    }
    var candidates := Get(payload, "candidates").value.items;
    var collected: seq<string> := [];
    var c := 0;
    while c < |candidates|
      invariant 0 <= c <= |candidates|
      invariant collected == Collected(candidates[..c])
    {
      assert candidates[..c + 1][..c] == candidates[..c];
      var candidate := candidates[c];
      if IsRecord(candidate) && IsRecordValue(Get(candidate, "content"))
        && IsArrayValue(Get(Get(candidate, "content").value, "parts"))
      {
        var parts := Get(Get(candidate, "content").value, "parts").value.items;
        var before := collected;
        var p := 0;
        while p < |parts|
          invariant 0 <= p <= |parts|
          invariant collected == before + PartTexts(parts[..p])
        {
          assert parts[..p + 1][..p] == parts[..p];
          var part := parts[p];
          if IsRecord(part) && AsString(Get(part, "text")).Some? {
            collected := collected + [AsString(Get(part, "text")).value];
          }
          p := p + 1;
        }
        assert parts[..p] == parts;
      }
      c := c + 1;
    }
    assert candidates[..c] == candidates;
    r := Trim(Join(collected, "\n"));
  }

  /** The instruction lines before the summary; the last is "Meeting summary:". */
  const VideoPromptLines: seq<string> := [
    "You are a creative director for short-form video content.",
    "Given a meeting summary, write a single video generation prompt for Google Veo.",
    "The prompt should describe an engaging, fun 8-second vertical (9:16) video that recaps the meeting highlights.",
    "Include visual style, camera movement, colors, and energy level.",
    "Keep it to one concise paragraph (3-5 sentences). Return ONLY the prompt text, no JSON, no markdown.",
    "",
    "Meeting summary:"
  ]

  /** The prompt sent for a summary whose trimmed form is `normalized`. */
  function VideoPrompt(normalized: string): (r: string)
    ensures r == Join(VideoPromptLines, "\n") + "\n" + normalized
  {
    JoinAppend(VideoPromptLines, normalized, "\n");
    Join(VideoPromptLines + [normalized], "\n")
  }

  /** The prompt's last two lines are "Meeting summary:" and the summary. */
  lemma VideoPromptEndsWithSummary(normalized: string)
    ensures EndsWith(VideoPrompt(normalized), "Meeting summary:\n" + normalized)
  {
    var lines := VideoPromptLines;
    assert lines[|lines| - 1] == "Meeting summary:";
    JoinEndsWithLast(lines, "\n", normalized);
  }

  /**
   * `generateVideoPrompt`: the summary is checked before the API key is read; the prompt is
   * sent only with a key, and an empty extracted text is an error. Returns the prompt it sent.
   */
  function GenerateVideoPrompt(summary: string, apiKey: Option<string>, response: Result<Json>): (r: (Result<string>, Option<string>))
    ensures IsBlank(summary) ==> r == (Err(EmptySummaryError), None)
    ensures !IsBlank(summary) && !Truthy(apiKey) ==> r == (Err(MissingApiKeyError), None)
    ensures !IsBlank(summary) && Truthy(apiKey) ==> r.1 == Some(VideoPrompt(Trim(summary)))
    ensures r.0.Ok? ==> response.Ok? && r.0.value == GeminiText(response.value) && r.0.value != ""
    ensures !IsBlank(summary) && Truthy(apiKey) && response.Err? ==> r.0 == Err(response.message)
    ensures !IsBlank(summary) && Truthy(apiKey) && response.Ok? ==>
      r.0 == (if GeminiText(response.value) == "" then Err(NoContentError) else Ok(GeminiText(response.value)))
  {
    var normalizedSummary := Trim(summary);
    if normalizedSummary == "" then (Err(EmptySummaryError), None)
    else if !Truthy(apiKey) then (Err(MissingApiKeyError), None)
    else
      var prompt := VideoPrompt(normalizedSummary);
      match response
      case Err(message) => (Err(message), Some(prompt))
      case Ok(body) =>
        var modelText := GeminiText(body);
        if modelText == "" then (Err(NoContentError), Some(prompt)) else (Ok(modelText), Some(prompt))
  }

  /** A blank summary is rejected even when the API key is missing too. */
  lemma SummaryCheckedBeforeApiKey(response: Result<Json>)
    ensures GenerateVideoPrompt("  ", None, response).0 == Err(EmptySummaryError)
  {
    assert AllSpace("  ");
  }
}
