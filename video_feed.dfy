/**
 * The client-side helpers of the meeting feed: list keys, key points drawn
 * from a meeting summary, and the progress view folded from a run's
 * progress log.
 */
module VideoFeed {
  import opened Common
  import opened Text
  import opened JsValue
  import VideoPipeline

  // ---------------------------------------------------------------- keys

  /** `meetingKey`: the id when it is a string that is not blank, else `meeting-<index>`. */
  function MeetingKey(id: Option<Json>, index: nat): (r: string)
    ensures r != ""
    ensures AsString(id).Some? && !IsBlank(AsString(id).value) ==> r == AsString(id).value
    ensures !(AsString(id).Some? && !IsBlank(AsString(id).value)) ==> r == "meeting-" + NatToString(index)
  {
    if AsString(id).Some? && |Trim(AsString(id).value)| > 0 then AsString(id).value
    else "meeting-" + NatToString(index)
  }

  /** Meetings without a usable id get distinct keys at distinct positions. */
  lemma FallbackKeysDistinct(i: nat, j: nat)
    requires i != j
    ensures MeetingKey(None, i) != MeetingKey(None, j)
  {
    var a := MeetingKey(None, i);
    var b := MeetingKey(None, j);
    if a == b {
      assert a[8..] == NatToString(i) && b[8..] == NatToString(j);
      NatToStringInjective(i, j);
    }
  }

  // ---------------------------------------------------------- key points

  const Placeholders: seq<string> := [
    "Summary is not available for this meeting yet.",
    "Generate recap to create an AI avatar video.",
    "Swipe up for the next meeting."
  ]

  /** The characters the list-marker pattern `^[-*\d.\s]+` strips. */
  predicate IsMarker(c: char) {
    c == '-' || c == '*' || ('0' <= c <= '9') || c == '.' || IsSpace(c)
  }

  /** `line.replace(/^[-*\d.\s]+/, "")`: the line without its leading list markers. */
  function StripMarkers(line: string): string {
    if |line| > 0 && IsMarker(line[0]) then StripMarkers(line[1..]) else line
  }

  /** What is left after the markers is a suffix of the line that starts with no marker. */
  lemma {:induction false} StripMarkersSuffix(line: string)
    ensures var r := StripMarkers(line);
      |r| <= |line| && r == line[|line| - |r|..] && (r == [] || !IsMarker(r[0]))
  {
    if |line| > 0 && IsMarker(line[0]) {
      StripMarkersSuffix(line[1..]);
    }
  }

  /** `s.replace(/\r/g, "")`. */
  function RemoveReturns(s: string): (r: string)
    ensures '\r' !in r
    ensures |r| <= |s|
  {
    if |s| == 0 then ""
    else (if s[0] == '\r' then "" else [s[0]]) + RemoveReturns(s[1..])
  }

  /** One line without its list markers, trimmed. */
  function CleanLine(line: string): (r: string)
    ensures IsTrimmed(r)
  {
    var stripped := StripMarkers(line);
    Trim(stripped)
  }

  /** Each line cleaned. */
  function CleanLines(lines: seq<string>): (r: seq<string>)
    ensures |r| == |lines|
  {
    if |lines| == 0 then [] else [CleanLine(lines[0])] + CleanLines(lines[1..])
  }

  /** Line `k` of the cleaned lines is line `k` cleaned. */
  lemma {:induction false} CleanLinesAt(lines: seq<string>)
    ensures forall k :: 0 <= k < |lines| ==> CleanLines(lines)[k] == CleanLine(lines[k])
  {
    if |lines| > 0 {
      CleanLinesAt(lines[1..]);
      assert forall k :: 1 <= k < |lines| ==> lines[1..][k - 1] == lines[k];
    }
  }

  /** The non-empty cleaned lines of the summary, carriage returns removed. */
  function LineCandidates(summary: string): (r: seq<string>)
    ensures forall k :: 0 <= k < |r| ==> r[k] != "" && IsTrimmed(r[k])
  {
    var cleaned := CleanLines(Split(RemoveReturns(summary), '\n'));
    CleanLinesAt(Split(RemoveReturns(summary), '\n'));
    NonEmptyTrimmed(cleaned);
    NonEmpty(cleaned)
  }

  /** The non-empty trimmed pieces between `.`, `!` and `?`. */
  function SentenceCandidates(summary: string): (r: seq<string>)
    ensures forall k :: 0 <= k < |r| ==> r[k] != "" && IsTrimmed(r[k])
  {
    NonEmptyTrimmed(TrimAll(SplitOnAny(summary, {'.', '!', '?'})));
    NonEmpty(TrimAll(SplitOnAny(summary, {'.', '!', '?'})))
  }

  /**
   * `summarizeKeyPoints` of the feed: three fixed placeholders for an absent or blank summary;
   * else the first three cleaned lines, or, when no line survives, the first three sentences.
   */
  function SummarizeKeyPoints(summary: Option<string>): (r: seq<string>)
    ensures |r| <= 3
    ensures summary.None? || IsBlank(summary.value) ==> r == Placeholders
    ensures summary.Some? && !IsBlank(summary.value) && LineCandidates(summary.value) != [] ==>
      r == Take(LineCandidates(summary.value), 3)
    ensures summary.Some? && !IsBlank(summary.value) && LineCandidates(summary.value) == [] ==>
      r == Take(SentenceCandidates(summary.value), 3)
  {
    if summary.None? || IsBlank(summary.value) then Placeholders
    else
      var lines := LineCandidates(summary.value);
      if |lines| > 0 then Take(lines, 3) else Take(SentenceCandidates(summary.value), 3)
  }

  /** A prefix of non-empty trimmed strings is made of non-empty trimmed strings. */
  lemma TakeKeepsTrimmed(xs: seq<string>, n: nat)
    requires forall k :: 0 <= k < |xs| ==> xs[k] != "" && IsTrimmed(xs[k])
    ensures forall k :: 0 <= k < |Take(xs, n)| ==> Take(xs, n)[k] != "" && IsTrimmed(Take(xs, n)[k])
  {
    var r := Take(xs, n);
    forall k | 0 <= k < |r|
      ensures r[k] != "" && IsTrimmed(r[k])
    {
      assert r[k] == xs[k];
    }
  }

  /** Every key point of a summary that is not blank is non-empty and trimmed. */
  lemma KeyPointsTrimmed(summary: string)
    requires !IsBlank(summary)
    ensures var r := SummarizeKeyPoints(Some(summary));
      forall k :: 0 <= k < |r| ==> r[k] != "" && IsTrimmed(r[k])
  {
    var r := SummarizeKeyPoints(Some(summary));
    var source := if LineCandidates(summary) != [] then LineCandidates(summary) else SentenceCandidates(summary);
    assert forall k :: 0 <= k < |source| ==> source[k] != "" && IsTrimmed(source[k]);
    assert r == Take(source, 3);
    TakeKeepsTrimmed(source, 3);
  }

  /** Trimming keeps a substring. */
  lemma TrimContained(s: string)
    ensures Contains(s, Trim(s))
  {
    var t := TrimStart(s);
    var r := TrimEnd(t);
    TrimStartFacts(s);
    TrimEndFacts(t);
    assert Trim(s) == r;
    var i := |s| - |t|;
    assert s[i..i + |r|] == t[..|r|] == r;
    ContainsAt(s, r, i);
  }

  /** Every piece of a split string occurs in it. */
  lemma SplitPartsContained(s: string, sep: char)
    ensures forall k :: 0 <= k < |Split(s, sep)| ==> Contains(s, Split(s, sep)[k])
  {
    JoinSplit(s, sep);
    forall k | 0 <= k < |Split(s, sep)|
      ensures Contains(s, Split(s, sep)[k])
    {
      JoinContainsPart(Split(s, sep), [sep], k);
    }
  }

  /** Every piece of a string split on several separators occurs in it, the first at its start. */
  lemma {:induction false} SplitOnAnyPartsContained(s: string, seps: set<char>)
    ensures StartsWith(s, SplitOnAny(s, seps)[0])
    ensures forall k :: 0 <= k < |SplitOnAny(s, seps)| ==> Contains(s, SplitOnAny(s, seps)[k])
  {
    var r := SplitOnAny(s, seps);
    if |s| == 0 {
      ContainsAt(s, r[0], 0);
    } else {
      var rest := SplitOnAny(s[1..], seps);
      SplitOnAnyPartsContained(s[1..], seps);
      assert s == [s[0]] + s[1..];
      forall k | 0 <= k < |rest|
        ensures Contains(s, rest[k])
      {
        ContainsShift([s[0]], s[1..], rest[k]);
      }
      if s[0] in seps {
        assert r == [""] + rest;
        ContainsAt(s, "", 0);
        forall k | 1 <= k < |r|
          ensures Contains(s, r[k])
        {
          assert r[k] == rest[k - 1];
        }
      } else {
        var head := [s[0]] + rest[0];
        assert r == [head] + rest[1..];
        assert s[..|head|] == head;
        ContainsAt(s, head, 0);
        forall k | 1 <= k < |r|
          ensures Contains(s, r[k])
        {
          assert r[k] == rest[k];
        }
      }
    }
  }

  /** A cleaned line occurs in the line. */
  lemma CleanedLineContained(line: string)
    ensures Contains(line, CleanLine(line))
  {
    var stripped := StripMarkers(line);
    StripMarkersSuffix(line);
    var i := |line| - |stripped|;
    assert line[i..i + |stripped|] == line[i..] == stripped;
    TrimContained(stripped);
    ContainsAt(line, stripped, i);
    ContainsTransitive(line, stripped, Trim(stripped));
    assert CleanLine(line) == Trim(stripped);
  }

  /** Each cleaned line occurs in the summary once carriage returns are removed. */
  lemma LineCandidatesContained(summary: string)
    ensures forall k :: 0 <= k < |LineCandidates(summary)| ==> Contains(RemoveReturns(summary), LineCandidates(summary)[k])
  {
    var text := RemoveReturns(summary);
    var lines := Split(text, '\n');
    var cleaned := CleanLines(lines);
    CleanLinesAt(lines);
    SplitPartsContained(text, '\n');
    NonEmptyMembers(cleaned);
    forall c | c in cleaned
      ensures Contains(text, c)
    {
      var j :| 0 <= j < |cleaned| && cleaned[j] == c;
      CleanedLineContained(lines[j]);
      assert Contains(text, lines[j]);
      ContainsTransitive(text, lines[j], c);
    }
  }

  /** Each sentence occurs in the summary. */
  lemma SentenceCandidatesContained(summary: string)
    ensures forall k :: 0 <= k < |SentenceCandidates(summary)| ==> Contains(summary, SentenceCandidates(summary)[k])
  {
    var pieces := SplitOnAny(summary, {'.', '!', '?'});
    var trimmed := TrimAll(pieces);
    SplitOnAnyPartsContained(summary, {'.', '!', '?'});
    NonEmptyMembers(trimmed);
    forall c | c in trimmed
      ensures Contains(summary, c)
    {
      var j :| 0 <= j < |trimmed| && trimmed[j] == c;
      TrimContained(pieces[j]);
      ContainsTransitive(summary, pieces[j], c);
    }
  }

  /**
   * Key points are excerpts: each occurs in the summary (with carriage returns removed when it
   * comes from a line) and none is made up.
   */
  lemma KeyPointsAreExcerpts(summary: string)
    requires !IsBlank(summary)
    ensures var r := SummarizeKeyPoints(Some(summary));
      forall k :: 0 <= k < |r| ==>
        Contains(if LineCandidates(summary) != [] then RemoveReturns(summary) else summary, r[k])
  {
    var r := SummarizeKeyPoints(Some(summary));
    var source := if LineCandidates(summary) != [] then LineCandidates(summary) else SentenceCandidates(summary);
    var text := if LineCandidates(summary) != [] then RemoveReturns(summary) else summary;
    LineCandidatesContained(summary);
    SentenceCandidatesContained(summary);
    assert forall k :: 0 <= k < |source| ==> Contains(text, source[k]);
    assert r == Take(source, 3);
    forall k | 0 <= k < |r|
      ensures Contains(text, r[k])
    {
      assert r[k] == source[k];
    }
  }

  /** A summary made only of dots has no lines and no sentences: no key points at all. */
  lemma DotsGiveNoKeyPoints()
    ensures SummarizeKeyPoints(Some("...")) == []
  {
    var dots := "...";
    assert !IsSpace(dots[0]) && Trim(dots) != "";
    assert RemoveReturns(dots[2..]) == dots[2..];
    assert RemoveReturns(dots[1..]) == dots[1..];
    assert RemoveReturns(dots) == dots;
    assert Split(dots[2..], '\n') == [dots[2..]];
    assert Split(dots[1..], '\n') == [dots[1..]];
    assert Split(dots, '\n') == [dots];
    assert StripMarkers(dots) == "";
    assert CleanLines([dots]) == [""];
    assert LineCandidates(dots) == [];
    assert SplitOnAny(dots, {'.', '!', '?'}) == ["", "", "", ""];
    assert TrimAll(["", "", "", ""]) == ["", "", "", ""];
    assert SentenceCandidates(dots) == [];
  }

  // ------------------------------------------------------------ progress

  /** One progress event as the feed reads it: every field that is not a string is absent. */
  datatype FeedEvent = FeedEvent(step: Option<string>, status: Option<string>, message: Option<string>, timestamp: Option<string>)

  /** `field` is the string held under `name`, or absent when `name` holds no string. */
  predicate ReadsString(entry: Json, name: string, field: Option<string>) {
    match field
    case Some(s) => Get(entry, name) == Some(JStr(s))
    case None => Get(entry, name).None? || !Get(entry, name).value.JStr?
  }

  /** The event read from one record of the progress array: each field its string, else absent. */
  function EventOf(entry: Json): (r: FeedEvent)
    ensures ReadsString(entry, "step", r.step) && ReadsString(entry, "status", r.status)
    ensures ReadsString(entry, "message", r.message) && ReadsString(entry, "timestamp", r.timestamp)
  {
    FeedEvent(
      AsString(Get(entry, "step")), AsString(Get(entry, "status")),
      AsString(Get(entry, "message")), AsString(Get(entry, "timestamp")))
  }

  /** The events of the records among `items`, in order; other entries are skipped. */
  function NormalizedEvents(items: seq<Json>): (r: seq<FeedEvent>)
    ensures |r| <= |items|
  {
    if |items| == 0 then []
    else
      var last := items[|items| - 1];
      NormalizedEvents(items[..|items| - 1]) + (if IsRecord(last) then [EventOf(last)] else [])
  }

  /** `normalizeProgressEvents`: nothing for a value that is not an array, else one event per record. */
  method NormalizeProgressEvents(progress: Option<Json>) returns (events: seq<FeedEvent>)
    ensures !IsArrayValue(progress) ==> events == []
    ensures IsArrayValue(progress) ==> events == NormalizedEvents(progress.value.items)
  {
    if !IsArrayValue(progress) {
      return [];
    }
    var items := progress.value.items;
    events := [];
    var k := 0;
    while k < |items|
      invariant 0 <= k <= |items|
      invariant events == NormalizedEvents(items[..k])
    {
      assert items[..k + 1][..k] == items[..k];
      if IsRecord(items[k]) {
        events := events + [EventOf(items[k])];
      }
      k := k + 1;
    }
    assert items[..k] == items;
  }

  /** When every entry is a record, event `k` is read from entry `k`. */
  lemma {:induction false} AllRecordsKept(items: seq<Json>)
    requires forall k :: 0 <= k < |items| ==> IsRecord(items[k])
    ensures |NormalizedEvents(items)| == |items|
    ensures forall k :: 0 <= k < |items| ==> NormalizedEvents(items)[k] == EventOf(items[k])
  {
    if |items| > 0 {
      var init := items[..|items| - 1];
      AllRecordsKept(init);
      assert forall k :: 0 <= k < |init| ==> init[k] == items[k];
    }
  }

  /** A non-record entry, such as `null` or a number, adds no event. */
  lemma {:induction false} NonRecordSkipped(items: seq<Json>, entry: Json)
    requires !IsRecord(entry)
    ensures NormalizedEvents(items + [entry]) == NormalizedEvents(items)
  {
    assert (items + [entry])[..|items|] == items;
  }

  /** The statuses a feed step can show. */
  datatype StepState = Pending | Running | Completed | Failed

  /** The status names the feed recognises. */
  function Recognised(status: Option<string>): (r: Option<StepState>)
    ensures r.Some? ==> r.value != Pending
  {
    if status == Some("running") then Some(Running)
    else if status == Some("completed") then Some(Completed)
    else if status == Some("failed") then Some(Failed)
    else None
  }

  /** Whether an event sets the status of `step`. */
  predicate Sets(event: FeedEvent, step: string) {
    event.step == Some(step) && Recognised(event.status).Some?
  }

  /** The status of `step` after `events`: the last recognised status of that step, else pending. */
  function StatusFrom(events: seq<FeedEvent>, step: string): (r: StepState)
    ensures r != Pending ==> Some(r) in RecognisedOf(events, step)
  {
    if |events| == 0 then Pending
    else
      var last := events[|events| - 1];
      if Sets(last, step) then Recognised(last.status).value else StatusFrom(events[..|events| - 1], step)
  }

  /** The recognised statuses the events of `step` carry. */
  ghost function RecognisedOf(events: seq<FeedEvent>, step: string): set<Option<StepState>> {
    set k | 0 <= k < |events| && events[k].step == Some(step) :: Recognised(events[k].status)
  }

  /** `statusFromProgress`. */
  method StatusFromProgress(progress: seq<FeedEvent>, step: string) returns (currentStatus: StepState)
    ensures currentStatus == StatusFrom(progress, step)
  {
    currentStatus := Pending;
    for k := 0 to |progress|
      invariant currentStatus == StatusFrom(progress[..k], step)
    {
      assert progress[..k + 1][..k] == progress[..k];
      var event := progress[k];
      if event.step != Some(step) {
        continue;
      }
      var recognised := Recognised(event.status);
      if recognised.Some? {
        currentStatus := recognised.value;
      }
    }
    assert progress[..|progress|] == progress;
  }

  /**
   * The status is pending exactly when no event sets the step; otherwise it is the status of the
   * last event that does, and later events of other steps or with unknown statuses change nothing.
   */
  lemma {:induction false} StatusIsLastSetting(events: seq<FeedEvent>, step: string) returns (j: int)
    ensures -1 <= j < |events|
    ensures j == -1 <==> StatusFrom(events, step) == Pending
    ensures j == -1 ==> forall i :: 0 <= i < |events| ==> !Sets(events[i], step)
    ensures j >= 0 ==> Sets(events[j], step) && StatusFrom(events, step) == Recognised(events[j].status).value
    ensures j >= 0 ==> forall i :: j < i < |events| ==> !Sets(events[i], step)
  {
    if |events| == 0 {
      j := -1;
    } else {
      var init := events[..|events| - 1];
      var last := events[|events| - 1];
      if Sets(last, step) {
        j := |events| - 1;
      } else {
        j := StatusIsLastSetting(init, step);
        assert forall i :: 0 <= i < |init| ==> init[i] == events[i];
      }
    }
  }

  // ---------------------------------------------------------------- view

  const SummaryLabel: string := "Fetching summary"
  const PromptLabel: string := "Generating prompt"
  const VideoLabel: string := "Creating video"
  const SavingLabel: string := "Saving video"
  const FailedHeadline: string := "Generation failed"
  const DefaultDetail: string := "Preparing recap generation."

  /** The feed's own step names, in display order. */
  const FeedSteps: seq<string> := ["summary", "prompt", "video", "saving"]
  const FeedLabels: seq<string> := [SummaryLabel, PromptLabel, VideoLabel, SavingLabel]

  datatype StepView = StepView(id: string, caption: string, status: StepState)

  datatype ProgressView = ProgressView(headline: string, detail: string, steps: seq<StepView>)

  predicate Active(s: StepState) {
    s == Running || s == Completed
  }

  /**
   * The headline: "Generation failed" when any step failed; otherwise the label of the furthest
   * step that is running or done (a finished summary already counts as the prompt step).
   */
  function Headline(summary: StepState, prompt: StepState, video: StepState, saving: StepState): (h: string)
    ensures summary == Failed || prompt == Failed || video == Failed || saving == Failed ==> h == FailedHeadline
    ensures !(summary == Failed || prompt == Failed || video == Failed || saving == Failed) ==>
      h == (if Active(saving) then SavingLabel
            else if Active(video) then VideoLabel
            else if Active(prompt) || summary == Completed then PromptLabel
            else SummaryLabel)
  {
    var headline :=
      if Active(saving) then SavingLabel
      else if Active(video) then VideoLabel
      else if Active(prompt) then PromptLabel
      else if summary == Completed then PromptLabel
      else SummaryLabel;
    if summary == Failed || prompt == Failed || video == Failed || saving == Failed then FailedHeadline else headline
  }

  /** The headline says "Generation failed" only when a step failed. */
  lemma FailedHeadlineOnlyOnFailure(summary: StepState, prompt: StepState, video: StepState, saving: StepState)
    ensures Headline(summary, prompt, video, saving) == FailedHeadline <==>
      summary == Failed || prompt == Failed || video == Failed || saving == Failed
  {
    assert FailedHeadline[0] == 'G' && SummaryLabel[0] == 'F' && VideoLabel[0] == 'C' && SavingLabel[0] == 'S';
    assert FailedHeadline[8] == 'o' && PromptLabel[8] == 'n';
  }

  /** `buildProgressView`. */
  function BuildProgressView(progress: seq<FeedEvent>): (v: ProgressView)
    ensures |v.steps| == 4
    ensures forall k :: 0 <= k < 4 ==>
      v.steps[k] == StepView(FeedSteps[k], FeedLabels[k], StatusFrom(progress, FeedSteps[k]))
    ensures v.detail == if |progress| > 0 && progress[|progress| - 1].message.Some?
      then progress[|progress| - 1].message.value else DefaultDetail
    ensures v.headline == Headline(v.steps[0].status, v.steps[1].status, v.steps[2].status, v.steps[3].status)
  {
    var statuses := seq(4, k requires 0 <= k < 4 => StatusFrom(progress, FeedSteps[k]));
    var steps := seq(4, k requires 0 <= k < 4 => StepView(FeedSteps[k], FeedLabels[k], statuses[k]));
    var detail := if |progress| > 0 && progress[|progress| - 1].message.Some?
      then progress[|progress| - 1].message.value else DefaultDetail;
    ProgressView(Headline(statuses[0], statuses[1], statuses[2], statuses[3]), detail, steps)
  }

  /** The event the feed reads from one entry of a pipeline progress log. */
  function FromPipeline(e: VideoPipeline.ProgressEvent, formatTime: int -> string): FeedEvent {
    FeedEvent(
      Some(VideoPipeline.StepName(e.step)), Some(VideoPipeline.StepStatusName(e.status)),
      Some(e.message), Some(formatTime(e.timestamp)))
  }

  /** No step name the pipeline writes is one the feed reads. */
  lemma StepNamesDisjoint(p: VideoPipeline.Step, k: nat)
    requires k < 4
    ensures VideoPipeline.StepName(p) != FeedSteps[k]
  {
    var name := VideoPipeline.StepName(p);
    assert "pipeline"[1] == 'i' && "script"[1] == 'c' && "clips"[0] == 'c' && "stitching"[1] == 't';
    assert "video_storage"[5] == '_';
    assert FeedSteps[0][0] == 's' && FeedSteps[0][1] == 'u' && |FeedSteps[0]| == 7;
    assert FeedSteps[1][1] == 'r' && |FeedSteps[1]| == 6;
    assert FeedSteps[2][0] == 'v' && |FeedSteps[2]| == 5;
    assert FeedSteps[3][1] == 'a' && |FeedSteps[3]| == 6;
  }

  /** A step no event names stays pending. */
  lemma {:induction false} UnnamedStepPending(events: seq<FeedEvent>, step: string)
    requires forall i :: 0 <= i < |events| ==> events[i].step != Some(step)
    ensures StatusFrom(events, step) == Pending
  {
    if |events| > 0 {
      UnnamedStepPending(events[..|events| - 1], step);
    }
  }

  /**
   * The feed and the pipeline disagree on step names, so a log the pipeline writes shows every
   * step of the feed as pending, under the summary headline, whatever the run did.
   */
  lemma PipelineLogShowsAllPending(log: seq<VideoPipeline.ProgressEvent>, formatTime: int -> string)
    ensures var events := seq(|log|, i requires 0 <= i < |log| => FromPipeline(log[i], formatTime));
      var v := BuildProgressView(events);
      (forall k :: 0 <= k < 4 ==> v.steps[k].status == Pending) && v.headline == SummaryLabel
  {
    var events := seq(|log|, i requires 0 <= i < |log| => FromPipeline(log[i], formatTime));
    forall k | 0 <= k < 4
      ensures StatusFrom(events, FeedSteps[k]) == Pending
    {
      forall i | 0 <= i < |events|
        ensures events[i].step != Some(FeedSteps[k])
      {
        StepNamesDisjoint(log[i].step, k);
      }
      UnnamedStepPending(events, FeedSteps[k]);
    }
  }
}
