/**
 * The run orchestrator: two in-memory tables (runs and stored video assets)
 * with lazy time-to-live eviction, unique run ids, an append-only progress
 * log per run and the `running -> completed | failed` run machine.
 *
 * The clock is the parameter `now` (milliseconds); every clock reading inside
 * one public call is that instant. Fresh UUIDs are the draws `uuid(k)` of an
 * injected generator, `next` being the first unused draw. The script, clip
 * and stitch collaborators are the outcomes held in `Collaborators`.
 */
module VideoPipeline {
  import opened Common
  import opened Text

  const RunTtlMs: int := 60 * 60 * 1000
  const VideoTtlMs: int := 30 * 60 * 1000
  const VideoUrlPrefix: string := "/api/generate-video?videoId="
  const NotDataUrlError: string := "Stitched video must be returned as a base64 data URL."
  const MissingPayloadError: string := "Stitched video data URL is missing payload data."
  const MissingHostedUrlsError: string := "Veo did not return hosted clip URLs for every generated chunk."

  datatype RunStatus = Running | Completed | Failed

  datatype Step = Pipeline | Script | Clips | Stitching | VideoStorage

  datatype StepStatus = StepRunning | StepCompleted | StepFailed

  /** The names the progress log carries on the wire. */
  function StepName(s: Step): string {
    match s
    case Pipeline => "pipeline"
    case Script => "script"
    case Clips => "clips"
    case Stitching => "stitching"
    case VideoStorage => "video_storage"
  }

  function StepStatusName(s: StepStatus): string {
    match s
    case StepRunning => "running"
    case StepCompleted => "completed"
    case StepFailed => "failed"
  }

  /** One entry of a run's progress log; `timestamp` is in milliseconds. */
  datatype ProgressEvent = ProgressEvent(step: Step, status: StepStatus, message: string, timestamp: int)

  /** The copy of a run that callers receive (`cloneRun`): a value, so it shares nothing with the stored run. */
  datatype RunView = RunView(
    runId: string, meetingId: string, status: RunStatus, progress: seq<ProgressEvent>,
    createdAt: int, updatedAt: int, expiresAt: int,
    videoId: Option<string>, videoUrl: Option<string>, mimeType: Option<string>, error: Option<string>)

  datatype StoredVideoAsset = StoredVideoAsset(videoId: string, mimeType: string, buffer: seq<bv8>, createdAt: int, expiresAt: int)

  datatype StoredVideoPlayback = StoredVideoPlayback(videoId: string, videoUrl: string, mimeType: string, expiresAt: int)

  /** The two capture groups of an accepted data URL, trimmed, with the fallback mime type applied. */
  datatype ParsedVideo = ParsedVideo(mimeType: string, base64Payload: string)

  /** What the pipeline reads of one generated clip. */
  datatype GeneratedClip = GeneratedClip(url: Option<string>)

  /** The stitcher's answer: a data URL and its mime type. */
  datatype StitchOutput = StitchOutput(videoUrl: string, mimeType: string)

  /**
   * The collaborators of one run: the script generator's chunk count, the clips,
   * the stitcher's output, base64 decoding and `encodeURIComponent`.
   */
  datatype Collaborators = Collaborators(
    script: Result<nat>,
    clips: Result<seq<GeneratedClip>>,
    stitch: Result<StitchOutput>,
    decodeBase64: string -> seq<bv8>,
    encodeUri: string -> string)

  datatype GeneratedMeetingVideo = GeneratedMeetingVideo(
    runId: string, meetingId: string, videoId: string, videoUrl: string,
    mimeType: string, expiresAt: int, progress: seq<ProgressEvent>)

  datatype GenerateResult =
    | GenOk(data: GeneratedMeetingVideo)
    | GenFailed(runId: string, error: string, progress: seq<ProgressEvent>)

  /** `sanitizeOptionalIdentifier`: the trimmed identifier, or `None` when absent or blank. */
  function SanitizeOptionalIdentifier(value: Option<string>): (r: Option<string>)
    ensures r.None? <==> value.None? || IsBlank(value.value)
    ensures r.Some? ==> r.value == Trim(value.value) && r.value != "" && IsTrimmed(r.value)
  {
    if value.None? then None
    else
      var normalized := Trim(value.value);
      if normalized == "" then None else Some(normalized)
  }

  /** Index of the first `;` or `,` in `s` (or `|s|`): where the regex group `[^;,]+` must stop. */
  function MimeEnd(s: string): (i: nat)
    ensures i <= |s|
    ensures forall k :: 0 <= k < i ==> s[k] != ';' && s[k] != ','
    ensures i < |s| ==> s[i] == ';' || s[i] == ','
  {
    if |s| == 0 || s[0] == ';' || s[0] == ',' then 0 else 1 + MimeEnd(s[1..])
  }

  /** The regex `^data:([^;,]+);base64,([\s\S]+)$`: its two capture groups, or `None` when it does not match. */
  function MatchDataUrl(url: string): (r: Option<(string, string)>)
    ensures !StartsWith(url, "data:") ==> r.None?
    ensures r.Some? ==> r.value.0 != "" && r.value.1 != "" && |url| == 5 + |r.value.0| + 8 + |r.value.1|
  {
    if !StartsWith(url, "data:") then None
    else
      var rest := url[5..];
      var i := MimeEnd(rest);
      if i == 0 || !StartsWith(rest[i..], ";base64,") || |rest| == i + 8 then None
      else Some((rest[..i], rest[i + 8..]))
  }

  /** A match splits the URL into the prefix, a mime group, `;base64,` and a non-empty payload. */
  lemma MatchDataUrlSplits(url: string)
    requires MatchDataUrl(url).Some?
    ensures var g := MatchDataUrl(url).value;
      IsMimeGroup(g.0) && g.1 != "" && url == "data:" + g.0 + ";base64," + g.1
  {
    var rest := url[5..];
    var i := MimeEnd(rest);
    assert rest == rest[..i] + rest[i..i + 8] + rest[i + 8..];
    assert url == url[..5] + rest;
    assert ';' !in rest[..i] && ',' !in rest[..i] by {
      forall k | 0 <= k < i ensures rest[..i][k] != ';' && rest[..i][k] != ',' { }
    }
  }

  /** The mime group cannot run into `;base64,`, so each well-formed URL has exactly one reading. */
  lemma MatchDataUrlOfParts(m: string, p: string)
    requires IsMimeGroup(m) && p != ""
    ensures MatchDataUrl("data:" + m + ";base64," + p) == Some((m, p))
  {
    var url := "data:" + m + ";base64," + p;
    assert url[..5] == "data:";
    var rest := url[5..];
    assert rest == m + (";base64," + p);
    MimeEndOfGroup(m, ";base64," + p);
    assert rest[|m|..] == ";base64," + p;
    assert rest[|m|..][..8] == ";base64,";
    assert rest[..|m|] == m;
    assert rest[|m| + 8..] == p;
  }

  /** `parseStitchedVideoDataUrl`: the trimmed groups, the fallback for a blank mime, an error for a blank payload. */
  function ParseStitchedVideoDataUrl(url: string, fallbackMimeType: string): (r: Result<ParsedVideo>)
    ensures r.Ok? ==> r.value.base64Payload != "" && IsTrimmed(r.value.base64Payload)
    ensures r.Err? ==> r.message == NotDataUrlError || r.message == MissingPayloadError
  {
    match MatchDataUrl(url)
    case None => Err(NotDataUrlError)
    case Some((mime, payload)) =>
      var mimeType := Trim(mime);
      var data := Trim(payload);
      if data == "" then Err(MissingPayloadError)
      else Ok(ParsedVideo(if mimeType == "" then fallbackMimeType else mimeType, data))
  }

  /** A mime group the regex accepts: non-empty, without `;` or `,`. */
  predicate IsMimeGroup(m: string) {
    m != "" && ';' !in m && ',' !in m
  }

  lemma {:induction false} MimeEndOfGroup(m: string, tail: string)
    requires ';' !in m && ',' !in m
    requires |tail| > 0 && tail[0] == ';'
    ensures MimeEnd(m + tail) == |m|
  {
    if |m| > 0 {
      assert (m + tail)[1..] == m[1..] + tail;
      MimeEndOfGroup(m[1..], tail);
    } else {
      assert m + tail == tail;
    }
  }

  /**
   * Writing a data URL and parsing it back: the trimmed mime (or the fallback when it
   * trims to nothing) and the trimmed payload, for every payload that is not blank.
   */
  lemma ParseDataUrlRoundTrip(m: string, p: string, fallback: string)
    requires IsMimeGroup(m) && !IsBlank(p)
    ensures ParseStitchedVideoDataUrl("data:" + m + ";base64," + p, fallback)
      == Ok(ParsedVideo(if Trim(m) == "" then fallback else Trim(m), Trim(p)))
  {
    MatchDataUrlOfParts(m, p);
  }

  /** A payload of white space only passes the regex but is rejected after trimming. */
  lemma ParseRejectsBlankPayload(m: string, p: string, fallback: string)
    requires IsMimeGroup(m) && p != "" && IsBlank(p)
    ensures ParseStitchedVideoDataUrl("data:" + m + ";base64," + p, fallback) == Err(MissingPayloadError)
  {
    MatchDataUrlOfParts(m, p);
  }

  /** An empty payload does not match the regex at all. */
  lemma ParseRejectsEmptyPayload(m: string, fallback: string)
    requires IsMimeGroup(m)
    ensures ParseStitchedVideoDataUrl("data:" + m + ";base64,", fallback) == Err(NotDataUrlError)
  {
  }

  /** A clip whose `url` is a string that is not blank. */
  predicate IsHosted(c: GeneratedClip) {
    c.url.Some? && !IsBlank(c.url.value)
  }

  /** `clips.map((clip) => clip.url).filter(non-blank string)`. */
  function HostedUrls(clips: seq<GeneratedClip>): (r: seq<string>)
    ensures |r| <= |clips|
  {
    if |clips| == 0 then []
    else if IsHosted(clips[0]) then [clips[0].url.value] + HostedUrls(clips[1..])
    else HostedUrls(clips[1..])
  }

  lemma {:induction false} HostedUrlsAll(clips: seq<GeneratedClip>)
    ensures |HostedUrls(clips)| == |clips| <==> forall i :: 0 <= i < |clips| ==> IsHosted(clips[i])
    ensures |HostedUrls(clips)| == |clips| ==>
      forall i :: 0 <= i < |clips| ==> HostedUrls(clips)[i] == clips[i].url.value
  {
    if |clips| > 0 {
      HostedUrlsAll(clips[1..]);
      var tail := clips[1..];
      assert forall i :: 1 <= i < |clips| ==> clips[i] == tail[i - 1];
    }
  }

  /**
   * `extractHostedClipUrls`: succeeds exactly when every clip has a non-blank url, and then
   * gives those urls, untrimmed, in clip order.
   */
  function ExtractHostedClipUrls(clips: seq<GeneratedClip>): (r: Result<seq<string>>)
    ensures r.Ok? <==> forall i :: 0 <= i < |clips| ==> IsHosted(clips[i])
    ensures r.Err? ==> r.message == MissingHostedUrlsError
    ensures r.Ok? ==> |r.value| == |clips| && forall i :: 0 <= i < |clips| ==> r.value[i] == clips[i].url.value
  {
    HostedUrlsAll(clips);
    var hosted := HostedUrls(clips);
    if |hosted| != |clips| then Err(MissingHostedUrlsError) else Ok(hosted)
  }

  /** How many of the script, clips and stitching stages a run gets through. */
  function StagesBeforeStorage(env: Collaborators): (r: nat)
    ensures r <= 3
  {
    if env.script.Err? then 0
    else if env.clips.Err? || ExtractHostedClipUrls(env.clips.value).Err? then 1
    else if env.stitch.Err? then 2
    else 3
  }

  /** How many of the four stages (script, clips, stitching, storage) a run gets through. */
  function StagesPassed(env: Collaborators): (r: nat)
    ensures r <= 4
  {
    if StagesBeforeStorage(env) < 3 then StagesBeforeStorage(env)
    else if ParseStitchedVideoDataUrl(env.stitch.value.videoUrl, env.stitch.value.mimeType).Err? then 3
    else 4
  }

  /** The message of the error that stops a run in one of its first three stages. */
  function EarlyFailureMessage(env: Collaborators): string
    requires StagesBeforeStorage(env) < 3
  {
    if env.script.Err? then env.script.message
    else if env.clips.Err? then env.clips.message
    else if ExtractHostedClipUrls(env.clips.value).Err? then ExtractHostedClipUrls(env.clips.value).message
    else env.stitch.message
  }

  /** The message of the error that stops a run. */
  function FailureMessage(env: Collaborators): string
    requires StagesPassed(env) < 4
  {
    if StagesBeforeStorage(env) < 3 then EarlyFailureMessage(env)
    else ParseStitchedVideoDataUrl(env.stitch.value.videoUrl, env.stitch.value.mimeType).message
  }

  /** A run stopped before storage fails with the early stage's message. */
  lemma EarlyFailure(env: Collaborators)
    requires StagesBeforeStorage(env) < 3
    ensures StagesPassed(env) == StagesBeforeStorage(env) && FailureMessage(env) == EarlyFailureMessage(env)
  {
  }

  /** A run that reaches storage passes it exactly when the stitched data URL parses. */
  lemma StorageOutcome(env: Collaborators)
    requires StagesBeforeStorage(env) == 3
    ensures var parsed := ParseStitchedVideoDataUrl(env.stitch.value.videoUrl, env.stitch.value.mimeType);
      && (StagesPassed(env) == 4 <==> parsed.Ok?)
      && (parsed.Err? ==> StagesPassed(env) == 3 && FailureMessage(env) == parsed.message)
  {
  }

  /** The step of event `i` of the ten a run logs when every stage succeeds. */
  function PlannedStep(i: nat): Step
    requires i < 10
  {
    if i == 0 || i == 9 then Pipeline
    else if i <= 2 then Script
    else if i <= 4 then Clips
    else if i <= 6 then Stitching
    else VideoStorage
  }

  /** The status of planned event `i`: `running` for the odd events and the first, `completed` for the rest. */
  function PlannedStatus(i: nat): StepStatus
    requires i < 10
  {
    if i == 0 || (i % 2 == 1 && i < 9) then StepRunning else StepCompleted
  }

  /** The message of planned event `i`. */
  function PlannedMessage(i: nat, chunkCount: nat, clipCount: nat): string
    requires i < 10
  {
    match i
    case 0 => "Video generation started."
    case 1 => "Generating meeting recap script."
    case 2 => "Generated " + NatToString(chunkCount) + " script chunks."
    case 3 => "Generating Veo clips from script chunks."
    case 4 => "Generated " + NatToString(clipCount) + " video clips."
    case 5 => "Stitching clips into one recap video."
    case 6 => "Finished stitching recap video."
    case 7 => "Caching generated video for temporary playback."
    case 8 => "Generated video is ready for playback."
    case _ => "Video generation finished successfully."
  }

  /** Event `i` of the ten a run logs when every stage succeeds. */
  function PlannedEvent(i: nat, chunkCount: nat, clipCount: nat, now: int): ProgressEvent
    requires i < 10
  {
    ProgressEvent(PlannedStep(i), PlannedStatus(i), PlannedMessage(i, chunkCount, clipCount), now)
  }

  /** The first `k` planned events. */
  function PlannedLog(k: nat, chunkCount: nat, clipCount: nat, now: int): (r: seq<ProgressEvent>)
    requires k <= 10
    ensures |r| == k
  {
    seq(k, i requires 0 <= i < k => PlannedEvent(i, chunkCount, clipCount, now))
  }

  /** Each step of the run appends the next planned event. */
  lemma PlannedLogNext(k: nat, chunkCount: nat, clipCount: nat, now: int)
    requires k < 10
    ensures PlannedLog(k + 1, chunkCount, clipCount, now)
      == PlannedLog(k, chunkCount, clipCount, now) + [PlannedEvent(k, chunkCount, clipCount, now)]
  {
    var longer := PlannedLog(k + 1, chunkCount, clipCount, now);
    var extended := PlannedLog(k, chunkCount, clipCount, now) + [PlannedEvent(k, chunkCount, clipCount, now)];
    var shorter := PlannedLog(k, chunkCount, clipCount, now);
    forall i | 0 <= i < k + 1
      ensures longer[i] == extended[i]
    {
      if i < k {
        assert extended[i] == shorter[i];
      }
    }
  }

  function ChunkCount(env: Collaborators): nat {
    if env.script.Ok? then env.script.value else 0
  }

  function ClipCount(env: Collaborators): nat {
    if env.clips.Ok? then |env.clips.value| else 0
  }

  /** The log of a run that gets through the first `k` events of the plan. */
  function PlannedLogFor(env: Collaborators, k: nat, now: int): (r: seq<ProgressEvent>)
    requires k <= 10
    ensures |r| == k
  {
    PlannedLog(k, ChunkCount(env), ClipCount(env), now)
  }

  /**
   * The log of a run that gets through every stage: the first eight planned events stamped
   * `now`, and the last two stamped `storeNow`, the instant of the storage step.
   */
  function SuccessLog(env: Collaborators, now: int, storeNow: int): seq<ProgressEvent> {
    var cc, kc := ChunkCount(env), ClipCount(env);
    PlannedLogFor(env, 8, now) + [PlannedEvent(8, cc, kc, storeNow), PlannedEvent(9, cc, kc, storeNow)]
  }

  /**
   * The last two events of the success log, as `generateMeetingVideo` appends them; with one
   * instant throughout the success log is the whole plan.
   */
  lemma StorageEvents(env: Collaborators, now: int, storeNow: int)
    ensures SuccessLog(env, now, storeNow) == PlannedLogFor(env, 8, now) + [
      ProgressEvent(VideoStorage, StepCompleted, "Generated video is ready for playback.", storeNow),
      ProgressEvent(Pipeline, StepCompleted, "Video generation finished successfully.", storeNow)]
    ensures SuccessLog(env, now, now) == PlannedLogFor(env, 10, now)
  {
    var cc, kc := ChunkCount(env), ClipCount(env);
    PlannedLogNext(8, cc, kc, now);
    PlannedLogNext(9, cc, kc, now);
  }

  /** The (step, status) pairs of a log. */
  function Shape(events: seq<ProgressEvent>): (r: seq<(Step, StepStatus)>)
    ensures |r| == |events|
    ensures forall i :: 0 <= i < |events| ==> r[i] == (events[i].step, events[i].status)
  {
    seq(|events|, i requires 0 <= i < |events| => (events[i].step, events[i].status))
  }

  const SuccessShape: seq<(Step, StepStatus)> := [
    (Pipeline, StepRunning), (Script, StepRunning), (Script, StepCompleted),
    (Clips, StepRunning), (Clips, StepCompleted), (Stitching, StepRunning),
    (Stitching, StepCompleted), (VideoStorage, StepRunning), (VideoStorage, StepCompleted),
    (Pipeline, StepCompleted)]

  /** The log of a run that fails in stage `stages`: the planned events up to that stage's `running` event, then `pipeline/failed`. */
  function FailedLogOf(stages: nat, chunkCount: nat, clipCount: nat, message: string, now: int, failedAt: int)
    : seq<ProgressEvent>
    requires stages < 4
  {
    PlannedLog(2 * stages + 2, chunkCount, clipCount, now) + [ProgressEvent(Pipeline, StepFailed, message, failedAt)]
  }

  /** The log of a failed run: a storage failure is stamped with the storage instant. */
  function FailedLog(env: Collaborators, now: int, storeNow: int): seq<ProgressEvent>
    requires StagesPassed(env) < 4
  {
    var failedAt := if StagesBeforeStorage(env) == 3 then storeNow else now;
    FailedLogOf(StagesPassed(env), ChunkCount(env), ClipCount(env), FailureMessage(env), now, failedAt)
  }

  /** Planned event `i` has the `i`th (step, status) pair; odd events before the last are `running`; none is `failed`. */
  lemma PlannedShapeAt(i: nat)
    requires i < 10
    ensures (PlannedStep(i), PlannedStatus(i)) == SuccessShape[i]
    ensures PlannedStatus(i) != StepFailed
    ensures i % 2 == 1 && i < 9 ==> PlannedStatus(i) == StepRunning
  {
  }

  /** A successful run logs exactly the ten (step, status) pairs, in order. */
  lemma SuccessLogShape(chunkCount: nat, clipCount: nat, now: int)
    ensures Shape(PlannedLog(10, chunkCount, clipCount, now)) == SuccessShape
  {
    var log := PlannedLog(10, chunkCount, clipCount, now);
    forall i | 0 <= i < 10
      ensures Shape(log)[i] == SuccessShape[i]
    {
      PlannedShapeAt(i);
    }
  }

  /**
   * A failed run's log is a prefix of the success log ending in a step's `running` event,
   * followed by one `pipeline/failed`; no step-level `failed` event appears.
   */
  lemma FailedLogShape(stages: nat, chunkCount: nat, clipCount: nat, message: string, now: int, failedAt: int)
    requires stages < 4
    ensures var log := FailedLogOf(stages, chunkCount, clipCount, message, now, failedAt);
      && |log| == 2 * stages + 3
      && Shape(log)[..|log| - 1] == SuccessShape[..|log| - 1]
      && log[|log| - 1] == ProgressEvent(Pipeline, StepFailed, message, failedAt)
      && log[|log| - 2].status == StepRunning
      && forall i :: 0 <= i < |log| - 1 ==> log[i].status != StepFailed
  {
    var log := FailedLogOf(stages, chunkCount, clipCount, message, now, failedAt);
    FailedLogPrefix(stages, chunkCount, clipCount, message, now, failedAt);
    FailedLogEnd(stages, chunkCount, clipCount, message, now, failedAt);
    assert |log| - 1 == 2 * stages + 2;
  }

  /** Before the failure event, a failed run's log has the success shape and no `failed` status. */
  lemma FailedLogPrefix(stages: nat, chunkCount: nat, clipCount: nat, message: string, now: int, failedAt: int)
    requires stages < 4
    ensures var log := FailedLogOf(stages, chunkCount, clipCount, message, now, failedAt);
      && Shape(log)[..2 * stages + 2] == SuccessShape[..2 * stages + 2]
      && forall i :: 0 <= i < 2 * stages + 2 ==> log[i].status != StepFailed
  {
    var log := FailedLogOf(stages, chunkCount, clipCount, message, now, failedAt);
    FailedLogFollowsPlan(stages, chunkCount, clipCount, message, now, failedAt);
    PlannedPairs(log, 2 * stages + 2);
    ShapePrefix(log, SuccessShape, 2 * stages + 2);
  }

  /** A failed run's log ends with the failed step's `running` event and then `pipeline/failed`. */
  lemma FailedLogEnd(stages: nat, chunkCount: nat, clipCount: nat, message: string, now: int, failedAt: int)
    requires stages < 4
    ensures var log := FailedLogOf(stages, chunkCount, clipCount, message, now, failedAt);
      && |log| == 2 * stages + 3
      && log[2 * stages + 2] == ProgressEvent(Pipeline, StepFailed, message, failedAt)
      && log[2 * stages + 1].status == StepRunning
  {
    var k := 2 * stages + 2;
    var log := FailedLogOf(stages, chunkCount, clipCount, message, now, failedAt);
    var planned := PlannedLog(k, chunkCount, clipCount, now);
    assert log == planned + [ProgressEvent(Pipeline, StepFailed, message, failedAt)];
    PlannedShapeAt(k - 1);
    assert log[k - 1] == planned[k - 1] == PlannedEvent(k - 1, chunkCount, clipCount, now);
  }

  /** The events before the failure are the planned ones. */
  lemma FailedLogFollowsPlan(stages: nat, chunkCount: nat, clipCount: nat, message: string, now: int, failedAt: int)
    requires stages < 4
    ensures var log := FailedLogOf(stages, chunkCount, clipCount, message, now, failedAt);
      forall i :: 0 <= i < 2 * stages + 2 ==> log[i].step == PlannedStep(i) && log[i].status == PlannedStatus(i)
  {
    var k := 2 * stages + 2;
    var log := FailedLogOf(stages, chunkCount, clipCount, message, now, failedAt);
    forall i | 0 <= i < k
      ensures log[i].step == PlannedStep(i) && log[i].status == PlannedStatus(i)
    {
    }
  }

  /** Events that follow the plan carry the success pairs and are never `failed`. */
  lemma PlannedPairs(log: seq<ProgressEvent>, k: nat)
    requires k <= 10 && k <= |log|
    requires forall i :: 0 <= i < k ==> log[i].step == PlannedStep(i) && log[i].status == PlannedStatus(i)
    ensures forall i :: 0 <= i < k ==> (log[i].step, log[i].status) == SuccessShape[i] && log[i].status != StepFailed
  {
    forall i | 0 <= i < k
      ensures (log[i].step, log[i].status) == SuccessShape[i] && log[i].status != StepFailed
    {
      PlannedShapeAt(i);
    }
  }

  /** A log whose first `k` events carry the first `k` pairs of `target` has that shape prefix. */
  lemma ShapePrefix(events: seq<ProgressEvent>, target: seq<(Step, StepStatus)>, k: nat)
    requires k <= |events| && k <= |target|
    requires forall i :: 0 <= i < k ==> (events[i].step, events[i].status) == target[i]
    ensures Shape(events)[..k] == target[..k]
  {
  }

  /** A run of the table. Its fields are updated in place by the orchestrator. */
  class Run {
    const runId: string
    const meetingId: string
    const createdAt: int
    var status: RunStatus
    var progress: seq<ProgressEvent>
    var updatedAt: int
    var expiresAt: int
    var videoId: Option<string>
    var videoUrl: Option<string>
    var mimeType: Option<string>
    var error: Option<string>

    /** The object literal of `createRun`, before its first progress event. */
    constructor (runId: string, meetingId: string, now: int)
      ensures this.runId == runId && this.meetingId == meetingId
      ensures status == Running && progress == []
      ensures createdAt == now && updatedAt == now && expiresAt == now + RunTtlMs
      ensures videoId == None && videoUrl == None && mimeType == None && error == None
    {
      this.runId := runId;
      this.meetingId := meetingId;
      createdAt := now;
      status := Running;
      progress := [];
      updatedAt := now;
      expiresAt := now + RunTtlMs;
      videoId, videoUrl, mimeType, error := None, None, None, None;
    }

    /** `cloneRun`: a copy with its own progress list. */
    function View(): (v: RunView)
      reads this
      ensures v.runId == runId && v.meetingId == meetingId && v.status == status && v.progress == progress
      ensures v.createdAt == createdAt && v.updatedAt == updatedAt && v.expiresAt == expiresAt
      ensures v.videoId == videoId && v.videoUrl == videoUrl && v.mimeType == mimeType && v.error == error
    {
      RunView(runId, meetingId, status, progress, createdAt, updatedAt, expiresAt, videoId, videoUrl, mimeType, error)
    }

    /** `appendProgress`: one event at the end, earlier events untouched, `updatedAt` set to its timestamp. */
    method AppendProgress(step: Step, stepStatus: StepStatus, message: string, now: int)
      modifies this
      ensures progress == old(progress) + [ProgressEvent(step, stepStatus, message, now)]
      ensures updatedAt == now
      ensures status == old(status) && expiresAt == old(expiresAt) && error == old(error)
      ensures videoId == old(videoId) && videoUrl == old(videoUrl) && mimeType == old(mimeType)
    {
      progress := progress + [ProgressEvent(step, stepStatus, message, now)];
      updatedAt := now;
    }

    /** `markRunFailed`: status `failed`, `error` set, one `pipeline/failed` event appended. */
    method MarkFailed(message: string, now: int)
      modifies this
      ensures status == Failed && error == Some(message)
      ensures progress == old(progress) + [ProgressEvent(Pipeline, StepFailed, message, now)]
      ensures updatedAt == now && expiresAt == old(expiresAt)
      ensures videoId == old(videoId) && videoUrl == old(videoUrl) && mimeType == old(mimeType)
    {
      status := Failed;
      error := Some(message);
      AppendProgress(Pipeline, StepFailed, message, now);
    }
  }

  /** The runs of `m` that have not expired at `now`. */
  function LiveRuns(m: map<string, Run>, now: int): (r: map<string, Run>)
    reads m.Values`expiresAt
    ensures r.Keys <= m.Keys
    ensures forall id :: id in r ==> r[id] == m[id] && r[id].expiresAt > now
    ensures forall id :: id in m && m[id].expiresAt > now ==> id in r
  {
    map id | id in m && m[id].expiresAt > now :: m[id]
  }

  /** The assets of `m` that have not expired at `now`. */
  function LiveAssets(m: map<string, StoredVideoAsset>, now: int): (r: map<string, StoredVideoAsset>)
    ensures r.Keys <= m.Keys
    ensures forall id :: id in r ==> r[id] == m[id] && r[id].expiresAt > now
    ensures forall id :: id in m && m[id].expiresAt > now ==> id in r
  {
    map id | id in m && m[id].expiresAt > now :: m[id]
  }

  /** A second sweep at the same instant removes nothing. */
  lemma SweepIdempotent(runs: map<string, Run>, assets: map<string, StoredVideoAsset>, now: int)
    ensures LiveRuns(LiveRuns(runs, now), now) == LiveRuns(runs, now)
    ensures LiveAssets(LiveAssets(assets, now), now) == LiveAssets(assets, now)
  {
  }

  /** A sweep at a later instant keeps only what a sweep at that instant alone keeps. */
  lemma LaterSweep(runs: map<string, Run>, assets: map<string, StoredVideoAsset>, now: int, later: int)
    requires now <= later
    ensures LiveRuns(LiveRuns(runs, now), later) == LiveRuns(runs, later)
    ensures LiveAssets(LiveAssets(assets, now), later) == LiveAssets(assets, later)
  {
  }

  /** Removing a key just added to a map that lacked it gives the map back. */
  lemma RemoveInserted(m: map<string, Run>, id: string, run: Run)
    requires id !in m
    ensures m[id := run] - {id} == m
  {
  }

  /** A sweep of a table with one run added is the sweep of the table, plus that run while it is live. */
  lemma SweepAfterInsert(m: map<string, Run>, run: Run, now: int)
    requires run.runId !in m
    ensures LiveRuns(m[run.runId := run], now) - {run.runId} == LiveRuns(m, now)
    ensures run.runId in LiveRuns(m[run.runId := run], now) <==> run.expiresAt > now
  {
  }

  /** The run a generation result names. */
  function RunIdOf(result: GenerateResult): string {
    if result.GenOk? then result.data.runId else result.runId
  }

  /** Distinct draws that all hit keys of the table are at most as many as its keys. */
  lemma {:induction false} DistinctDrawsBound(uuid: nat -> string, lo: nat, hi: nat, keys: set<string>)
    requires lo <= hi
    requires forall i, j :: lo <= i < j < hi ==> uuid(i) != uuid(j)
    requires forall j :: lo <= j < hi ==> uuid(j) in keys
    ensures hi - lo <= |keys|
    decreases hi - lo
  {
    if lo < hi {
      var rest := keys - {uuid(hi - 1)};
      forall j | lo <= j < hi - 1
        ensures uuid(j) in rest
      {
        assert uuid(j) != uuid(hi - 1);
      }
      DistinctDrawsBound(uuid, lo, hi - 1, rest);
      assert keys == rest + {uuid(hi - 1)};
    }
  }

  /** The draws from `next` on are pairwise distinct (`randomUUID` does not repeat). */
  ghost predicate FreshDraws(uuid: nat -> string, next: nat) {
    forall i, j :: next <= i < j ==> uuid(i) != uuid(j)
  }

  /** The run table and the video asset table of one server process. */
  class PipelineStore {
    var runs: map<string, Run>
    var assets: map<string, StoredVideoAsset>

    /** Every run is filed under its own id. */
    ghost predicate Valid()
      reads this
    {
      forall id :: id in runs ==> runs[id].runId == id
    }

    constructor ()
      ensures Valid() && runs == map[] && assets == map[]
    {
      runs := map[];
      assets := map[];
    }

    /** `cleanupExpiredEntries`: drops every run and asset whose expiry is not later than `now`. */
    method CleanupExpiredEntries(now: int)
      requires Valid()
      modifies this
      ensures Valid()
      ensures runs == old(LiveRuns(runs, now))
      ensures assets == old(LiveAssets(assets, now))
    {
      var keptRuns := SweepRuns(runs, now);
      var keptAssets := SweepAssets(assets, now);
      runs, assets := keptRuns, keptAssets;
    }

    /** The run half of the sweep: deletes, key by key, every run that has expired at `now`. */
    static method SweepRuns(m: map<string, Run>, now: int) returns (kept: map<string, Run>)
      ensures kept == LiveRuns(m, now)
    {
      kept := m;
      var pending := m.Keys;
      while pending != {}
        invariant pending <= m.Keys
        invariant kept == map id | id in m && (id in pending || m[id].expiresAt > now) :: m[id]
        decreases pending
      {
        var id :| id in pending;
        if kept[id].expiresAt <= now {
          kept := kept - {id};
        }
        pending := pending - {id};
      }
    }

    /** The asset half of the sweep: deletes, key by key, every asset that has expired at `now`. */
    static method SweepAssets(m: map<string, StoredVideoAsset>, now: int) returns (kept: map<string, StoredVideoAsset>)
      ensures kept == LiveAssets(m, now)
    {
      kept := m;
      var pending := m.Keys;
      while pending != {}
        invariant pending <= m.Keys
        invariant kept == map id | id in m && (id in pending || m[id].expiresAt > now) :: m[id]
        decreases pending
      {
        var id :| id in pending;
        if kept[id].expiresAt <= now {
          kept := kept - {id};
        }
        pending := pending - {id};
      }
    }

    /**
     * `ensureUniqueRunId`: the sanitized preferred id when it is free, otherwise the
     * first draw of the generator that is not a key of the run table.
     */
    method EnsureUniqueRunId(preferred: Option<string>, uuid: nat -> string, next: nat) returns (id: string, used: nat)
      requires FreshDraws(uuid, next)
      ensures id !in runs
      ensures var p := SanitizeOptionalIdentifier(preferred);
        if p.Some? && p.value !in runs then id == p.value && used == next
        else next < used && id == uuid(used - 1) && forall k :: next <= k < used - 1 ==> uuid(k) in runs
    {
      var normalizedPreferred := SanitizeOptionalIdentifier(preferred);
      if normalizedPreferred.Some? && normalizedPreferred.value !in runs {
        return normalizedPreferred.value, next;
      }
      var k := next;
      id := uuid(k);
      while id in runs
        invariant next <= k && id == uuid(k)
        invariant forall j :: next <= j < k ==> uuid(j) in runs
        invariant k - next <= |runs.Keys|
        decreases |runs.Keys| - (k - next)
      {
        DistinctDrawsBound(uuid, next, k + 1, runs.Keys);
        k := k + 1;
        id := uuid(k);
      }
      used := k + 1;
    }

    /**
     * `createRun`: sweeps, then files a fresh run under a unique id, status `running`,
     * expiring one hour from now, with the single event `pipeline/running`.
     */
    method CreateRun(meetingId: string, preferred: Option<string>, now: int, uuid: nat -> string, next: nat)
      returns (run: Run, used: nat)
      requires Valid() && FreshDraws(uuid, next)
      modifies this
      ensures Valid() && fresh(run)
      ensures run.runId !in old(LiveRuns(runs, now))
      ensures runs == old(LiveRuns(runs, now))[run.runId := run]
      ensures assets == old(LiveAssets(assets, now))
      ensures var p := SanitizeOptionalIdentifier(preferred);
        if p.Some? && p.value !in old(LiveRuns(runs, now)) then run.runId == p.value && used == next
        else next < used && run.runId == uuid(used - 1)
      ensures run.meetingId == meetingId && run.status == Running
      ensures run.createdAt == now && run.updatedAt == now && run.expiresAt == now + RunTtlMs
      ensures run.progress == [ProgressEvent(Pipeline, StepRunning, "Video generation started.", now)]
      ensures run.videoId == None && run.videoUrl == None && run.mimeType == None && run.error == None
    {
      CleanupExpiredEntries(now);
      var runId;
      runId, used := EnsureUniqueRunId(preferred, uuid, next);
      run := new Run(runId, meetingId, now);
      runs := runs[runId := run];
      run.AppendProgress(Pipeline, StepRunning, "Video generation started.", now);
    }

    /**
     * `storeTemporaryVideo`: sweeps, parses the data URL, and files the decoded bytes
     * under a fresh id for thirty minutes.
     */
    method StoreTemporaryVideo(
      stitchedVideoUrl: string, fallbackMimeType: string, now: int,
      uuid: nat -> string, next: nat, decodeBase64: string -> seq<bv8>, encodeUri: string -> string)
      returns (r: Result<StoredVideoPlayback>, used: nat)
      requires Valid()
      modifies this
      ensures Valid()
      ensures runs == old(LiveRuns(runs, now))
      ensures var parsed := ParseStitchedVideoDataUrl(stitchedVideoUrl, fallbackMimeType);
        if parsed.Err? then
          r == Err(parsed.message) && used == next && assets == old(LiveAssets(assets, now))
        else
          var id := uuid(next);
          && used == next + 1
          && r == Ok(StoredVideoPlayback(id, VideoUrlPrefix + encodeUri(id), parsed.value.mimeType, now + VideoTtlMs))
          && assets == old(LiveAssets(assets, now))[id := StoredVideoAsset(
               id, parsed.value.mimeType, decodeBase64(parsed.value.base64Payload), now, now + VideoTtlMs)]
    {
      CleanupExpiredEntries(now);
      var parsed := ParseStitchedVideoDataUrl(stitchedVideoUrl, fallbackMimeType);
      if parsed.Err? {
        return Err(parsed.message), next;
      }
      var videoId := uuid(next);
      used := next + 1;
      var expiresAt := now + VideoTtlMs;
      assets := assets[videoId := StoredVideoAsset(
        videoId, parsed.value.mimeType, decodeBase64(parsed.value.base64Payload), now, expiresAt)];
      r := Ok(StoredVideoPlayback(videoId, VideoUrlPrefix + encodeUri(videoId), parsed.value.mimeType, expiresAt));
    }

    /**
     * `generateMeetingVideo`: creates the run at `now`, drives script -> clips -> stitching,
     * logging `running`/`completed` per step, and stores the video at `storeNow`, the clock
     * read again once the awaited stages are over; the first failure marks the run failed.
     * The sweep at `storeNow` drops the run itself from the table when its hour has passed,
     * and the run object is still completed or failed, detached.
     */
    method GenerateMeetingVideo(
      meetingId: string, preferredRunId: Option<string>, now: int, storeNow: int,
      uuid: nat -> string, next: nat, env: Collaborators)
      returns (result: GenerateResult, used: nat)
      requires Valid() && FreshDraws(uuid, next)
      requires now <= storeNow
      modifies this
      ensures Valid()
      ensures next <= used
      ensures result.GenOk? <==> StagesPassed(env) == 4
      ensures result.GenOk? ==> exists k :: next <= k < used && result.data.videoId == uuid(k)
      ensures result.GenOk? ==>
        var parsed := ParseStitchedVideoDataUrl(env.stitch.value.videoUrl, env.stitch.value.mimeType).value;
        && result.data.progress == SuccessLog(env, now, storeNow)
        && result.data.meetingId == meetingId
        && result.data.expiresAt == storeNow + VideoTtlMs
        && result.data.videoUrl == VideoUrlPrefix + env.encodeUri(result.data.videoId)
        && result.data.mimeType == parsed.mimeType
        && assets == old(LiveAssets(assets, storeNow))[result.data.videoId := StoredVideoAsset(
             result.data.videoId, parsed.mimeType, env.decodeBase64(parsed.base64Payload), storeNow, storeNow + VideoTtlMs)]
      ensures result.GenFailed? ==>
        && result.error == FailureMessage(env) && result.progress == FailedLog(env, now, storeNow)
        && assets == old(LiveAssets(assets, if StagesBeforeStorage(env) == 3 then storeNow else now))
      ensures var id := RunIdOf(result);
        var p := SanitizeOptionalIdentifier(preferredRunId);
        && id !in old(LiveRuns(runs, now))
        && (p.Some? && p.value !in old(LiveRuns(runs, now)) ==> id == p.value)
        && (p.None? || p.value in old(LiveRuns(runs, now)) ==> exists k :: next <= k < used && id == uuid(k))
      ensures var id := RunIdOf(result);
        var sweptAt := if StagesBeforeStorage(env) == 3 then storeNow else now;
        && runs - {id} == old(LiveRuns(runs, sweptAt))
        && (id in runs <==> sweptAt < now + RunTtlMs)
      ensures var id := RunIdOf(result);
        id in runs ==>
        && runs[id].meetingId == meetingId
        && runs[id].status == (if result.GenOk? then Completed else Failed)
        && runs[id].progress == (if result.GenOk? then result.data.progress else result.progress)
        && runs[id].expiresAt == (if result.GenOk? then result.data.expiresAt else now + RunTtlMs)
        && runs[id].error == (if result.GenOk? then None else Some(result.error))
        && runs[id].videoId == (if result.GenOk? then Some(result.data.videoId) else None)
        && runs[id].videoUrl == (if result.GenOk? then Some(result.data.videoUrl) else None)
        && runs[id].mimeType == (if result.GenOk? then Some(result.data.mimeType) else None)
    {
      var run, passed;
      run, passed, used := StartRun(meetingId, preferredRunId, now, storeNow, uuid, next, env);
      if passed < 3 {
        EarlyFailure(env);
        RemoveInserted(old(LiveRuns(runs, now)), run.runId, run);
        return GenFailed(run.runId, FailureMessage(env), run.progress), used;
      }
      ghost var swept := LiveRuns(runs, storeNow);
      ghost var sweptAssets := LiveAssets(assets, storeNow);
      result, used := StoreAndFinish(run, env, now, storeNow, uuid, used);
      assert runs == swept;
      assert result.GenFailed? ==> assets == sweptAssets;
    }

    /**
     * The first lines of `generateMeetingVideo`: the run is created at `now` and taken
     * through script, clips and stitching; `passed` counts the stages it got through.
     */
    method StartRun(meetingId: string, preferredRunId: Option<string>, now: int, ghost later: int,
                    uuid: nat -> string, next: nat, env: Collaborators)
      returns (run: Run, passed: nat, used: nat)
      requires Valid() && FreshDraws(uuid, next)
      requires now <= later
      modifies this
      ensures Valid() && fresh(run)
      ensures next <= used
      ensures runs == old(LiveRuns(runs, now))[run.runId := run]
      ensures LiveRuns(runs, later) - {run.runId} == old(LiveRuns(runs, later))
      ensures run.runId in LiveRuns(runs, later) <==> later < now + RunTtlMs
      ensures LiveAssets(assets, later) == old(LiveAssets(assets, later))
      ensures assets == old(LiveAssets(assets, now))
      ensures var p := SanitizeOptionalIdentifier(preferredRunId);
        && run.runId !in old(LiveRuns(runs, now))
        && (p.Some? && p.value !in old(LiveRuns(runs, now)) ==> run.runId == p.value)
        && (p.None? || p.value in old(LiveRuns(runs, now)) ==> exists k :: next <= k < used && run.runId == uuid(k))
      ensures passed == StagesBeforeStorage(env)
      ensures run.meetingId == meetingId && run.expiresAt == now + RunTtlMs
      ensures run.videoId == None && run.videoUrl == None && run.mimeType == None
      ensures passed < 3 ==>
        && run.status == Failed && run.error == Some(EarlyFailureMessage(env))
        && run.progress == FailedLogOf(passed, ChunkCount(env), ClipCount(env), EarlyFailureMessage(env), now, now)
      ensures passed == 3 ==>
        run.status == Running && run.error == None && run.progress == PlannedLogFor(env, 8, now)
    {
      ghost var earlier := LiveRuns(runs, now);
      ghost var liveLater := LiveRuns(earlier, later);
      LaterSweep(runs, assets, now, later);
      run, used := CreateRun(meetingId, preferredRunId, now, uuid, next);
      assert run.runId in runs && runs[run.runId] == run;
      assert run.runId !in earlier;
      assert LiveRuns(earlier, later) == liveLater;
      assert run !in earlier.Values;
      passed := RunCollaborators(run, env, now);
      assert LiveRuns(earlier, later) == liveLater;
      SweepAfterInsert(earlier, run, later);
      assert LiveRuns(runs, later) - {run.runId} == liveLater;
    }

    /**
     * The storage step of `generateMeetingVideo` and the lines after it, for a run whose first
     * three stages passed: the sweep and the asset at `storeNow`, then the run completed, or
     * failed by a data URL that does not parse.
     */
    method StoreAndFinish(run: Run, env: Collaborators, now: int, storeNow: int, uuid: nat -> string, next: nat)
      returns (result: GenerateResult, used: nat)
      requires Valid() && StagesBeforeStorage(env) == 3
      requires run.progress == PlannedLogFor(env, 8, now) && run.status == Running && run.error == None
      requires run.videoId == None && run.videoUrl == None && run.mimeType == None
      modifies this, run
      ensures Valid()
      ensures runs == old(LiveRuns(runs, storeNow))
      ensures RunIdOf(result) == run.runId
      ensures result.GenOk? <==> StagesPassed(env) == 4
      ensures result.GenOk? ==>
        var parsed := ParseStitchedVideoDataUrl(env.stitch.value.videoUrl, env.stitch.value.mimeType).value;
        && used == next + 1
        && result.data.progress == SuccessLog(env, now, storeNow)
        && result.data.meetingId == run.meetingId
        && result.data.videoId == uuid(next)
        && result.data.expiresAt == storeNow + VideoTtlMs
        && result.data.videoUrl == VideoUrlPrefix + env.encodeUri(result.data.videoId)
        && result.data.mimeType == parsed.mimeType
        && assets == old(LiveAssets(assets, storeNow))[result.data.videoId := StoredVideoAsset(
             result.data.videoId, parsed.mimeType, env.decodeBase64(parsed.base64Payload), storeNow, storeNow + VideoTtlMs)]
      ensures result.GenFailed? ==>
        && used == next
        && result.error == FailureMessage(env) && result.progress == FailedLog(env, now, storeNow)
        && assets == old(LiveAssets(assets, storeNow))
      ensures run.status == (if result.GenOk? then Completed else Failed)
      ensures run.progress == (if result.GenOk? then result.data.progress else result.progress)
      ensures run.expiresAt == (if result.GenOk? then result.data.expiresAt else old(run.expiresAt))
      ensures run.error == (if result.GenOk? then None else Some(result.error))
      ensures run.videoId == (if result.GenOk? then Some(result.data.videoId) else None)
      ensures run.videoUrl == (if result.GenOk? then Some(result.data.videoUrl) else None)
      ensures run.mimeType == (if result.GenOk? then Some(result.data.mimeType) else None)
    {
      StorageOutcome(env);
      var storedVideo;
      storedVideo, used := StoreTemporaryVideo(
        env.stitch.value.videoUrl, env.stitch.value.mimeType, storeNow, uuid, next, env.decodeBase64, env.encodeUri);
      if storedVideo.Err? {
        run.MarkFailed(storedVideo.message, storeNow);
        return GenFailed(run.runId, storedVideo.message, run.progress), used;
      }
      var stored := storedVideo.value;
      FinishRun(run, stored, env, now, storeNow);
      result := GenOk(GeneratedMeetingVideo(
        run.runId, run.meetingId, stored.videoId, stored.videoUrl, stored.mimeType, stored.expiresAt, run.progress));
    }

    /**
     * The script, clips and stitching steps of `generateMeetingVideo` on a fresh run: the
     * number of stages passed (at most three); a failed stage has already marked the run failed.
     */
    static method RunCollaborators(run: Run, env: Collaborators, now: int) returns (passed: nat)
      requires run.progress == PlannedLogFor(env, 1, now) && run.status == Running && run.error == None
      modifies run
      ensures passed == StagesBeforeStorage(env)
      ensures passed < 3 ==>
        && run.status == Failed && run.error == Some(EarlyFailureMessage(env))
        && run.progress == FailedLogOf(passed, ChunkCount(env), ClipCount(env), EarlyFailureMessage(env), now, now)
      ensures passed == 3 ==>
        run.status == Running && run.error == None && run.progress == PlannedLogFor(env, 8, now)
      ensures run.expiresAt == old(run.expiresAt)
      ensures run.videoId == old(run.videoId) && run.videoUrl == old(run.videoUrl) && run.mimeType == old(run.mimeType)
    {
      var ok := ScriptStage(run, env, now);
      if !ok {
        return 0;
      }
      ok := ClipsStage(run, env, now);
      if !ok {
        return 1;
      }
      ok := StitchStage(run, env, now);
      if !ok {
        return 2;
      }
      return 3;
    }

    /** The script step: `running`, then `completed` with the chunk count, or the run fails. */
    static method ScriptStage(run: Run, env: Collaborators, now: int) returns (ok: bool)
      requires run.progress == PlannedLogFor(env, 1, now) && run.status == Running && run.error == None
      modifies run
      ensures ok <==> env.script.Ok?
      ensures ok ==> run.status == Running && run.error == None && run.progress == PlannedLogFor(env, 3, now)
      ensures !ok ==>
        && run.status == Failed && run.error == Some(env.script.message)
        && run.progress == PlannedLogFor(env, 2, now) + [ProgressEvent(Pipeline, StepFailed, env.script.message, now)]
      ensures run.expiresAt == old(run.expiresAt)
      ensures run.videoId == old(run.videoId) && run.videoUrl == old(run.videoUrl) && run.mimeType == old(run.mimeType)
    {
      var cc, kc := ChunkCount(env), ClipCount(env);
      PlannedLogNext(1, cc, kc, now);
      PlannedLogNext(2, cc, kc, now);
      run.AppendProgress(Script, StepRunning, "Generating meeting recap script.", now);
      if env.script.Err? {
        run.MarkFailed(env.script.message, now);
        return false;
      }
      run.AppendProgress(Script, StepCompleted, "Generated " + NatToString(env.script.value) + " script chunks.", now);
      return true;
    }

    /** The clips step: `running`, then `completed` with the number of hosted clips, or the run fails. */
    static method ClipsStage(run: Run, env: Collaborators, now: int) returns (ok: bool)
      requires env.script.Ok?
      requires run.progress == PlannedLogFor(env, 3, now) && run.status == Running && run.error == None
      modifies run
      ensures ok <==> env.clips.Ok? && ExtractHostedClipUrls(env.clips.value).Ok?
      ensures ok ==> run.status == Running && run.error == None && run.progress == PlannedLogFor(env, 5, now)
      ensures !ok ==>
        var message := if env.clips.Err? then env.clips.message else ExtractHostedClipUrls(env.clips.value).message;
        && run.status == Failed && run.error == Some(message)
        && run.progress == PlannedLogFor(env, 4, now) + [ProgressEvent(Pipeline, StepFailed, message, now)]
      ensures run.expiresAt == old(run.expiresAt)
      ensures run.videoId == old(run.videoId) && run.videoUrl == old(run.videoUrl) && run.mimeType == old(run.mimeType)
    {
      var cc, kc := ChunkCount(env), ClipCount(env);
      PlannedLogNext(3, cc, kc, now);
      PlannedLogNext(4, cc, kc, now);
      run.AppendProgress(Clips, StepRunning, "Generating Veo clips from script chunks.", now);
      if env.clips.Err? {
        run.MarkFailed(env.clips.message, now);
        return false;
      }
      var clipUrls := ExtractHostedClipUrls(env.clips.value);
      if clipUrls.Err? {
        run.MarkFailed(clipUrls.message, now);
        return false;
      }
      run.AppendProgress(Clips, StepCompleted, "Generated " + NatToString(|clipUrls.value|) + " video clips.", now);
      return true;
    }

    /** The stitching step, and the start of the storage step when stitching succeeds. */
    static method StitchStage(run: Run, env: Collaborators, now: int) returns (ok: bool)
      requires run.progress == PlannedLogFor(env, 5, now) && run.status == Running && run.error == None
      modifies run
      ensures ok <==> env.stitch.Ok?
      ensures ok ==> run.status == Running && run.error == None && run.progress == PlannedLogFor(env, 8, now)
      ensures !ok ==>
        && run.status == Failed && run.error == Some(env.stitch.message)
        && run.progress == PlannedLogFor(env, 6, now) + [ProgressEvent(Pipeline, StepFailed, env.stitch.message, now)]
      ensures run.expiresAt == old(run.expiresAt)
      ensures run.videoId == old(run.videoId) && run.videoUrl == old(run.videoUrl) && run.mimeType == old(run.mimeType)
    {
      var cc, kc := ChunkCount(env), ClipCount(env);
      PlannedLogNext(5, cc, kc, now);
      PlannedLogNext(6, cc, kc, now);
      PlannedLogNext(7, cc, kc, now);
      run.AppendProgress(Stitching, StepRunning, "Stitching clips into one recap video.", now);
      if env.stitch.Err? {
        run.MarkFailed(env.stitch.message, now);
        return false;
      }
      run.AppendProgress(Stitching, StepCompleted, "Finished stitching recap video.", now);
      run.AppendProgress(VideoStorage, StepRunning, "Caching generated video for temporary playback.", now);
      return true;
    }

    /**
     * The last lines of `generateMeetingVideo`: playback fields, new expiry, status `completed`,
     * and the two closing events stamped with the storage instant.
     */
    static method FinishRun(run: Run, stored: StoredVideoPlayback, env: Collaborators, now: int, storeNow: int)
      requires run.progress == PlannedLogFor(env, 8, now)
      modifies run
      ensures run.progress == SuccessLog(env, now, storeNow)
      ensures run.status == Completed && run.error == old(run.error)
      ensures run.videoId == Some(stored.videoId) && run.videoUrl == Some(stored.videoUrl)
      ensures run.mimeType == Some(stored.mimeType) && run.expiresAt == stored.expiresAt
    {
      StorageEvents(env, now, storeNow);
      run.videoId := Some(stored.videoId);
      run.videoUrl := Some(stored.videoUrl);
      run.mimeType := Some(stored.mimeType);
      run.expiresAt := stored.expiresAt;
      run.AppendProgress(VideoStorage, StepCompleted, "Generated video is ready for playback.", storeNow);
      run.status := Completed;
      run.AppendProgress(Pipeline, StepCompleted, "Video generation finished successfully.", storeNow);
    }

    /**
     * `getVideoGenerationRun`: sweeps, then returns a copy of the run filed under the
     * trimmed id; blank ids and unknown or expired runs give `None`.
     */
    method GetVideoGenerationRun(runId: string, now: int) returns (r: Option<RunView>)
      requires Valid()
      modifies this
      ensures Valid()
      ensures runs == old(LiveRuns(runs, now)) && assets == old(LiveAssets(assets, now))
      ensures IsBlank(runId) ==> r.None?
      ensures r.Some? <==> !IsBlank(runId) && Trim(runId) in runs
      ensures r.Some? ==> r.value == runs[Trim(runId)].View() && r.value.runId == Trim(runId)
      ensures r.Some? ==> r.value.expiresAt > now
    {
      CleanupExpiredEntries(now);
      var normalizedRunId := SanitizeOptionalIdentifier(Some(runId));
      if normalizedRunId.None? {
        return None;
      }
      if normalizedRunId.value !in runs {
        return None;
      }
      r := Some(runs[normalizedRunId.value].View());
    }

    /** `getStoredVideoAsset`: sweeps, then returns the asset filed under the trimmed id. */
    method GetStoredVideoAsset(videoId: string, now: int) returns (r: Option<StoredVideoAsset>)
      requires Valid()
      modifies this
      ensures Valid()
      ensures runs == old(LiveRuns(runs, now)) && assets == old(LiveAssets(assets, now))
      ensures r.Some? <==> !IsBlank(videoId) && Trim(videoId) in assets
      ensures r.Some? ==> r.value == assets[Trim(videoId)] && r.value.expiresAt > now
    {
      CleanupExpiredEntries(now);
      var normalizedVideoId := SanitizeOptionalIdentifier(Some(videoId));
      if normalizedVideoId.None? || normalizedVideoId.value !in assets {
        return None;
      }
      r := Some(assets[normalizedVideoId.value]);
    }
  }
}
