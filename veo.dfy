/**
 * The Veo client's defensive readers of operation payloads, the poll loop over
 * an injected clock and injected poll answers, and the defaults of a single
 * generation. HTTP calls are the injected `Result<Json>` answers: `Err` carries
 * the message a non-ok response raises.
 */
module Veo {
  import opened Common
  import opened Text
  import opened JsValue

  const DefaultAspectRatio: string := "9:16"
  const DefaultPollIntervalMs: nat := 3000
  const DefaultTimeoutMs: nat := 180000
  const MissingApiKeyError: string := "Missing GOOGLE_AI_API_KEY environment variable."
  const NoOperationNameError: string := "Veo did not return an operation name."
  const EmptyAssetError: string := "Veo operation completed without returning a video URL or buffer."

  /** What a finished operation yields; each field is `None` when its candidate is not a string. */
  datatype VideoAsset = VideoAsset(url: Option<string>, bufferBase64: Option<string>, mimeType: Option<string>)

  /**
   * `extractOperationName`: the trimmed top-level `name` when it is not blank, else the
   * trimmed `operation.name` when that is a string (possibly empty), else `None`.
   */
  function ExtractOperationName(payload: Json): (r: Option<string>)
    ensures r.Some? ==> IsTrimmed(r.value)
    ensures !IsRecord(payload) ==> r.None?
    ensures var name := AsString(Get(payload, "name"));
      IsRecord(payload) && name.Some? && !IsBlank(name.value) ==> r == Some(Trim(name.value))
    ensures var name := AsString(Get(payload, "name"));
      var nested := AsString(GetOpt(Get(payload, "operation"), "name"));
      IsRecord(payload) && (name.None? || IsBlank(name.value)) ==>
        r == (if nested.Some? then Some(Trim(nested.value)) else None)
  {
    if !IsRecord(payload) then None
    else
      var name := AsString(Get(payload, "name"));
      if name.Some? && !IsBlank(name.value) then Some(Trim(name.value))
      else
        var operation := Get(payload, "operation");
        if IsRecordValue(operation) && AsString(Get(operation.value, "name")).Some? then
          Some(Trim(AsString(Get(operation.value, "name")).value))
        else None
  }

  /** A non-blank top-level name wins over `operation.name`. */
  lemma TopLevelNameWins(payload: Json, name: string)
    requires IsRecord(payload) && Get(payload, "name") == Some(JStr(name)) && !IsBlank(name)
    ensures ExtractOperationName(payload) == Some(Trim(name))
  {
  }

  /**
   * A blank `operation.name` behind a missing or blank top-level name is extracted as the empty
   * name, which starting the operation then rejects.
   */
  lemma NestedNameMayBeEmpty(payload: Json, nested: string)
    requires IsRecord(payload)
    requires AsString(Get(payload, "name")).None? || IsBlank(AsString(Get(payload, "name")).value)
    requires AsString(GetOpt(Get(payload, "operation"), "name")) == Some(nested) && IsBlank(nested)
    ensures ExtractOperationName(payload) == Some("")
    ensures StartRawOperation(Ok(payload)) == Err(NoOperationNameError)
  {
  }

  /** `startRawOperation`: a failed request's message, or the operation name, which must be non-empty. */
  function StartRawOperation(response: Result<Json>): (r: Result<string>)
    ensures r.Ok? ==> r.value != "" && IsTrimmed(r.value)
    ensures r.Ok? <==> response.Ok? && Truthy(ExtractOperationName(response.value))
    ensures response.Ok? && !Truthy(ExtractOperationName(response.value)) ==> r == Err(NoOperationNameError)
  {
    match response
    case Err(m) => Err(m)
    case Ok(payload) =>
      var operationName := ExtractOperationName(payload);
      if !Truthy(operationName) then Err(NoOperationNameError) else Ok(operationName.value)
  }

  /** `extractOperationError`: `error.message`, untrimmed, when `error` is a record and the message is not blank. */
  function ExtractOperationError(payload: Json): (r: Option<string>)
    ensures r.Some? ==> !IsBlank(r.value)
    ensures r.Some? <==> (IsRecord(payload) && IsRecordValue(Get(payload, "error"))
      && AsString(Get(Get(payload, "error").value, "message")).Some?
      && !IsBlank(AsString(Get(Get(payload, "error").value, "message")).value))
    ensures r.Some? ==> Get(Get(payload, "error").value, "message") == Some(JStr(r.value))
  {
    if !IsRecord(payload) then None
    else
      var errorValue := Get(payload, "error");
      if !IsRecordValue(errorValue) then None
      else
        var message := AsString(Get(errorValue.value, "message"));
        if message.Some? && !IsBlank(message.value) then message else None
  }

  /** The record the generated videos are read from: `payload.response` when it is a record, else the payload. */
  function OperationResponse(payload: Json): Json {
    if IsRecordValue(Get(payload, "response")) then Get(payload, "response").value else payload
  }

  /**
   * `extractGeneratedVideos`: `generateVideoResponse.generatedSamples` first, then
   * `generatedVideos ?? generated_videos`, each only when it is an array.
   */
  function ExtractGeneratedVideos(payload: Json): (r: seq<Json>)
    ensures !IsRecord(payload) ==> r == []
    ensures var samples := GetOpt(Get(OperationResponse(payload), "generateVideoResponse"), "generatedSamples");
      IsRecord(payload) && IsArrayValue(samples) ==> r == samples.value.items
    ensures var response := OperationResponse(payload);
      var samples := GetOpt(Get(response, "generateVideoResponse"), "generatedSamples");
      var videos := Get(response, "generatedVideos");
      IsRecord(payload) && !IsArrayValue(samples) && !Nullish(videos) ==>
        r == (if videos.value.JArr? then videos.value.items else [])
    ensures var response := OperationResponse(payload);
      var samples := GetOpt(Get(response, "generateVideoResponse"), "generatedSamples");
      var legacy := Get(response, "generated_videos");
      IsRecord(payload) && !IsArrayValue(samples) && Nullish(Get(response, "generatedVideos")) ==>
        r == (if IsArrayValue(legacy) then legacy.value.items else [])
  {
    if !IsRecord(payload) then []
    else
      var response := OperationResponse(payload);
      var wrapper := Get(response, "generateVideoResponse");
      var samples := if IsRecordValue(wrapper) then Get(wrapper.value, "generatedSamples") else None;
      if IsArrayValue(samples) then samples.value.items
      else
        var aliases := [Get(response, "generatedVideos"), Get(response, "generated_videos")];
        assert aliases[1..] == [Get(response, "generated_videos")];
        assert Nullish(aliases[0]) ==> Coalesce(aliases) == Coalesce(aliases[1..]) == aliases[1];
        var generatedVideos := Coalesce(aliases);
        if IsArrayValue(generatedVideos) then generatedVideos.value.items else []
  }

  /** A present `generatedVideos` that is not an array hides `generated_videos`, whatever that holds. */
  lemma LegacyAliasBlocked(payload: Json, inner: Json)
    requires IsRecord(payload)
    requires !IsArrayValue(GetOpt(Get(OperationResponse(payload), "generateVideoResponse"), "generatedSamples"))
    requires Get(OperationResponse(payload), "generatedVideos") == Some(inner) && inner != JNull && !inner.JArr?
    ensures ExtractGeneratedVideos(payload) == []
  {
  }

  /** The url aliases, in the order the `??` chain reads them. */
  function UrlAliases(generatedVideo: Json, videoCandidate: Json): seq<Option<Json>> {
    [ Get(generatedVideo, "url"), Get(generatedVideo, "uri"), Get(generatedVideo, "downloadUri"),
      Get(generatedVideo, "download_uri"), Get(videoCandidate, "url"), Get(videoCandidate, "uri"),
      Get(videoCandidate, "downloadUri"), Get(videoCandidate, "download_uri"), Get(videoCandidate, "gcsUri"),
      Get(videoCandidate, "gcs_uri") ]
  }

  /** The buffer aliases, in chain order. */
  function BufferAliases(generatedVideo: Json, videoCandidate: Json): seq<Option<Json>> {
    [ Get(generatedVideo, "bufferBase64"), Get(generatedVideo, "bytesBase64"), Get(generatedVideo, "bytes"),
      Get(generatedVideo, "data"), Get(videoCandidate, "bufferBase64"), Get(videoCandidate, "bytesBase64"),
      Get(videoCandidate, "bytes"), Get(videoCandidate, "data") ]
  }

  /** The mime-type aliases, in chain order. */
  function MimeAliases(generatedVideo: Json, videoCandidate: Json): seq<Option<Json>> {
    [ Get(generatedVideo, "mimeType"), Get(generatedVideo, "mime_type"), Get(videoCandidate, "mimeType") ]
  }

  /** `generatedVideo.video` when it is a record, else the generated video itself. */
  function VideoCandidate(generatedVideo: Json): (r: Json)
    ensures r == generatedVideo || (Get(generatedVideo, "video") == Some(r) && IsRecord(r))
    ensures IsRecord(generatedVideo) ==> IsRecord(r)
  {
    if IsRecordValue(Get(generatedVideo, "video")) then Get(generatedVideo, "video").value else generatedVideo
  }

  /** `extractVideoAsset`: each field is the first non-nullish alias when that is a string. */
  function ExtractVideoAsset(generatedVideo: Option<Json>): (r: VideoAsset)
    ensures !IsRecordValue(generatedVideo) ==> r == VideoAsset(None, None, None)
  {
    if !IsRecordValue(generatedVideo) then VideoAsset(None, None, None)
    else
      var g := generatedVideo.value;
      var v := VideoCandidate(g);
      VideoAsset(
        AsString(Coalesce(UrlAliases(g, v))),
        AsString(Coalesce(BufferAliases(g, v))),
        AsString(Coalesce(MimeAliases(g, v))))
  }

  /**
   * The first alias that is neither null nor undefined decides the url: its string, or
   * nothing when it is not a string, whatever later aliases hold.
   */
  lemma FirstUrlAliasDecides(g: Json, k: nat)
    requires IsRecord(g) && k < 10
    requires !Nullish(UrlAliases(g, VideoCandidate(g))[k])
    requires forall j :: 0 <= j < k ==> Nullish(UrlAliases(g, VideoCandidate(g))[j])
    ensures ExtractVideoAsset(Some(g)).url == AsString(UrlAliases(g, VideoCandidate(g))[k])
  {
    CoalesceFirstPresent(UrlAliases(g, VideoCandidate(g)), k);
  }

  lemma FirstBufferAliasDecides(g: Json, k: nat)
    requires IsRecord(g) && k < 8
    requires !Nullish(BufferAliases(g, VideoCandidate(g))[k])
    requires forall j :: 0 <= j < k ==> Nullish(BufferAliases(g, VideoCandidate(g))[j])
    ensures ExtractVideoAsset(Some(g)).bufferBase64 == AsString(BufferAliases(g, VideoCandidate(g))[k])
  {
    CoalesceFirstPresent(BufferAliases(g, VideoCandidate(g)), k);
  }

  lemma FirstMimeAliasDecides(g: Json, k: nat)
    requires IsRecord(g) && k < 3
    requires !Nullish(MimeAliases(g, VideoCandidate(g))[k])
    requires forall j :: 0 <= j < k ==> Nullish(MimeAliases(g, VideoCandidate(g))[j])
    ensures ExtractVideoAsset(Some(g)).mimeType == AsString(MimeAliases(g, VideoCandidate(g))[k])
  {
    CoalesceFirstPresent(MimeAliases(g, VideoCandidate(g)), k);
  }

  /** A numeric `url` hides a string `uri` that follows it. */
  lemma NonStringUrlBlocksLaterAliases(uri: string)
    ensures ExtractVideoAsset(Some(JObj([("url", JNum(1.0)), ("uri", JStr(uri))]))).url == None
  {
    var g := JObj([("url", JNum(1.0)), ("uri", JStr(uri))]);
    FirstUrlAliasDecides(g, 0);
  }

  /** What one poll reports. */
  datatype OperationStatus = OperationStatus(done: bool, errorMessage: Option<string>, payload: Json)

  /** `getOperationStatus`: done only when `payload.done === true`. */
  function GetOperationStatus(response: Result<Json>): (r: Result<OperationStatus>)
    ensures r.Ok? <==> response.Ok?
    ensures r.Ok? ==> (r.value.done <==> IsRecord(response.value) && Get(response.value, "done") == Some(JBool(true)))
    ensures r.Ok? ==> r.value.errorMessage == ExtractOperationError(response.value) && r.value.payload == response.value
  {
    match response
    case Err(m) => Err(m)
    case Ok(payload) =>
      Ok(OperationStatus(IsRecord(payload) && Get(payload, "done") == Some(JBool(true)), ExtractOperationError(payload), payload))
  }

  /** A truthy `done` that is not literally `true` does not finish the operation. */
  lemma DoneMustBeTrue(payload: Json)
    requires payload == JObj([("done", JStr("true"))])
    ensures !GetOperationStatus(Ok(payload)).value.done
  {
  }

  /** The decision of one round of the loop: keep polling, or stop with a result. */
  datatype Round = KeepPolling | Stop(result: Result<VideoAsset>)

  /** The body of one iteration of `pollForVideo`: an error is checked before `done`. */
  function PollRound(response: Result<Json>): (r: Round)
    ensures r.Stop? && r.result.Ok? ==> Truthy(r.result.value.url) || Truthy(r.result.value.bufferBase64)
  {
    match GetOperationStatus(response)
    case Err(m) => Stop(Err(m))
    case Ok(operation) =>
      if operation.errorMessage.Some? then Stop(Err("Veo operation failed: " + operation.errorMessage.value))
      else if operation.done then
        var generatedVideos := ExtractGeneratedVideos(operation.payload);
        var asset := ExtractVideoAsset(if |generatedVideos| > 0 then Some(generatedVideos[0]) else None);
        if !Truthy(asset.url) && !Truthy(asset.bufferBase64) then Stop(Err(EmptyAssetError))
        else Stop(Ok(asset))
      else KeepPolling
  }

  /** An operation that reports an error fails the poll even when it is also done. */
  lemma ErrorCheckedBeforeDone(payload: Json)
    requires GetOperationStatus(Ok(payload)).value.done
    requires ExtractOperationError(payload).Some?
    ensures PollRound(Ok(payload)) == Stop(Err("Veo operation failed: " + ExtractOperationError(payload).value))
  {
  }

  /**
   * The clock readings: `clock(0)` is `startedAt`, `clock(k + 1)` the reading before poll `k`.
   * Time does not run backwards, and each sleep lasts at least the interval.
   */
  ghost predicate Ticking(clock: nat -> int, pollIntervalMs: nat) {
    && pollIntervalMs > 0
    && clock(1) >= clock(0)
    && forall i: nat, j: nat :: 1 <= i && j == i + 1 ==> clock(j) >= clock(i) + pollIntervalMs
  }

  function TimeoutError(timeoutMs: nat): string {
    "Veo operation timed out after " + NatToString(timeoutMs) + "ms."
  }

  /** The outcome of polling from round `k` on: rounds run while less than `timeoutMs` has elapsed. */
  ghost function PollFrom(k: nat, timeoutMs: nat, pollIntervalMs: nat, clock: nat -> int, polls: nat -> Result<Json>): (r: Result<VideoAsset>)
    requires Ticking(clock, pollIntervalMs)
    ensures r == Err(TimeoutError(timeoutMs)) || exists j :: k <= j && PollRound(polls(j)) == Stop(r)
    ensures clock(k + 1) - clock(0) >= timeoutMs ==> r == Err(TimeoutError(timeoutMs))
    decreases timeoutMs - (clock(k + 1) - clock(0))
  {
    if clock(k + 1) - clock(0) >= timeoutMs then Err(TimeoutError(timeoutMs))
    else
      match PollRound(polls(k))
      case Stop(result) => result
      case KeepPolling =>
        assert clock(k + 2) >= clock(k + 1) + pollIntervalMs;
        PollFrom(k + 1, timeoutMs, pollIntervalMs, clock, polls)
  }

  /** Any asset the poll returns has a non-empty url or buffer. */
  lemma {:induction false} PolledAssetHasLocator(k: nat, timeoutMs: nat, pollIntervalMs: nat, clock: nat -> int, polls: nat -> Result<Json>)
    requires Ticking(clock, pollIntervalMs)
    ensures var r := PollFrom(k, timeoutMs, pollIntervalMs, clock, polls);
      r.Ok? ==> Truthy(r.value.url) || Truthy(r.value.bufferBase64)
    decreases timeoutMs - (clock(k + 1) - clock(0))
  {
    if clock(k + 1) - clock(0) < timeoutMs && PollRound(polls(k)).KeepPolling? {
      assert clock(k + 2) >= clock(k + 1) + pollIntervalMs;
      PolledAssetHasLocator(k + 1, timeoutMs, pollIntervalMs, clock, polls);
    }
  }

  /** When the first reading is already past the timeout, nothing is polled. */
  lemma NoPollAfterTimeout(timeoutMs: nat, pollIntervalMs: nat, clock: nat -> int, polls: nat -> Result<Json>)
    requires Ticking(clock, pollIntervalMs) && clock(1) - clock(0) >= timeoutMs
    ensures PollFrom(0, timeoutMs, pollIntervalMs, clock, polls) == Err(TimeoutError(timeoutMs))
  {
  }

  /** `pollForVideo`. */
  method PollForVideo(timeoutMs: nat, pollIntervalMs: nat, clock: nat -> int, polls: nat -> Result<Json>)
    returns (r: Result<VideoAsset>)
    requires Ticking(clock, pollIntervalMs)
    ensures r == PollFrom(0, timeoutMs, pollIntervalMs, clock, polls)
    ensures r.Ok? ==> Truthy(r.value.url) || Truthy(r.value.bufferBase64)
  {
    var startedAt := clock(0);
    var k := 0;
    while clock(k + 1) - startedAt < timeoutMs
      invariant PollFrom(k, timeoutMs, pollIntervalMs, clock, polls) == PollFrom(0, timeoutMs, pollIntervalMs, clock, polls)
      decreases timeoutMs - (clock(k + 1) - startedAt)
    {
      var operation := GetOperationStatus(polls(k));
      if operation.Err? {
        r := Err(operation.message);
        PolledAssetHasLocator(0, timeoutMs, pollIntervalMs, clock, polls);
        return;
      }
      if operation.value.errorMessage.Some? {
        r := Err("Veo operation failed: " + operation.value.errorMessage.value);
        PolledAssetHasLocator(0, timeoutMs, pollIntervalMs, clock, polls);
        return;
      }
      if operation.value.done {
        var generatedVideos := ExtractGeneratedVideos(operation.value.payload);
        var firstVideo := if |generatedVideos| > 0 then Some(generatedVideos[0]) else None;
        var asset := ExtractVideoAsset(firstVideo);
        if !Truthy(asset.url) && !Truthy(asset.bufferBase64) {
          r := Err(EmptyAssetError);
        } else {
          r := Ok(asset);
        }
        PolledAssetHasLocator(0, timeoutMs, pollIntervalMs, clock, polls);
        return;
      }
      assert clock(k + 2) >= clock(k + 1) + pollIntervalMs;
      k := k + 1;
    }
    r := Err(TimeoutError(timeoutMs));
    PolledAssetHasLocator(0, timeoutMs, pollIntervalMs, clock, polls);
  }

  /** The options `generateSingleVideo` starts and polls with. */
  datatype VideoRequest = VideoRequest(prompt: string, aspectRatio: string, pollIntervalMs: nat, timeoutMs: nat)

  /**
   * `generateSingleVideo`: a missing or empty API key fails before any request; otherwise
   * the aspect ratio defaults to 9:16 and the poll runs every 3 s for at most 180 s.
   */
  method GenerateSingleVideo(
    apiKey: Option<string>, prompt: string, aspectRatio: Option<string>,
    startResponse: Result<Json>, clock: nat -> int, polls: nat -> Result<Json>)
    returns (r: Result<VideoAsset>, request: Option<VideoRequest>)
    requires Ticking(clock, DefaultPollIntervalMs)
    ensures !Truthy(apiKey) ==> r == Err(MissingApiKeyError) && request.None?
    ensures Truthy(apiKey) ==> request == Some(VideoRequest(
      prompt, if aspectRatio.Some? then aspectRatio.value else DefaultAspectRatio, DefaultPollIntervalMs, DefaultTimeoutMs))
    ensures Truthy(apiKey) && StartRawOperation(startResponse).Err? ==> r == Err(StartRawOperation(startResponse).message)
    ensures Truthy(apiKey) && StartRawOperation(startResponse).Ok? ==>
      r == PollFrom(0, DefaultTimeoutMs, DefaultPollIntervalMs, clock, polls)
    ensures r.Ok? ==> Truthy(r.value.url) || Truthy(r.value.bufferBase64)
  {
    if !Truthy(apiKey) {
      return Err(MissingApiKeyError), None;
    }
    var ratio := if aspectRatio.Some? then aspectRatio.value else DefaultAspectRatio;
    request := Some(VideoRequest(prompt, ratio, DefaultPollIntervalMs, DefaultTimeoutMs));
    var operationName := StartRawOperation(startResponse);
    if operationName.Err? {
      return Err(operationName.message), request;
    }
    r := PollForVideo(DefaultTimeoutMs, DefaultPollIntervalMs, clock, polls);
  }
}
