/**
 * The video-generation route: `POST` runs the whole pipeline for one meeting
 * and `GET` reports a run's progress or streams a stored video, both over the
 * process-wide run and asset tables.
 */
module GenerateVideoRoute {
  import opened Common
  import opened Text
  import opened JsValue
  import opened RouteInputs
  import opened VideoPipeline

  const VercelDisabledError: string := "Video generation is disabled in Vercel deployments. Run locally for generation."
  const MissingTokenError: string := "Granola access token is required. Please connect your Granola account."
  const InvalidJsonError: string := "Request body must be valid JSON."
  const MissingMeetingIdError: string := "meetingId is required."
  const NoRunError: string := "No video generation run found for the provided runId."
  const NoVideoError: string := "Video not found or expired."
  const NoQueryError: string := "Provide runId for progress or videoId for playback."
  const PlaybackCacheControl: string := "private, max-age=300"

  datatype VideoReply =
    | JsonError(status: nat, error: string)
    | RunFailed(status: nat, error: string, runId: string, progress: seq<ProgressEvent>)
    | VideoCreated(data: GeneratedMeetingVideo)
    | RunFound(run: RunView)
    | Playback(contentType: string, cacheControl: string, contentLength: string, body: seq<bv8>)

  /** The status of a failed run: 401 for auth-like messages, else 500. */
  function FailureStatus(error: string): (status: nat)
    ensures status == 401 || status == 500
    ensures status == 401 <==> IsAuthErrorMessage(error)
  {
    if IsAuthErrorMessage(error) then 401 else 500
  }

  /** The outcome of the guards of `POST`: a rejection, or the meeting id to generate for. */
  datatype Guarded = Rejected(status: nat, error: string) | Accepted(meetingId: string)

  /**
   * The guards of `POST`, in order: the deployment, the access token, the body, the meeting id.
   * Each answers with its own status before the later ones are looked at.
   */
  function PostGuard(isVercel: bool, authorization: Option<string>, tokenHeader: Option<string>, payload: Option<Json>)
    : (r: Guarded)
    ensures isVercel ==> r == Rejected(501, VercelDisabledError)
    ensures !isVercel && ReadAccessToken(authorization, tokenHeader).None? ==> r == Rejected(401, MissingTokenError)
    ensures !isVercel && ReadAccessToken(authorization, tokenHeader).Some? && payload.None? ==>
      r == Rejected(400, InvalidJsonError)
    ensures r.Accepted? <==> (!isVercel && ReadAccessToken(authorization, tokenHeader).Some?
      && payload.Some? && ReadTrimmedField(payload.value, "meetingId").Some?)
    ensures r.Accepted? ==> (r.meetingId == ReadTrimmedField(payload.value, "meetingId").value
      && r.meetingId != "" && IsTrimmed(r.meetingId))
    ensures r.Rejected? ==> r.status in {400, 401, 501}
  {
    if isVercel then Rejected(501, VercelDisabledError)
    else if ReadAccessToken(authorization, tokenHeader).None? then Rejected(401, MissingTokenError)
    else if payload.None? then Rejected(400, InvalidJsonError)
    else if ReadTrimmedField(payload.value, "meetingId").None? then Rejected(400, MissingMeetingIdError)
    else Accepted(ReadTrimmedField(payload.value, "meetingId").value)
  }

  /** A blank meeting id is rejected like a missing one. */
  lemma BlankMeetingIdRejected(authorization: string)
    requires ReadAccessToken(Some(authorization), None).Some?
    ensures PostGuard(false, Some(authorization), None, Some(JObj([("meetingId", JStr(" \t")), ("runId", JStr("r"))])))
      == Rejected(400, MissingMeetingIdError)
  {
    assert AllSpace(" \t");
  }

  /**
   * `POST`: a request that fails a guard is answered without touching the tables; otherwise
   * the pipeline runs and a failed run answers 401 or 500 with its id and progress.
   */
  method Post(
    store: PipelineStore, isVercel: bool, authorization: Option<string>, tokenHeader: Option<string>,
    payload: Option<Json>, now: int, storeNow: int, uuid: nat -> string, next: nat, env: Collaborators)
    returns (reply: VideoReply)
    requires store.Valid() && FreshDraws(uuid, next)
    requires now <= storeNow
    modifies store
    ensures store.Valid()
    ensures var guard := PostGuard(isVercel, authorization, tokenHeader, payload);
      guard.Rejected? ==> reply == JsonError(guard.status, guard.error) && unchanged(store)
    ensures reply.VideoCreated? <==>
      PostGuard(isVercel, authorization, tokenHeader, payload).Accepted? && StagesPassed(env) == 4
    ensures reply.VideoCreated? ==>
      && reply.data.meetingId == PostGuard(isVercel, authorization, tokenHeader, payload).meetingId
      && reply.data.videoId in store.assets
      && (reply.data.runId in store.runs <==> storeNow < now + RunTtlMs)
      && (reply.data.runId in store.runs ==> store.runs[reply.data.runId].status == Completed)
    ensures reply.RunFailed? <==>
      PostGuard(isVercel, authorization, tokenHeader, payload).Accepted? && StagesPassed(env) != 4
    ensures reply.RunFailed? ==>
      && reply.error == FailureMessage(env)
      && reply.status == FailureStatus(reply.error)
      && (reply.runId in store.runs <==> StagesBeforeStorage(env) < 3 || storeNow < now + RunTtlMs)
      && (reply.runId in store.runs ==>
            store.runs[reply.runId].status == Failed && store.runs[reply.runId].progress == reply.progress)
  {
    var guard := PostGuard(isVercel, authorization, tokenHeader, payload);
    if guard.Rejected? {
      return JsonError(guard.status, guard.error);
    }
    var result, _ := store.GenerateMeetingVideo(
      guard.meetingId, ReadTrimmedField(payload.value, "runId"), now, storeNow, uuid, next, env);
    match result {
      case GenFailed(runId, error, progress) =>
        reply := RunFailed(FailureStatus(error), error, runId, progress);
      case GenOk(data) =>
        reply := VideoCreated(data);
    }
  }

  /**
   * `GET`: a non-empty `runId` decides the answer (a run or 404) even when it is blank after
   * trimming; otherwise a non-empty `videoId` gives the stored bytes or 404; otherwise 400.
   */
  method Get(store: PipelineStore, isVercel: bool, runId: Option<string>, videoId: Option<string>, now: int)
    returns (reply: VideoReply)
    requires store.Valid()
    modifies store
    ensures store.Valid()
    ensures isVercel ==> reply == JsonError(501, VercelDisabledError) && unchanged(store)
    ensures !isVercel && !Truthy(runId) && !Truthy(videoId) ==> reply == JsonError(400, NoQueryError) && unchanged(store)
    ensures !isVercel && (Truthy(runId) || Truthy(videoId)) ==>
      store.runs == old(LiveRuns(store.runs, now)) && store.assets == old(LiveAssets(store.assets, now))
    ensures !isVercel && Truthy(runId) ==>
      if !IsBlank(runId.value) && Trim(runId.value) in store.runs
      then reply == RunFound(store.runs[Trim(runId.value)].View())
      else reply == JsonError(404, NoRunError)
    ensures !isVercel && !Truthy(runId) && Truthy(videoId) ==>
      if !IsBlank(videoId.value) && Trim(videoId.value) in store.assets
      then
        var asset := store.assets[Trim(videoId.value)];
        reply == Playback(asset.mimeType, PlaybackCacheControl, NatToString(|asset.buffer|), asset.buffer)
        && asset.expiresAt > now
      else reply == JsonError(404, NoVideoError)
  {
    if isVercel {
      return JsonError(501, VercelDisabledError);
    }
    if Truthy(runId) {
      var run := store.GetVideoGenerationRun(runId.value, now);
      if run.None? {
        return JsonError(404, NoRunError);
      }
      return RunFound(run.value);
    }
    if Truthy(videoId) {
      var asset := store.GetStoredVideoAsset(videoId.value, now);
      if asset.None? {
        return JsonError(404, NoVideoError);
      }
      return Playback(asset.value.mimeType, PlaybackCacheControl, NatToString(|asset.value.buffer|), asset.value.buffer);
    }
    reply := JsonError(400, NoQueryError);
  }
}
