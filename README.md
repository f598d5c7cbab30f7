# Meeting recap video generator — a Dafny model of its core

The system turns a Granola meeting summary into a short vertical recap video. A server
process keeps an in-memory table of generation runs and a table of temporary video assets.
Each run drives four stages in turn: script generation (Gemini), clip generation (Veo),
stitching (ffmpeg crossfades) and temporary storage. Every stage is logged in an
append-only progress log. Around that core sit the pieces this model covers:

- the defensive decoders of Veo operation payloads and the Veo poll loop;
- the Granola MCP payload normalisers and the OAuth session and `state` bookkeeping of the
  MCP client;
- the Gemini text extraction and the prompt assembly;
- the request readers and status dispatch of the Next.js API routes;
- the client-side progress folding, key-point summaries and playback toggles of the feed
  components;
- the participant and connect-link pickers of the meeting list;
- the browser token hook.

The model is one Dafny module per source file:

- `VideoPipeline` — runs, assets and the orchestrator.
- `VideoStitcher` — transition arithmetic, the filter chain, and the guards and effects of
  one stitching call.
- `Veo` — operation payload readers and the poll loop.
- `Granola` — MCP tool and meeting payloads.
- `McpClient` — sessions and the OAuth `state` index.
- `ScriptGenerator` and `Prompts` — Gemini text extraction and prompt assembly.
- `RouteInputs`, `GenerateClipsRoute`, `GenerateVideoRoute`, `StitchVideoRoute`,
  `MeetingsRoute` and `GenerateScriptRoute` — the API routes.
- `VideoFeed`, `DemoVideoFeed` and `DemoPlayback` — the feed components.
- `MeetingCard` and `MeetingList` — the meeting list components.
- `GranolaToken` — the token hook.
- `Common`, `Text` and `JsValue` — shared definitions:
  - `Option` and `Result`;
  - the JavaScript string built-ins (`trim`, `split`, `join`, `toLowerCase` on ASCII,
    `includes`);
  - an untyped JSON value with JavaScript's property-read, `??` and `Number` semantics.

Where the source changes state in place it is modelled imperatively:

- the run and asset tables and each run are classes;
- the MCP sessions are objects in a class-held map;
- the meeting list, the token hook and the demo player are classes whose fields are their
  React state;
- the sweeps, the id generator loop, the Veo poll loop and the text-collecting loops are
  `while` loops with invariants.

The orchestrator sees the clock at two instants: `now` when the run starts and `storeNow`
when the asset is stored. `storeNow` drives the storage-time sweep, the asset's times, the
storage events and a failure at storage. Both readings, `randomUUID`, `Date` parsing,
`JSON.parse`, `URL`, base64 and `encodeURIComponent` are parameters. Network and subprocess
calls are supplied as their outcomes.

Behaviours of the code a reader might not expect:

- the stitcher's 0.1 s floor on the transition wins over half the shortest clip, so for
  clips under 0.2 s the transition is longer than half a clip
  (`VideoStitcher.TransitionMayExceedHalfShortest`);
- the stitcher clamps each `xfade` offset at zero but not the running elapsed time it keeps
  (`VideoStitcher.ElapsedIsNotClamped`);
- the feed reads the step names `summary`, `prompt`, `video` and `saving`, while the pipeline
  writes `pipeline`, `script`, `clips`, `stitching` and `video_storage`, so a pipeline log
  shows every step as pending (`VideoFeed.PipelineLogShowsAllPending`).

## Model

| member | source | states |
|---|---|---|
| VideoPipeline.SanitizeOptionalIdentifier | src/lib/video-pipeline.ts:118-130 | absent or blank gives `None`; otherwise the trimmed, non-empty identifier |
| VideoPipeline.MimeEnd | src/lib/video-pipeline.ts:205 | the mime group `[^;,]+` ends at the first `;` or `,`, which it never contains |
| VideoPipeline.MatchDataUrl | src/lib/video-pipeline.ts:205 | no match without the `data:` prefix; a match has a non-empty MIME group and a non-empty payload that, with the prefix and `;base64,`, make up the whole URL |
| VideoPipeline.MatchDataUrlSplits | src/lib/video-pipeline.ts:205 | every match of the data-URL regex splits the URL into `data:`, a mime group free of `;` and `,`, `;base64,` and a non-empty payload |
| VideoPipeline.MatchDataUrlOfParts | src/lib/video-pipeline.ts:205 | conversely, every such URL matches, with exactly those two groups |
| VideoPipeline.ParseStitchedVideoDataUrl | src/lib/video-pipeline.ts:201-222 | a success carries a non-empty trimmed payload; the only errors are the two fixed messages |
| VideoPipeline.MimeEndOfGroup | src/lib/video-pipeline.ts:205 | a group without `;` or `,` followed by `;` ends exactly where the group ends |
| VideoPipeline.ParseDataUrlRoundTrip | src/lib/video-pipeline.ts:201-222 | writing `data:<mime>;base64,<payload>` and parsing it gives back the trimmed mime (or the fallback when it trims to nothing) and the trimmed payload |
| VideoPipeline.ParseRejectsBlankPayload | src/lib/video-pipeline.ts:212-216 | a white-space payload passes the regex but is rejected with the missing-payload message |
| VideoPipeline.ParseRejectsEmptyPayload | src/lib/video-pipeline.ts:205-209 | an empty payload fails the regex and gets the not-a-data-URL message |
| VideoPipeline.HostedUrls | src/lib/video-pipeline.ts:249-251 | filtering the clip urls never gives more urls than clips |
| VideoPipeline.HostedUrlsAll | src/lib/video-pipeline.ts:249-255 | the filter keeps every clip exactly when every url is a non-blank string, and then keeps them in order, unchanged |
| VideoPipeline.ExtractHostedClipUrls | src/lib/video-pipeline.ts:248-258 | succeeds iff every clip has a non-blank url; then the urls, untrimmed, one per clip in clip order; otherwise the fixed error |
| VideoPipeline.StagesBeforeStorage | src/lib/video-pipeline.ts:263-292 | a run passes at most three of the script, clips and stitching stages |
| VideoPipeline.StagesPassed | src/lib/video-pipeline.ts:263-305 | a run passes at most the four stages |
| VideoPipeline.EarlyFailure | src/lib/video-pipeline.ts:263-292 | a run stopped before storage fails with that stage's message and passes no further stage |
| VideoPipeline.StorageOutcome | src/lib/video-pipeline.ts:294-305 | a run that reaches storage completes iff the stitched data URL parses; otherwise it fails with the parser's message |
| VideoPipeline.PlannedLog | src/lib/video-pipeline.ts:263-311 | the first `k` planned events are `k` events |
| VideoPipeline.PlannedLogNext | src/lib/video-pipeline.ts:179-193 | each planned step appends exactly the next planned event |
| VideoPipeline.PlannedLogFor | src/lib/video-pipeline.ts:263-311 | the first `k` events of a run's plan, with its chunk and clip counts |
| VideoPipeline.StorageEvents | src/lib/video-pipeline.ts:299-311 | the success log is the plan up to `video_storage/running`, stamped with the start time, then `video_storage/completed` and `pipeline/completed` with their fixed messages, stamped with the storage time; with one clock reading it is the ten planned events |
| VideoPipeline.Shape | src/lib/video-pipeline.ts:20-25 | the (step, status) pair of each event, in order |
| VideoPipeline.PlannedShapeAt | src/lib/video-pipeline.ts:263-311 | planned event `i` carries the `i`th pair of the success log, is never `failed`, and is `running` at odd positions before the last |
| VideoPipeline.SuccessLogShape | src/lib/video-pipeline.ts:263-311 | a successful run logs exactly pipeline/running, script running/completed, clips running/completed, stitching running/completed, video_storage running/completed, pipeline/completed |
| VideoPipeline.FailedLogShape | src/lib/video-pipeline.ts:195-199 | a failed run's log is a prefix of the success log ending in a `running` event, then one `pipeline/failed` with the message, stamped with the failure time; no step-level `failed` event |
| VideoPipeline.FailedLogPrefix | src/lib/video-pipeline.ts:263-300 | before the failure event the log has the success shape and no `failed` status |
| VideoPipeline.FailedLogEnd | src/lib/video-pipeline.ts:321-331 | the failure event is last, right after the failing step's `running` event |
| VideoPipeline.FailedLogFollowsPlan | src/lib/video-pipeline.ts:263-300 | the events before the failure are the planned ones |
| VideoPipeline.PlannedPairs | src/lib/video-pipeline.ts:263-311 | events that follow the plan carry the success pairs and are never `failed` |
| VideoPipeline.ShapePrefix | src/lib/video-pipeline.ts:20-25 | events carrying the first `k` target pairs give that shape prefix |
| VideoPipeline.Run.constructor | src/lib/video-pipeline.ts:162-172 | a new run: status `running`, no log yet, created and updated now, expiring in one hour, no video fields, no error |
| VideoPipeline.Run.View | src/lib/video-pipeline.ts:152-157 | the copy carries every field of the run, the progress list included |
| VideoPipeline.Run.AppendProgress | src/lib/video-pipeline.ts:179-193 | exactly one event at the end, earlier events unchanged, `updatedAt` set to its time, every other field unchanged |
| VideoPipeline.Run.MarkFailed | src/lib/video-pipeline.ts:195-199 | status `failed`, `error` the message, one `pipeline/failed` event appended, expiry and video fields unchanged |
| VideoPipeline.LiveRuns | src/lib/video-pipeline.ts:98-107 | the runs kept are exactly those expiring strictly after now, unchanged |
| VideoPipeline.LiveAssets | src/lib/video-pipeline.ts:109-115 | the assets kept are exactly those expiring strictly after now, unchanged |
| VideoPipeline.SweepIdempotent | src/lib/video-pipeline.ts:98-116 | a second sweep at the same instant removes nothing |
| VideoPipeline.LaterSweep | src/lib/video-pipeline.ts:98-116 | a sweep at a later instant after one at an earlier instant removes exactly what the later sweep alone would |
| VideoPipeline.DistinctDrawsBound | src/lib/video-pipeline.ts:139-143 | distinct draws that all collide with table keys are no more than the keys, so the retry loop ends |
| VideoPipeline.PipelineStore.constructor | src/lib/video-pipeline.ts:83-84 | both tables start empty |
| VideoPipeline.PipelineStore.CleanupExpiredEntries | src/lib/video-pipeline.ts:98-116 | the tables become exactly their live entries |
| VideoPipeline.PipelineStore.SweepRuns | src/lib/video-pipeline.ts:101-107 | the delete loop over the run table leaves exactly the live runs |
| VideoPipeline.PipelineStore.SweepAssets | src/lib/video-pipeline.ts:109-115 | the delete loop over the asset table leaves exactly the live assets |
| VideoPipeline.PipelineStore.EnsureUniqueRunId | src/lib/video-pipeline.ts:132-146 | the result is never a key of the run table; it is the sanitized preferred id when that is free, otherwise the first generator draw that is not a key, every earlier draw being one |
| VideoPipeline.PipelineStore.CreateRun | src/lib/video-pipeline.ts:159-177 | sweeps, then files a fresh run under a new unique id: status `running`, expiry now + 60 min, log of exactly one `pipeline/running` event |
| VideoPipeline.PipelineStore.StoreTemporaryVideo | src/lib/video-pipeline.ts:224-246 | sweeps; a bad data URL changes no asset; otherwise the decoded bytes are filed under a fresh id for 30 min and the playback URL is the prefix plus the encoded id |
| VideoPipeline.PipelineStore.GenerateMeetingVideo | src/lib/video-pipeline.ts:260-332 | succeeds iff all four stages pass. The run id is never a live key: the free preferred id, else a generator draw. On success the result has the success log (stamped at the start and at storage), status `completed`, a video id drawn from the generator, the asset's expiry storage time + 30 min, the encoded video URL, and the asset table is the sweep at storage plus the new asset. On failure the message and the failed log, and the asset table is the sweep at the failure. The run table is the sweep at the last sweep plus this run, while its hour has not passed; the filed run's status, log, expiry, error and video fields match the result |
| VideoPipeline.PipelineStore.StartRun | src/lib/video-pipeline.ts:260-292 | creates the run at the start time under a new unique id and runs script, clips and stitching; the stages passed, the run filed in the swept table, the planned or failed log; a later sweep finds the earlier table swept plus this run while its hour lasts |
| VideoPipeline.PipelineStore.StoreAndFinish | src/lib/video-pipeline.ts:294-311 | for a run that passed three stages: the run table becomes the sweep at storage time; a parsed data URL files the asset under the next draw and completes the run with the success log; otherwise the run is failed at storage time and the assets are only swept |
| VideoPipeline.PipelineStore.RunCollaborators | src/lib/video-pipeline.ts:263-292 | the script, clips and stitching steps: the stages passed, the planned log on success, the failed log and message otherwise |
| VideoPipeline.PipelineStore.ScriptStage | src/lib/video-pipeline.ts:264-275 | `script/running`, then `script/completed` with the chunk count iff the script succeeds; otherwise the run is failed with its message |
| VideoPipeline.PipelineStore.ClipsStage | src/lib/video-pipeline.ts:277-284 | `clips/running`, then `clips/completed` iff the clips arrive and all have hosted urls; otherwise the run is failed |
| VideoPipeline.PipelineStore.StitchStage | src/lib/video-pipeline.ts:286-297 | `stitching/running`, `stitching/completed` and `video_storage/running` iff stitching succeeds; otherwise the run is failed |
| VideoPipeline.PipelineStore.FinishRun | src/lib/video-pipeline.ts:299-311 | the playback fields are copied in, the expiry is overwritten with the asset's, status `completed`, the last two events appended stamped with the storage time, giving the success log |
| VideoPipeline.PipelineStore.GetVideoGenerationRun | src/lib/video-pipeline.ts:334-350 | sweeps; blank ids give `None`; otherwise a value copy of the live run filed under the trimmed id, whose expiry is later than now |
| VideoPipeline.PipelineStore.GetStoredVideoAsset | src/lib/video-pipeline.ts:352-362 | sweeps; the live asset filed under the trimmed id, if any, whose expiry is later than now |
| VideoStitcher.NormalizePositiveNumber | src/lib/video-stitcher.ts:93-99 | the value iff it is a finite number above zero, otherwise the fallback |
| VideoStitcher.Shortest | src/lib/video-stitcher.ts:119 | `Math.min` of a non-empty list is one of its durations and below all of them |
| VideoStitcher.ChooseTransitionDuration | src/lib/video-stitcher.ts:111-123 | the chosen transition is positive and at most the normalised request, which it equals when there are no durations. It is at most max(shortest/2, 0.1), at least 0.1 whenever the request is, and always either the request or that cap |
| VideoStitcher.AbsentRequestUsesDefault | src/lib/video-stitcher.ts:115-118 | an absent request becomes 0.35 s, which clips of 0.7 s or more leave unclamped (the default is the constant on line 8) |
| VideoStitcher.TransitionMayExceedHalfShortest | src/lib/video-stitcher.ts:119-122 | with clips under 0.2 s the 0.1 s floor wins: the transition exceeds half the shortest clip (the floor is the constant on line 9) |
| VideoStitcher.Offset | src/lib/video-stitcher.ts:194 | an xfade offset is never negative and never below the running elapsed less one transition |
| VideoStitcher.ElapsedClosedForm | src/lib/video-stitcher.ts:190-199 | the running elapsed before clip `i` is d[0]+…+d[i−1] − (i−1)·t: the loop never clamps it |
| VideoStitcher.OffsetClosedForm | src/lib/video-stitcher.ts:190-199 | the offset of the xfade bringing in clip `i` is max(d[0]+…+d[i−1] − i·t, 0) |
| VideoStitcher.NormalizeStages | src/lib/video-stitcher.ts:185-187 | one normalise stage per input |
| VideoStitcher.XfadeStages | src/lib/video-stitcher.ts:192-200 | one xfade per clip after the first |
| VideoStitcher.CrossfadeGraph | src/lib/video-stitcher.ts:179-206 | `n` clips give 2n−1 filter stages (none for an empty list) |
| VideoStitcher.BuildVideoCrossfadeFilters | src/lib/video-stitcher.ts:179-206 | the two push loops build exactly the crossfade graph |
| VideoStitcher.NormalizeStagesAt | src/lib/video-stitcher.ts:185-187 | stage `i` normalises input `i` into `v{i}` |
| VideoStitcher.XfadeStagesAt | src/lib/video-stitcher.ts:192-200 | the `i`th xfade is the one bringing in clip `i` |
| VideoStitcher.CrossfadeChainLink | src/lib/video-stitcher.ts:189-200 | xfade `i` sits at position n+i−1. It takes `v0` (for i = 1) or the previous xfade's output, then clip `i`'s normalised output. The chain is linear |
| VideoStitcher.CrossfadeGraphEnds | src/lib/video-stitcher.ts:185-205 | the first `n` stages normalise the inputs in index order; the final label is the last stage's output (`v0` or `vx{n−1}`) |
| VideoStitcher.OffsetsMonotone | src/lib/video-stitcher.ts:194-199 | once a clip is at least one transition long, the next offset does not move back |
| VideoStitcher.ElapsedIsNotClamped | src/lib/video-stitcher.ts:199 | two 0.1 s clips with 0.35 s fades leave the running elapsed negative while the offset stays 0 |
| VideoStitcher.NormalizeClipUrl | src/lib/video-stitcher.ts:101-109 | succeeds iff the trimmed text parses as an `http:` or `https:` URL |
| VideoStitcher.NormalizeClipUrlsFrom | src/lib/video-stitcher.ts:260 | every URL normalises, in list order, or the call fails |
| VideoStitcher.AfterLastSlash | src/lib/video-stitcher.ts:268 | the last path segment is a slash-free suffix |
| VideoStitcher.LastDot | src/lib/video-stitcher.ts:268 | the position of the last `.`, or none when there is no dot |
| VideoStitcher.ExtName | src/lib/video-stitcher.ts:268 | `extname` is empty or starts with `.` |
| VideoStitcher.PadTwo | src/lib/video-stitcher.ts:269 | `padStart(2, "0")` adds one zero to a one-digit number and leaves longer ones alone |
| VideoStitcher.ClipNumber | src/lib/video-stitcher.ts:269 | clip numbers have at least two characters |
| VideoStitcher.ClipNumberDigit | src/lib/video-stitcher.ts:269 | clip numbers are digits only |
| VideoStitcher.ClipFileName | src/lib/video-stitcher.ts:268-269 | the padded number followed by the URL path's extension, or `.mp4` when it has none |
| VideoStitcher.ClipNumberInjective | src/lib/video-stitcher.ts:269 | distinct clip indices get distinct numbers |
| VideoStitcher.ShortClipNumbers | src/lib/video-stitcher.ts:269 | two padded one-digit numbers are equal only for the same index |
| VideoStitcher.PaddedNotUnpadded | src/lib/video-stitcher.ts:269 | a padded one-digit number never equals a number of two or more digits |
| VideoStitcher.FirstDotAfterDigits | src/lib/video-stitcher.ts:268-269 | in digits followed by an extension, the first dot is where the extension starts |
| VideoStitcher.DigitsThenDot | src/lib/video-stitcher.ts:268-269 | a file name of digits then an extension splits only one way |
| VideoStitcher.ClipFileNamesDistinct | src/lib/video-stitcher.ts:266-272 | distinct clips get distinct file names whatever their extensions, so downloads never overwrite each other |
| VideoStitcher.ProbeDurationSeconds | src/lib/video-stitcher.ts:125-143 | a probe succeeds only with a finite duration above zero |
| VideoStitcher.ClipPaths | src/lib/video-stitcher.ts:265-273 | one path per clip |
| VideoStitcher.DownloadClips | src/lib/video-stitcher.ts:265-273 | on success the paths in clip order; the only effects are downloads |
| VideoStitcher.ProbeAll | src/lib/video-stitcher.ts:213 | on success the durations are, in order, exactly what the probe reports for each input, each positive; the only effects are probes |
| VideoStitcher.RunFfmpeg | src/lib/video-stitcher.ts:166-177 | one encoder run per call |
| VideoStitcher.NormalizeClipUrls | src/lib/video-stitcher.ts:262 | every URL is normalised, in order, exactly when each one is accepted; otherwise the error of the first one rejected |
| VideoStitcher.NormalizeFirstError | src/lib/video-stitcher.ts:262 | a failed normalisation from any position carries the error of the first entry rejected from there on |
| VideoStitcher.EncodeClips | src/lib/video-stitcher.ts:275-282 | one clip: a single plain re-encode and no probe; several: a failed probe fails the call; otherwise every input is probed, in order, and then one crossfade encode runs over all inputs into the output path, with the xfade graph built from the probed durations and the transition chosen from them, and the call succeeds exactly when that encode does |
| VideoStitcher.StitchInTempDirectory | src/lib/video-stitcher.ts:264-290 | on success: the MP4 data URL of the output, every clip downloaded in order first and the output read back last; a failure once the output was read is the read error |
| VideoStitcher.StitchVideoClips | src/lib/video-stitcher.ts:251-294 | a success needs all guards passed and mkdtemp, readFile and rm to succeed; its effects start with the temp directory, end with the read-back and the removal. A failed mkdtemp has no effect; a failed rm replaces the result with its error |
| VideoStitcher.StitchDownloadsEveryClip | src/lib/video-stitcher.ts:264-273 | a success downloads every clip, in list order, right after the temp directory is made |
| VideoStitcher.StitchGuardsAndCleanup | src/lib/video-stitcher.ts:251-294 | the guards run in order, each before any effect: Vercel, then an empty list, then a URL that is not http(s). After them the temp directory is created first and removed last on every path |
| VideoStitcher.StitchSuccessIsDataUrl | src/lib/video-stitcher.ts:285-290 | a success is the `data:video/mp4;base64,` URL of the output file with mime `video/mp4` |
| VideoStitcher.SingleClipSkipsProbes | src/lib/video-stitcher.ts:275-276 | one clip is re-encoded on its own, with no probe and no filter graph |
| VideoStitcher.SingleClipBody | src/lib/video-stitcher.ts:264-290 | with one clip downloaded, the body encodes that clip alone and probes nothing |
| VideoStitcher.SingleClipEffects | src/lib/video-stitcher.ts:264-290 | that body's effects are the download, the encode, and the read-back when the encode succeeds |
| VideoStitcher.SingleDownload | src/lib/video-stitcher.ts:265-273 | one successful download gives one path and one download effect |
| VideoStitcher.ProbeFailureStopsStitching | src/lib/video-stitcher.ts:278-282 | several clips are all probed before encoding; the first duration that is not a finite positive number fails the call before any encode (also lines 135-137 and 213) |
| VideoStitcher.ProbeAllStopsAt | src/lib/video-stitcher.ts:213 | the probes fail with the message of the first failing probe |
| VideoStitcher.StitchedVideoParses | src/lib/video-stitcher.ts:287-290 | the pipeline's data-URL parser accepts every stitched result whose base64 is not blank, with mime `video/mp4` |
| Veo.ExtractOperationName | src/lib/veo.ts:63-77 | for a record: a non-blank top-level string `name` wins, trimmed; otherwise the trimmed `operation.name` string, even when it trims to "", or none; a payload that is not a record has none |
| Veo.TopLevelNameWins | src/lib/veo.ts:68-71 | a non-blank top-level `name` wins, trimmed |
| Veo.NestedNameMayBeEmpty | src/lib/veo.ts:73-76 | without a non-blank top-level name, a blank `operation.name` yields "" and the start request then fails with the missing-name error |
| Veo.StartRawOperation | src/lib/veo.ts:179-191 | succeeds iff the request succeeded and the extracted name is non-empty; then that trimmed name, otherwise the fixed error |
| Veo.ExtractOperationError | src/lib/veo.ts:79-95 | a message exactly when `error` is a record whose `message` is a non-blank string; that message, untrimmed |
| Veo.ExtractGeneratedVideos | src/lib/veo.ts:97-119 | a payload that is not a record has no videos. Otherwise, from `response` when it is a record, else the payload: `generateVideoResponse.generatedSamples` when an array; else a non-nullish `generatedVideos`, its items if an array and [] otherwise; else `generated_videos` if an array, else [] |
| Veo.VideoCandidate | src/lib/veo.ts:126-128 | the asset fields are read from `video` when it is a record, else from the generated video itself; a record gives a record |
| Veo.LegacyAliasBlocked | src/lib/veo.ts:113-118 | for every record payload without a samples array: a present `generatedVideos` that is neither null nor an array hides `generated_videos`, and the result is [] |
| Veo.ExtractVideoAsset | src/lib/veo.ts:121-124 | a value that is not a record yields no url, buffer or mime type |
| Veo.FirstUrlAliasDecides | src/lib/veo.ts:126-156 | the first url alias that is not null or undefined decides: its string, or nothing when it is not a string |
| Veo.FirstBufferAliasDecides | src/lib/veo.ts:142-157 | the same for the buffer aliases |
| Veo.FirstMimeAliasDecides | src/lib/veo.ts:152-158 | the same for the mime-type aliases |
| Veo.NonStringUrlBlocksLaterAliases | src/lib/veo.ts:130-156 | a numeric `url` hides a string `uri` after it |
| Veo.GetOperationStatus | src/lib/veo.ts:194-215 | a successful poll reports done iff the payload is a record with `done === true`, with the extracted error and the payload |
| Veo.DoneMustBeTrue | src/lib/veo.ts:211 | a truthy `done` that is not literally `true` is not done |
| Veo.PollRound | src/lib/veo.ts:221-241 | a round that stops with an asset has a url or a buffer |
| Veo.ErrorCheckedBeforeDone | src/lib/veo.ts:223-227 | an operation reporting an error fails the poll even when it is done |
| Veo.PollFrom | src/lib/veo.ts:217-247 | the poll outcome is the timeout error or the outcome of some later round that stopped; once the timeout has elapsed it is the timeout error |
| Veo.PolledAssetHasLocator | src/lib/veo.ts:217-247 | every asset the poll returns has a non-empty url or buffer |
| Veo.NoPollAfterTimeout | src/lib/veo.ts:220-246 | when the first reading is already past the timeout, nothing is polled and the timeout error is raised |
| Veo.PollForVideo | src/lib/veo.ts:217-247 | the loop polls only while less than the timeout has elapsed and computes the poll outcome; any asset has a url or a buffer |
| Veo.GenerateSingleVideo | src/lib/veo.ts:249-275 | a missing key fails first. Otherwise it requests the 9:16 default aspect ratio and polls every 3000 ms for up to 180000 ms. A start failure is passed on; any asset has a url or a buffer (also lines 8-10 and 53-61) |
| Granola.TextSegments | src/lib/granola.ts:37-45 | no more segments than content items |
| Granola.TextSegmentsAppend | src/lib/granola.ts:37-45 | collecting segments distributes over concatenated content lists: order is kept |
| Granola.SkippedItemContributesNothing | src/lib/granola.ts:38-44 | an item that is not a record of type `"text"` with a string `text` adds nothing |
| Granola.TextContent | src/lib/granola.ts:30-48 | the result is trimmed, and "" without a `content` array |
| Granola.GetTextContent | src/lib/granola.ts:30-48 | the push loop computes the text segments joined by newlines and trimmed |
| Granola.FindFenceOpen | src/lib/granola.ts:58 | the first "```json" opening (any case of `json`) at or after a position, or none |
| Granola.FindFenceClose | src/lib/granola.ts:58 | the first "```" at or after a position, or none |
| Granola.SkipSpace | src/lib/granola.ts:58 | `\s*`: the first position that is not white space |
| Granola.OpeningFound | src/lib/granola.ts:58 | the opening right after text holding none is the first one found |
| Granola.NoOpeningBefore | src/lib/granola.ts:58 | no opening starts inside a prefix holding none when "```" follows it |
| Granola.ClosingFound | src/lib/granola.ts:58 | the lazy `*?` stops at the first "```" after the block |
| Granola.FencedJsonBlock | src/lib/granola.ts:58-60 | no block without a "```json" opening; a block found contains no "```" and does not start with white space |
| Granola.NoCloseBeforeFirst | src/lib/granola.ts:58 | the text between the block start and the first closing holds no "```" |
| Granola.FencedBlockFound | src/lib/granola.ts:58-60 | a block fenced as "```json" … "```" is recovered from the surrounding text |
| Granola.BlockStartsAt | src/lib/granola.ts:58 | nothing is skipped before a block that does not start with white space |
| Granola.ExtractJsonFromText | src/lib/granola.ts:50-70 | non-empty text that parses as JSON gives the parsed value |
| Granola.UnparsableTextKept | src/lib/granola.ts:57-68 | when neither the text nor a fenced block parses, the text comes back unchanged |
| Granola.ExtractToolPayload | src/lib/granola.ts:72-78 | a defined `structuredContent`, even null, wins; a result that is not a record gives "" |
| Granola.TruthyIsErrorIgnored | src/lib/granola.ts:80-82 | an `isError` that is anything but the boolean true, truthy or not, is not an error |
| Granola.FindTool | src/lib/granola.ts:89 | `find` returns the first tool of that name, and none only when no tool has it |
| Granola.PickTool | src/lib/granola.ts:84-96 | a picked tool is listed and carries a candidate name; none exactly when no candidate is listed |
| Granola.PickToolIsEarliest | src/lib/granola.ts:88-93 | the picked tool is the one for the earliest candidate in candidate order |
| Granola.PickToolOrderIndependent | src/lib/granola.ts:84-96 | reordering the tool list does not change which name is picked |
| Granola.EarliestPresent | src/lib/granola.ts:88-93 | if some candidate is listed, there is an earliest one |
| Granola.PickToolByName | src/lib/granola.ts:84-96 | the early-return loop over candidates computes the pick |
| Granola.FilterEntries | src/lib/granola.ts:111-115 | exactly the default entries whose key is a property, values unchanged |
| Granola.FilterArgsBySchema | src/lib/granola.ts:98-118 | {} without schema properties; otherwise exactly the defaults whose key is a property, in order |
| Granola.NormalizeMeeting | src/lib/granola.ts:120-135 | every original field is kept, and `startedAt` and `endedAt` are the string fields or absent |
| Granola.MeetingIdFromFirstAlias | src/lib/granola.ts:121-129 | the first alias that is not null or undefined decides the id: its string, or "unknown" when it is not a string |
| Granola.MeetingTitleFromFirstAlias | src/lib/granola.ts:123-130 | the same for the title, with "Untitled meeting" |
| Granola.MeetingSummaryFromFirstAlias | src/lib/granola.ts:124-133 | the same for the summary, absent when it is not a string |
| Granola.MeetingWithoutAliases | src/lib/granola.ts:129-130 | without any alias, id "unknown" and title "Untitled meeting" |
| Granola.NormalizeRecords | src/lib/granola.ts:139-150 | only records survive, each from the list, never more than the list |
| Granola.NormalizeAllRecords | src/lib/granola.ts:139-150 | a list of records loses nothing: entry `k` becomes meeting `k` |
| Granola.NormalizeMeetings | src/lib/granola.ts:137-155 | a top-level array is used directly; for an object, `meetings` when it is an array, else `documents` when it is, else `items` when it is, else []; anything else gives [] |
| Granola.MeetingsArrayWins | src/lib/granola.ts:146-152 | a `meetings` array decides even when it holds no records and `documents` does |
| Granola.NoRecordsNoMeetings | src/lib/granola.ts:139-150 | a list without records gives [] |
| Granola.FirstIn | src/lib/granola.ts:168 | the first preferred key that is a property, in preference order, or none when no preferred key is |
| Granola.FirstIdLike | src/lib/granola.ts:169 | the first property, in schema order, ending in "id" in any case, or none |
| Granola.BuildSummaryArgs | src/lib/granola.ts:157-176 | a one-key object whose value is the document id; the key is the first preferred key among the properties, else the first id-like property, else the first property, else "document_id" |
| Granola.SummaryKeyIsProperty | src/lib/granola.ts:167-171 | the key is a schema property whenever there is one, and "document_id" otherwise |
| Granola.PreferredKeyWins | src/lib/granola.ts:159-168 | whenever preferred key `k` is a property, the key chosen is a preferred key at or before `k`, whatever id-like properties are listed before it |
| Granola.SummaryFromPayload | src/lib/granola.ts:178-189 | a string as is; an array as its serialised entries joined by newlines; other non-records "" |
| Granola.ObjectSummaryFromFirstAlias | src/lib/granola.ts:191-201 | an object's first present summary alias is used when it is a string, else the object is serialised |
| McpClient.Session.constructor | src/lib/mcp-client.ts:25-39 | a new session has no client information, tokens, verifier, pending URL or expected state |
| McpClient.Untrack | src/lib/mcp-client.ts:60-64 | `removeTrackedState`: a non-empty state is removed from the index, every other entry is kept unchanged; an absent or empty state changes nothing |
| McpClient.LastSaveWins | src/lib/mcp-client.ts:108-114 | after any sequence of provider calls, the tokens read back are the last ones saved |
| McpClient.IssueStateRetiresPrevious | src/lib/mcp-client.ts:90-98 | issuing a state makes it the expected state, maps it to the session, and drops the previous expected state from the index |
| McpClient.SessionStore.ResolveSessionId | src/lib/mcp-client.ts:214 | an explicit session id wins, even an empty one; otherwise the id indexed under a truthy state, or none |
| McpClient.SessionStore.HasGranolaConnection | src/lib/mcp-client.ts:155-157 | an unknown session is never connected; a connected one holds tokens |
| McpClient.SessionStore.constructor | src/lib/mcp-client.ts:33-34 | both maps start empty |
| McpClient.SessionStore.AtMostOneStatePerSession | src/lib/mcp-client.ts:90-98 | in every reachable store, a session has at most one indexed state (also lines 60-64 and 239-242) |
| McpClient.SessionStore.GetOrCreateSession | src/lib/mcp-client.ts:36-44 | the existing session for the id, or a fresh empty one inserted under it; an existing entry is never replaced and the state index is untouched |
| McpClient.SessionStore.SessionIdForOAuthState | src/lib/mcp-client.ts:147-153 | nothing for a null or empty state; otherwise the session id the index holds for it, if any |
| McpClient.SessionStore.WithGranolaClient | src/lib/mcp-client.ts:159-196 | the provider calls update the session and index in order. A connected call is `ok` with its data; other errors are rethrown. Unauthorized is `auth_required` with the captured URL, or throws without one. Every other session keeps its object and its fields |
| McpClient.SessionStore.CompleteGranolaAuthorization | src/lib/mcp-client.ts:211-248 | the explicit session id wins over the state lookup, and nothing resolved fails before any transport work. An expected state must equal the callback's, or it fails before transport work. Success leaves the tokens and client information the exchange saved and clears the URL, verifier and expected state, and no indexed state names the session. Every other session keeps its object and its fields |
| McpClient.SessionStore.ClearAuthorization | src/lib/mcp-client.ts:239-242 | the pending URL, verifier and expected state are cleared; the old expected state leaves the index, and no indexed state names the session |
| McpClient.GranolaOAuthProvider.ClientInformation | src/lib/mcp-client.ts:100-102 | what the store holds for the provider's session id |
| McpClient.GranolaOAuthProvider.Tokens | src/lib/mcp-client.ts:108-110 | what the store holds for the provider's session; present exactly when the store reports the session connected |
| McpClient.GranolaOAuthProvider.constructor | src/lib/mcp-client.ts:69-74 | the provider works on the table's session for its id, created empty when missing |
| McpClient.GranolaOAuthProvider.IssueState | src/lib/mcp-client.ts:90-98 | `state()`: the previous expected state is untracked, the new one is stored and indexed for this session |
| McpClient.GranolaOAuthProvider.SaveClientInformation | src/lib/mcp-client.ts:100-106 | the client information reads back exactly what was saved; nothing else changes |
| McpClient.GranolaOAuthProvider.SaveTokens | src/lib/mcp-client.ts:108-114 | the tokens read back exactly what was saved, and the session now counts as connected (also lines 155-157) |
| McpClient.GranolaOAuthProvider.RedirectToAuthorization | src/lib/mcp-client.ts:116-118 | the authorization URL is captured as pending; nothing else changes |
| McpClient.GranolaOAuthProvider.SaveCodeVerifier | src/lib/mcp-client.ts:120-130 | the verifier reads back as saved, or throws when the saved one is empty |
| McpClient.GranolaOAuthProvider.CodeVerifier | src/lib/mcp-client.ts:124-130 | throws iff no non-empty verifier is saved; otherwise the saved one |
| McpClient.GranolaOAuthProvider.Replay | src/lib/mcp-client.ts:90-130 | applying the SDK's calls in order gives the same session and index as the call-by-call specification |
| ScriptGenerator.CollectedAppend | src/lib/script-generator.ts:15-31 | the texts collected from two candidate lists in a row are those of the first followed by those of the second: the loop keeps candidate order |
| ScriptGenerator.MalformedCandidateSkipped | src/lib/script-generator.ts:16-24 | a candidate that is not a record, has no record `content` or no `parts` array adds no text |
| ScriptGenerator.GeminiText | src/lib/script-generator.ts:8-34 | the extracted text is always trimmed, and a payload that is not a record with a `candidates` array gives "" |
| ScriptGenerator.ExtractGeminiText | src/lib/script-generator.ts:8-34 | the nested loops over candidates and parts return exactly the trimmed newline join of every string `text` of every record part of every well-formed candidate |
| ScriptGenerator.VideoPrompt | src/lib/script-generator.ts:55-64 | the prompt is the fixed instruction lines, a newline, then the trimmed summary |
| ScriptGenerator.VideoPromptEndsWithSummary | src/lib/script-generator.ts:62-63 | the prompt ends with the line "Meeting summary:" followed by the summary |
| ScriptGenerator.GenerateVideoPrompt | src/lib/script-generator.ts:36-92 | a blank summary fails before the key is read; a missing or empty key fails before any request; otherwise the prompt is sent, a failed request's error is passed on, an empty extracted text is the "no content" error, and a success is the non-empty extracted text |
| ScriptGenerator.SummaryCheckedBeforeApiKey | src/lib/script-generator.ts:47-53 | with both the summary blank and the key missing, the summary error is the one reported |
| Prompts.BuildScriptPrompt | src/lib/prompts.ts:3-29 | the prompt is the fixed instruction and schema lines, a newline, then the trimmed summary |
| Prompts.PromptEndsWithSummary | src/lib/prompts.ts:27-28 | the prompt ends with the line "Meeting summary:" followed by the trimmed summary |
| Prompts.PromptPrefixIndependentOfSummary | src/lib/prompts.ts:4-27 | everything before the summary is the same text for every summary |
| Prompts.PromptContainsLine | src/lib/prompts.ts:4-27 | each fixed line occurs in the prompt, whatever the summary |
| Prompts.PromptContainsPiece | src/lib/prompts.ts:4-27 | any piece of a fixed line occurs in the prompt |
| Prompts.PromptCarriesTargetDuration | src/lib/prompts.ts:1-13 | the schema example carries `"durationSeconds": 8,`, the target chunk length |
| Prompts.PromptMentionsEightSeconds | src/lib/prompts.ts:22 | the prompt asks for chunks of about 8 seconds |
| Prompts.PromptMentionsJson | src/lib/prompts.ts:6 | the prompt asks for JSON only |
| Prompts.PromptMentionsVisualOverlay | src/lib/prompts.ts:25 | the prompt requires every visual prompt to carry text-overlay context |
| RouteInputs.ReadAccessToken | src/app/api/meetings/route.ts:20-38 | the token is the trimmed text after a case-insensitive "bearer " when that is not blank, else the trimmed `x-granola-token` header when that is not blank, else none; a token is never empty or padded (the copy in src/app/api/generate-video/route.ts:41-59 is the same) |
| RouteInputs.BearerSchemeAnyCase | src/app/api/meetings/route.ts:23-24 | the scheme name "Bearer" is matched in any letter case |
| RouteInputs.BlankBearerFallsBack | src/app/api/meetings/route.ts:26-35 | a blank bearer value does not stop the custom header from being used |
| RouteInputs.UpperCaseForbiddenIsAuth | src/app/api/meetings/route.ts:40-48 | the auth-error test lower-cases first, so "FORBIDDEN" anywhere in a message is an auth error |
| RouteInputs.ReadTrimmedField | src/app/api/generate-script/route.ts:11-21 | a field is read exactly when the payload is a record and the field is a string with a non-space character, and the result is that string trimmed (also `readRequiredMeetingId` and `readOptionalRunId` in src/app/api/generate-video/route.ts:17-39) |
| MeetingsRoute.LeadingDigits | src/app/api/meetings/route.ts:11 | the digits `parseInt` reads are the longest run of decimal digits at the start of the text |
| MeetingsRoute.ParseInt | src/app/api/meetings/route.ts:11 | `parseInt` yields NaN exactly when no digit follows the leading white space and optional sign |
| MeetingsRoute.ParseLimit | src/app/api/meetings/route.ts:6-18 | a limit is read exactly when the parameter is present, non-empty and parses to a number above zero; the limit is then that parsed number |
| MeetingsRoute.DigitsValueOfNatToString | src/app/api/meetings/route.ts:11 | a number's decimal text is all digits and reads back as the number |
| MeetingsRoute.LeadingDigitsOfDigits | src/app/api/meetings/route.ts:11 | digits followed by a non-digit are read up to the non-digit |
| MeetingsRoute.ParseIntOfDigits | src/app/api/meetings/route.ts:11 | text starting with digits parses to the value of those digits, whatever non-digit text follows |
| MeetingsRoute.ParseLimitRoundTrip | src/app/api/meetings/route.ts:6-18 | every positive limit written in decimal, with or without trailing non-digit text, is read back as itself |
| MeetingsRoute.NonPositiveLimitIgnored | src/app/api/meetings/route.ts:13-15 | "0" and negative numbers give no limit |
| MeetingsRoute.FailureReply | src/app/api/meetings/route.ts:77-94 | an auth-like failure message becomes 401 with the fixed reconnect text; any other becomes 500 with the message itself |
| MeetingsRoute.Get | src/app/api/meetings/route.ts:51-96 | no token answers 401 before any fetch; with a token, the summary fetch (with a document id) or the list fetch (with the parsed limit) decides the reply: its data, or the error reply for its message, which is the fixed 401 text for auth-like messages and 500 with the message otherwise |
| MeetingsRoute.DocumentIdIgnoresLimit | src/app/api/meetings/route.ts:66-69 | with a document id the `limit` parameter does not affect the answer |
| MeetingsRoute.UpstreamUnauthorizedMasked | src/app/api/meetings/route.ts:80-86 | an upstream "FORBIDDEN" failure is answered with the route's fixed 401 text, not the upstream message |
| GenerateScriptRoute.Post | src/app/api/generate-script/route.ts:23-89 | a missing or empty session cookie answers 401 with the connect link; then an unparsable body answers 400; then a missing meeting id answers 400; only then is the generator asked, with the session, the origin and the trimmed id, and its answer decides the reply: its chunks, its authorization link, or its error with 500 |
| GenerateScriptRoute.EmptyCookieNotConnected | src/app/api/generate-script/route.ts:24-34 | an empty cookie value counts as not connected |
| GenerateScriptRoute.OnlyMeetingIdMatters | src/app/api/generate-script/route.ts:49-65 | two bodies with the same trimmed meeting id get the same answer |
| GenerateScriptRoute.PaddedMeetingIdRead | src/app/api/generate-script/route.ts:16-17 | a meeting id padded with spaces is read as the id itself |
| GenerateScriptRoute.MeetingIdTrimmed | src/app/api/generate-script/route.ts:61-65 | padding the meeting id with spaces does not change the answer (also lines 16-17) |
| StitchVideoRoute.TrimmedStrings | src/app/api/stitch-video/route.ts:19-22 | the kept entries are non-empty, trimmed and no more numerous than the list |
| StitchVideoRoute.TrimmedStringsMembers | src/app/api/stitch-video/route.ts:19-22 | every string entry that is not blank is kept trimmed, and every kept entry is the trimmed form of a string entry |
| StitchVideoRoute.StringEntries | src/app/api/stitch-video/route.ts:19-22 | no more entries than the list, each one a string the list holds |
| StitchVideoRoute.TrimmedStringsIsPipeline | src/app/api/stitch-video/route.ts:19-22 | the filter is: keep the strings, trim each, drop the empty ones |
| StitchVideoRoute.TrimmedStringsAppend | src/app/api/stitch-video/route.ts:19-22 | filtering distributes over concatenated lists, so order is kept |
| StitchVideoRoute.ClipList | src/app/api/stitch-video/route.ts:11-17 | a top-level array is the list; for an object an array `clipUrls` wins, else an array `clips`, else [] |
| StitchVideoRoute.ReadClipUrls | src/app/api/stitch-video/route.ts:10-23 | the clip list's strings, trimmed, with the empty ones dropped, in order; every entry is non-empty and trimmed |
| StitchVideoRoute.EmptyClipUrlsHidesClips | src/app/api/stitch-video/route.ts:11-17 | for every object with a `clipUrls` array, the urls are read from that array alone, so an empty `clipUrls` hides `clips` |
| StitchVideoRoute.ClipUrlsTrimmedInOrder | src/app/api/stitch-video/route.ts:10-23 | for all lists, reading the concatenation reads each part in turn: non-strings and blank strings are dropped and the rest trimmed and kept in order |
| StitchVideoRoute.ReadTransitionDurationSeconds | src/app/api/stitch-video/route.ts:25-37 | a length is read exactly when the payload is a record and `Number` of the field is finite and above zero, and it is that number |
| StitchVideoRoute.Post | src/app/api/stitch-video/route.ts:39-84 | an unparsable body and an empty clip list answer 400 without running the stitcher; otherwise the stitcher runs on the trimmed clip list and the requested transition, its effects are the reply's, its error answers 500 with its message and its success answers with its URL and MIME type, an MP4 data URL of the stitched file |
| StitchVideoRoute.PostCleansUp | src/app/api/stitch-video/route.ts:64-73 | once the stitcher runs its first effect creates the temporary directory and its last removes it; with no effects the answer is an error |
| GenerateClipsRoute.RoundedOr | src/app/api/generate-clips/route.ts:29-33 | a finite number above zero is rounded to the nearest integer (within one half); anything else gives the fallback |
| GenerateClipsRoute.NormalizeChunk | src/app/api/generate-clips/route.ts:13-38 | an entry becomes a chunk exactly when it is a record with string `narration` and `visualPrompt`; both are trimmed, a string `textOverlay` is trimmed and any other is dropped, and the index and duration are `Math.round` of a finite positive number, else the position plus one and 8 seconds |
| GenerateClipsRoute.BlankNarrationAccepted | src/app/api/generate-clips/route.ts:21-34 | a blank narration is not rejected: it is kept as "" |
| GenerateClipsRoute.MissingIndexUsesPosition | src/app/api/generate-clips/route.ts:25-29 | without an `index` field a chunk is numbered by its position, counted from one |
| GenerateClipsRoute.ReadChunks | src/app/api/generate-clips/route.ts:40-50 | no more chunks are read than the list has entries |
| GenerateClipsRoute.KeepDefined | src/app/api/generate-clips/route.ts:47-49 | mapping then filtering never yields more values than entries |
| GenerateClipsRoute.KeptInOrder | src/app/api/generate-clips/route.ts:47-49 | every kept value is the mapped value of one entry at its original position, and the kept values are in the entries' order |
| GenerateClipsRoute.KeptChunksInOrder | src/app/api/generate-clips/route.ts:40-50 | each chunk read is the normalisation of a distinct entry at its original position, in list order |
| GenerateClipsRoute.DroppedEntryKeepsPositions | src/app/api/generate-clips/route.ts:47-49 | an invalid first entry is dropped after numbering, so the entries after it keep their original positions |
| GenerateClipsRoute.Locators | src/app/api/generate-clips/route.ts:82-84 | every clip keeps its locator exactly when every clip has a non-empty `url ?? bufferBase64`, and then the locators are those, in clip order |
| GenerateClipsRoute.Post | src/app/api/generate-clips/route.ts:52-101 | an unparsable body and a list with no valid chunk answer 400 before generating; a generator error answers 500 with its message; any clip without a locator answers 500 with the fixed text; when every clip has a locator the reply is exactly the locators, one per clip, in order |
| GenerateClipsRoute.EmptyUrlHidesBuffer | src/app/api/generate-clips/route.ts:83-84 | an empty `url` is not nullish, so it hides the buffer and the clip counts as having no locator |
| GenerateClipsRoute.Locator | src/app/api/generate-clips/route.ts:83 | `url ?? bufferBase64`: a present url wins even when empty; none only when both are absent |
| GenerateVideoRoute.FailureStatus | src/app/api/generate-video/route.ts:61-70 | a failed run answers 401 exactly when its message is auth-like, else 500 (also line 124) |
| GenerateVideoRoute.PostGuard | src/app/api/generate-video/route.ts:72-115 | the guards run in order (deployment 501, token 401, body 400, meeting id 400); a request passes exactly when none rejects it, and then carries the trimmed, non-empty meeting id |
| GenerateVideoRoute.BlankMeetingIdRejected | src/app/api/generate-video/route.ts:106-115 | a meeting id of white space is rejected like a missing one (also line 22) |
| GenerateVideoRoute.Post | src/app/api/generate-video/route.ts:72-145 | a rejected request leaves both tables untouched; an accepted one runs the pipeline, answers with the created video exactly when all four stages pass (its run recorded as completed while its hour lasts at storage time), and otherwise answers 401 or 500 with the failing stage's message, the run id and the run's recorded progress |
| GenerateVideoRoute.Get | src/app/api/generate-video/route.ts:147-212 | a non-empty `runId` decides the answer (the live run's view or 404); otherwise a non-empty `videoId` gives the live asset's bytes with its MIME type, the fixed cache header and its byte length, or 404; otherwise 400; a lookup first sweeps expired runs and assets, and the 501 and 400 answers change nothing |
| VideoFeed.MeetingKey | src/components/VideoFeed.tsx:55-61 | the key is the id, untrimmed, when it is a string with a non-space character, else `meeting-<index>`; it is never empty |
| VideoFeed.FallbackKeysDistinct | src/components/VideoFeed.tsx:60 | meetings without a usable id at different positions get different keys |
| VideoFeed.StripMarkersSuffix | src/components/VideoFeed.tsx:75 | stripping list markers leaves a suffix of the line that does not start with `-`, `*`, a digit, `.` or white space |
| VideoFeed.RemoveReturns | src/components/VideoFeed.tsx:73 | removing carriage returns leaves none and never lengthens the text |
| VideoFeed.CleanLine | src/components/VideoFeed.tsx:75 | a cleaned line is trimmed |
| VideoFeed.CleanLines | src/components/VideoFeed.tsx:75 | cleaning keeps one entry per line |
| VideoFeed.CleanLinesAt | src/components/VideoFeed.tsx:75 | cleaned line `k` is line `k` cleaned |
| VideoFeed.SummarizeKeyPoints | src/components/VideoFeed.tsx:63-87 | at most three points; the three placeholders for an absent or blank summary; otherwise the first three non-empty cleaned lines, or the first three non-empty sentences when no line survives |
| VideoFeed.LineCandidates | src/components/VideoFeed.tsx:72-76 | every surviving line is non-empty and trimmed |
| VideoFeed.SentenceCandidates | src/components/VideoFeed.tsx:82-85 | every surviving sentence is non-empty and trimmed |
| VideoFeed.TakeKeepsTrimmed | src/components/VideoFeed.tsx:79-86 | taking the first three keeps the points non-empty and trimmed |
| VideoFeed.KeyPointsTrimmed | src/components/VideoFeed.tsx:72-86 | every key point of a summary that is not blank is non-empty and trimmed |
| VideoFeed.TrimContained | src/components/VideoFeed.tsx:75-84 | a trimmed string occurs in the string it came from |
| VideoFeed.SplitPartsContained | src/components/VideoFeed.tsx:74 | every piece of a split occurs in the split text |
| VideoFeed.SplitOnAnyPartsContained | src/components/VideoFeed.tsx:83 | every piece of the split on `.`, `!` and `?` occurs in the text, the first at its start |
| VideoFeed.CleanedLineContained | src/components/VideoFeed.tsx:75 | a cleaned line occurs in the raw line |
| VideoFeed.LineCandidatesContained | src/components/VideoFeed.tsx:72-76 | every surviving line occurs in the summary without its carriage returns |
| VideoFeed.SentenceCandidatesContained | src/components/VideoFeed.tsx:82-85 | every surviving sentence occurs in the summary |
| VideoFeed.KeyPointsAreExcerpts | src/components/VideoFeed.tsx:72-86 | no key point is made up: each occurs in the summary (without carriage returns when it comes from a line) |
| VideoFeed.DotsGiveNoKeyPoints | src/components/VideoFeed.tsx:72-86 | a summary of only dots is not blank yet yields no key point at all, and no placeholder |
| VideoFeed.NormalizedEvents | src/components/VideoFeed.tsx:110-126 | no more events than entries |
| VideoFeed.EventOf | src/components/VideoFeed.tsx:115-118 | each field of the event is the string held under that name, or absent when the name holds no string |
| VideoFeed.NormalizeProgressEvents | src/components/VideoFeed.tsx:103-129 | the loop gives no event for a value that is not an array, else exactly one event per record entry, in order, with every non-string field absent |
| VideoFeed.AllRecordsKept | src/components/VideoFeed.tsx:110-126 | when every entry is a record, event `k` is read from entry `k` |
| VideoFeed.NonRecordSkipped | src/components/VideoFeed.tsx:111-113 | an entry that is not a record adds no event |
| VideoFeed.Recognised | src/components/VideoFeed.tsx:142 | only "running", "completed" and "failed" are taken, so no event sets a step back to pending |
| VideoFeed.StatusFromProgress | src/components/VideoFeed.tsx:131-148 | the loop returns the status the events give the step |
| VideoFeed.StatusIsLastSetting | src/components/VideoFeed.tsx:131-148 | a step is pending exactly when no event of that step has a recognised status; otherwise its status is that of the last such event, and later events of other steps or with other statuses change nothing |
| VideoFeed.StatusFrom | src/components/VideoFeed.tsx:131-148 | a status other than pending is the recognised status of some event of that step |
| VideoFeed.Headline | src/components/VideoFeed.tsx:187-206 | "Generation failed" when any step failed; otherwise the label of the furthest running or completed step in the order saving, video, prompt (a completed summary also gives the prompt label), else the summary label |
| VideoFeed.FailedHeadlineOnlyOnFailure | src/components/VideoFeed.tsx:199-206 | the failure headline appears exactly when some step failed |
| VideoFeed.BuildProgressView | src/components/VideoFeed.tsx:150-213 | the view always has the four steps summary, prompt, video and saving in that order with their fixed labels and the status the events give each; the detail is the last event's message, else "Preparing recap generation."; the headline follows the four statuses |
| VideoFeed.StepNamesDisjoint | src/components/VideoFeed.tsx:37 | none of the step names the pipeline writes (src/lib/video-pipeline.ts:11-16) is one the feed reads |
| VideoFeed.UnnamedStepPending | src/components/VideoFeed.tsx:137-141 | a step no event names stays pending |
| VideoFeed.PipelineLogShowsAllPending | src/components/VideoFeed.tsx:150-213 | for any progress log the pipeline writes, the feed shows every step as pending under the "Fetching summary" headline |
| DemoVideoFeed.SummarizeKeyPoints | src/components/DemoVideoFeed.tsx:34-42 | at most three points |
| DemoVideoFeed.KeyPointsAreTrimmedExcerpts | src/components/DemoVideoFeed.tsx:34-42 | the points are the first surviving cleaned lines, in order; each is non-empty, trimmed and occurs in the summary once carriage returns are removed |
| DemoVideoFeed.AgreesWithFeed | src/components/DemoVideoFeed.tsx:34-42 | on a summary with a surviving line the demo gives the same points as the main feed (src/components/VideoFeed.tsx:63-87) |
| DemoVideoFeed.BlankSummaryHasNoPoints | src/components/DemoVideoFeed.tsx:34-42 | the demo has no placeholders: an empty summary gives no points |
| DemoPlayback.DemoPlayer.constructor | src/components/DemoVideoFeed.tsx:45-46 | the first slide is active and no slide is paused |
| DemoPlayback.DemoPlayer.ApplyPlayback | src/components/DemoVideoFeed.tsx:115-136 | each mounted video plays exactly when it is the active slide and not paused, and is paused otherwise; unmounted slots are left alone, so when none was playing only the active slide plays |
| DemoPlayback.DemoPlayer.TogglePause | src/components/DemoVideoFeed.tsx:212-217 | a tap sets the pause flags to the toggled map and keeps the active slide |
| DemoPlayback.ToggleFlipsOnlyTapped | src/components/DemoVideoFeed.tsx:213-216 | a tap flips the tapped slide's flag (an absent flag counts as not paused) and no other |
| DemoPlayback.ToggleTwiceRestores | src/components/DemoVideoFeed.tsx:213-216 | two taps on a slide restore every pause flag |
| DemoPlayback.AtMostActivePlays | src/components/DemoVideoFeed.tsx:115-136 | for every state the effect produces from one where unmounted slots were not playing, a playing video is the active, mounted, unpaused slide |
| MeetingCard.FormatMeetingDate | src/components/MeetingCard.tsx:9-21 | an absent or empty date and one the parser rejects give "Date not available"; any other gives the formatter's text |
| MeetingCard.EntryName | src/components/MeetingCard.tsx:40-53 | an array entry contributes its trimmed text when it is a string, the trimmed `name` when that is a string, else ""; the result is always trimmed |
| MeetingCard.FromCandidate | src/components/MeetingCard.tsx:32-55 | a field yields names exactly when it is a string or an array, and never more names than array entries |
| MeetingCard.FirstDeciding | src/components/MeetingCard.tsx:31-56 | no string or array field gives []; otherwise the names of the first field that is a string or an array |
| MeetingCard.ToParticipantList | src/components/MeetingCard.tsx:23-61 | every participant shown is non-empty and trimmed |
| MeetingCard.CandidateNamesClean | src/components/MeetingCard.tsx:32-56 | a string or array field yields only non-empty, trimmed names |
| MeetingCard.FirstDecidingIsFirstListOrText | src/components/MeetingCard.tsx:24-58 | the first field that is a string or an array decides the list, even when it yields no names; later fields are not read |
| MeetingCard.NoListOrTextNoParticipants | src/components/MeetingCard.tsx:60 | with no field a string or an array there are no participants |
| MeetingCard.ParticipantsClean | src/components/MeetingCard.tsx:24-60 | whichever field decides, every name is non-empty and trimmed |
| MeetingCard.TextCandidateNames | src/components/MeetingCard.tsx:32-36 | a comma-separated text gives exactly its non-blank pieces, trimmed: every name is a trimmed piece and every piece that is not blank appears |
| MeetingCard.TextCandidatePiecesCover | src/components/MeetingCard.tsx:33 | the comma split loses no character: joining the pieces with commas gives the text back |
| MeetingCard.ParticipantsFieldWins | src/components/MeetingCard.tsx:24-36 | a string `participants` wins over an `attendees` list that comes before it in the object |
| MeetingCard.EmptyListStillDecides | src/components/MeetingCard.tsx:39-57 | an empty `participants` array gives no participants even when `people` names some |
| MeetingList.ParseConnectUrl | src/components/MeetingList.tsx:21-31 | the link is the payload's non-empty `authUrl`, else its non-empty `connectUrl`, else the default connect route; it is never empty and always one of those three |
| MeetingList.BlankAuthUrlIsKept | src/components/MeetingList.tsx:24-26 | only emptiness is checked: a whitespace-only `authUrl` becomes the link |
| MeetingList.MeetingsOf | src/components/MeetingList.tsx:71 | the meetings are the payload's `meetings` when it is an array, else none |
| MeetingList.FailureMessage | src/components/MeetingList.tsx:64-68 | a failed response is reported with the payload's string `error`, else "Unable to load meetings." |
| MeetingList.PayloadOf | src/components/MeetingList.tsx:50 | a body that is not JSON is read as an empty object |
| MeetingList.EmptyStateLabel | src/components/MeetingList.tsx:99-105 | the connect prompt exactly when disconnected, "No meetings available yet." exactly when connected |
| MeetingList.MeetingListState.constructor | src/components/MeetingList.tsx:34-38 | no meetings, not loading, the given connection flag, the default link and no error |
| MeetingList.MeetingListState.LoadMeetings | src/components/MeetingList.tsx:43-90 | the state stays valid (a non-empty link; an error only while disconnected); an unmounted component only raised the loading flag; a settled request clears it; a 401 disconnects, takes the link from the payload and empties the list with no error; another failure disconnects with the payload's or the default message; a thrown fetch disconnects with its message or the non-Error default; a success connects and shows the payload's meetings; a `null` body fails at its first property read |
| MeetingList.MeetingListState.EmptyState | src/components/MeetingList.tsx:99-105 | the connect prompt is shown exactly when the list is disconnected |
| GranolaToken.LoadedToken | src/hooks/useGranolaToken.ts:19-28 | a stored value becomes the token exactly when it has a non-space character, and then exactly as stored |
| GranolaToken.StoredTokenReloads | src/hooks/useGranolaToken.ts:19-42 | a token saved by `setToken` is loaded back as the same token |
| GranolaToken.LoadKeepsSurroundingSpace | src/hooks/useGranolaToken.ts:22-24 | a stored value with surrounding space is loaded untrimmed |
| GranolaToken.TokenHook.constructor | src/hooks/useGranolaToken.ts:16-17 | no token yet, loading, storage as given |
| GranolaToken.TokenHook.HasToken | src/hooks/useGranolaToken.ts:54 | true exactly when the token has a non-space character, which in a valid state means a token is present |
| GranolaToken.TokenHook.InitialLoad | src/hooks/useGranolaToken.ts:19-28 | loading ends with the token loaded from the storage key, or none when reading throws; storage is unchanged |
| GranolaToken.TokenHook.SetToken | src/hooks/useGranolaToken.ts:30-42 | a blank value changes nothing; otherwise the trimmed value becomes the token and, unless the write throws, the stored value under the key; nothing else in storage changes |
| GranolaToken.TokenHook.ClearToken | src/hooks/useGranolaToken.ts:44-50 | the token is gone and, unless removal throws, so is the key from storage; no other key changes |

## Left out

- Network, subprocess and file-system I/O (Gemini, Veo, Granola MCP transport, clip downloads,
  ffmpeg and ffprobe, temporary files) are not performed; each call is a parameter holding its
  outcome, and a non-ok HTTP response is an `Err` outcome carrying its error message.
  The stitcher's `mkdtemp`, `readFile` and `rm` are outcomes in its environment too: a failed
  `mkdtemp` ends the call before any other effect, a failed read fails the call, and a failed
  `rm` replaces the call's result with its error.
- Closing the MCP transport after each Granola call is not modelled; the model has no
  transport state.
- The text of the messages built from an HTTP status and body (for example "Gemini video
  prompt generation failed: ...") is not modelled; the outcome's message stands in for it.
- A thrown value that is not an `Error` is not modelled in the routes and the pipeline:
  every failure carries a message, so the "Unknown ... error." fallbacks never appear there.
- Concurrency is not modelled: the stitcher's `Promise.all` downloads and probes are taken in
  index order, and the feed's concurrent request and progress polling are left out.
- React rendering, effects other than the ones modelled, `IntersectionObserver`, timers,
  `sleep`, `createRunId` and the feed's polling loop are UI plumbing and are left out; the
  demo's active slide is a field the observer would set.
- `VideoFeed` component state (the per-meeting maps and `handleGenerateVideo`) is not modelled;
  only the pure helpers and the two loops it uses are.
- Numbers are exact reals with NaN and the two infinities as separate values; IEEE rounding,
  the printing of numbers inside ffmpeg filter strings and `parseInt` yielding Infinity for
  very long digit strings are not modelled.
- Reading a property of a JSON object takes the first entry with that key, while `JSON.parse`
  keeps the last of duplicate keys; objects with repeated keys are not modelled faithfully.
- `JSON.parse`, `JSON.stringify`, `Number` applied to a string, `URL`, base64, `Date` parsing,
  `Intl.DateTimeFormat`, `encodeURIComponent`, `randomUUID` and the clock are parameters;
  `randomUUID` is assumed never to repeat an earlier draw and never to return "".
- GenerateMeetingVideo: each progress event in the source takes its own clock reading; the
  model stamps the events before storage with the start instant and the storage events with
  the storage instant, so the time spent in script, clip and stitching work is not visible in
  the log.
- Timestamps are integer milliseconds rather than ISO strings, so the expiry parse of a run or
  asset is always finite in the model.
- `toLowerCase` is modelled for ASCII letters only; case mappings outside ASCII are not.
- The clip generator `generateVeoClips` and the script generator `generateMeetingScript` are
  called by the pipeline and the script route but are not part of this model; they are
  parameters, and their ordering or retry behaviour is not assumed.
- The Veo poll loop assumes a clock that advances by at least the poll interval between
  polls, so that the loop ends; a clock that stands still is not modelled.
- The Granola OAuth redirect and connect routes are cookie and redirect plumbing and are left
  out; the session bookkeeping they rely on is modelled in `McpClient`.
- The MCP SDK's calls into the OAuth provider are a replayed list of calls rather than
  callbacks made by the SDK during `connect`.
- Local storage exceptions in the token hook are flags passed to each operation.
- DemoVideoFeed.SummarizeKeyPoints: its own contract only bounds the count; that the points
  are the first cleaned lines, trimmed, non-empty and taken from the summary is stated by
  `DemoVideoFeed.KeyPointsAreTrimmedExcerpts`.
- GenerateClipsRoute.ReadChunks: its own contract only bounds the count; which entries are
  kept, from which positions and in which order is stated by
  `GenerateClipsRoute.KeptChunksInOrder` and `GenerateClipsRoute.NormalizeChunk`.
- MeetingCard.ToParticipantList: its own contract states only that names are clean; which
  field decides is stated by `MeetingCard.FirstDecidingIsFirstListOrText` and
  `MeetingCard.NoListOrTextNoParticipants`.
