/**
 * The stitching route: reading clip locators and an optional crossfade length
 * from a JSON body and answering with the stitched MP4 as a data URL.
 */
module StitchVideoRoute {
  import opened Common
  import opened Text
  import opened JsValue
  import VideoStitcher

  const InvalidJsonError: string := "Request body must be valid JSON."
  const NoClipUrlsError: string := "clipUrls is required and must include at least one URL."

  datatype StitchReply =
    | StitchError(status: nat, error: string)
    | Stitched(videoUrl: string, mimeType: string)

  /** The clip list: a top-level array, else `clipUrls`, else `clips`, whichever is an array first. */
  function ClipList(payload: Json): (r: seq<Json>)
    ensures payload.JArr? ==> r == payload.items
    ensures var clipUrls := Get(payload, "clipUrls");
      payload.JObj? && IsArrayValue(clipUrls) ==> r == clipUrls.value.items
    ensures var clips := Get(payload, "clips");
      payload.JObj? && !IsArrayValue(Get(payload, "clipUrls")) && IsArrayValue(clips) ==> r == clips.value.items
    ensures var neither := !IsArrayValue(Get(payload, "clipUrls")) && !IsArrayValue(Get(payload, "clips"));
      !payload.JArr? && neither ==> r == []
  {
    if payload.JArr? then payload.items
    else if IsRecord(payload) && IsArrayValue(Get(payload, "clipUrls")) then Get(payload, "clipUrls").value.items
    else if IsRecord(payload) && IsArrayValue(Get(payload, "clips")) then Get(payload, "clips").value.items
    else []
  }

  /** `.filter((entry) => typeof entry === "string")`: the strings of a list, in order. */
  function StringEntries(list: seq<Json>): (r: seq<string>)
    ensures |r| <= |list|
    ensures forall k :: 0 <= k < |r| ==> JStr(r[k]) in list
  {
    if |list| == 0 then []
    else if list[0].JStr? then [list[0].s] + StringEntries(list[1..])
    else StringEntries(list[1..])
  }

  /** The string entries of a list, trimmed, with the blank ones dropped. */
  function TrimmedStrings(list: seq<Json>): (r: seq<string>)
    ensures |r| <= |list|
    ensures forall k :: 0 <= k < |r| ==> r[k] != "" && IsTrimmed(r[k])
  {
    if |list| == 0 then []
    else
      var rest := TrimmedStrings(list[1..]);
      if list[0].JStr? && Trim(list[0].s) != [] then [Trim(list[0].s)] + rest else rest
  }

  /** Every non-blank string entry is kept, trimmed, and nothing else is. */
  lemma {:induction false} TrimmedStringsMembers(list: seq<Json>)
    ensures forall x :: x in list && x.JStr? && !IsBlank(x.s) ==> Trim(x.s) in TrimmedStrings(list)
    ensures forall u :: u in TrimmedStrings(list) ==> exists s :: JStr(s) in list && Trim(s) == u
  {
    if |list| > 0 {
      TrimmedStringsMembers(list[1..]);
      var rest := TrimmedStrings(list[1..]);
      var r := TrimmedStrings(list);
      assert forall u :: u in rest ==> u in r;
      forall x | x in list && x.JStr? && !IsBlank(x.s)
        ensures Trim(x.s) in r
      {
        if x != list[0] {
          assert x in list[1..];
        }
      }
      forall u | u in r
        ensures exists s :: JStr(s) in list && Trim(s) == u
      {
        if u !in rest {
          assert JStr(list[0].s) in list && Trim(list[0].s) == u;
        } else {
          var s :| JStr(s) in list[1..] && Trim(s) == u;
          assert JStr(s) in list;
        }
      }
    }
  }

  /** The one-pass reading agrees with the source's filter, trim and filter pipeline. */
  lemma {:induction false} TrimmedStringsIsPipeline(list: seq<Json>)
    ensures TrimmedStrings(list) == NonEmpty(TrimAll(StringEntries(list)))
  {
    if |list| > 0 {
      TrimmedStringsIsPipeline(list[1..]);
      var tail := StringEntries(list[1..]);
      if list[0].JStr? {
        assert StringEntries(list) == [list[0].s] + tail;
        var trimmed := TrimAll([list[0].s] + tail);
        assert trimmed[0] == Trim(list[0].s) && trimmed[1..] == TrimAll(tail);
        assert NonEmpty(trimmed) == if Trim(list[0].s) == "" then NonEmpty(TrimAll(tail))
          else [Trim(list[0].s)] + NonEmpty(TrimAll(tail));
      } else {
        assert StringEntries(list) == tail;
      }
    }
  }

  /** Reading a concatenation reads each part in turn: entries keep their relative order. */
  lemma {:induction false} TrimmedStringsAppend(a: seq<Json>, b: seq<Json>)
    ensures TrimmedStrings(a + b) == TrimmedStrings(a) + TrimmedStrings(b)
  {
    if |a| > 0 {
      assert (a + b)[1..] == a[1..] + b;
      TrimmedStringsAppend(a[1..], b);
    } else {
      assert a + b == b;
    }
  }

  /** `readClipUrls`: the trimmed, non-blank strings of the chosen clip list, in order. */
  function ReadClipUrls(payload: Json): (r: seq<string>)
    ensures r == NonEmpty(TrimAll(StringEntries(ClipList(payload))))
    ensures forall k :: 0 <= k < |r| ==> r[k] != "" && IsTrimmed(r[k])
  {
    TrimmedStringsIsPipeline(ClipList(payload));
    TrimmedStrings(ClipList(payload))
  }

  /**
   * `clipUrls` wins over `clips` whenever it is an array, even an array with nothing usable:
   * the urls are read from it alone, and an empty one yields none.
   */
  lemma EmptyClipUrlsHidesClips(payload: Json)
    requires payload.JObj? && IsArrayValue(Get(payload, "clipUrls"))
    ensures ReadClipUrls(payload) == ReadClipUrls(Get(payload, "clipUrls").value)
    ensures Get(payload, "clipUrls") == Some(JArr([])) ==> ReadClipUrls(payload) == []
  {
  }

  /** Clip lists read in order: the urls of a concatenated list are the urls of each part, in turn. */
  lemma ClipUrlsTrimmedInOrder(a: seq<Json>, b: seq<Json>)
    ensures ReadClipUrls(JArr(a + b)) == ReadClipUrls(JArr(a)) + ReadClipUrls(JArr(b))
  {
    TrimmedStringsIsPipeline(a + b);
    TrimmedStringsIsPipeline(a);
    TrimmedStringsIsPipeline(b);
    TrimmedStringsAppend(a, b);
  }

  /** `readTransitionDurationSeconds`: a finite number above zero, else nothing. */
  function ReadTransitionDurationSeconds(payload: Json, strToNum: string -> Num): (r: Option<real>)
    ensures r.Some? ==> r.value > 0.0
    ensures r.Some? <==> IsRecord(payload) && IsPositiveFinite(ToNumber(Get(payload, "transitionDurationSeconds"), strToNum))
    ensures r.Some? ==> Finite(r.value) == ToNumber(Get(payload, "transitionDurationSeconds"), strToNum)
  {
    if !IsRecord(payload) then None
    else
      var parsed := ToNumber(Get(payload, "transitionDurationSeconds"), strToNum);
      if !IsPositiveFinite(parsed) then None else Some(parsed.value)
  }

  /** The stitcher's own reading of the requested length. */
  function Requested(t: Option<real>): Option<Num> {
    if t.Some? then Some(Finite(t.value)) else None
  }

  /** The reply to a stitcher outcome: its message with 500, or the stitched video. */
  function Answer(o: VideoStitcher.Outcome<VideoStitcher.StitchVideoResult>): (StitchReply, seq<VideoStitcher.Effect>) {
    match o.result
    case Err(message) => (StitchError(500, message), o.effects)
    case Ok(video) => (Stitched(video.videoUrl, video.mimeType), o.effects)
  }

  /**
   * `POST`: invalid JSON and an empty clip list answer 400 before the stitcher runs; a stitcher
   * failure answers 500 with its message; a success carries the stitched URL and MIME type.
   */
  function Post(payload: Option<Json>, strToNum: string -> Num, env: VideoStitcher.StitchEnv)
    : (r: (StitchReply, seq<VideoStitcher.Effect>))
    ensures payload.None? ==> r == (StitchError(400, InvalidJsonError), [])
    ensures payload.Some? && ReadClipUrls(payload.value) == [] ==> r == (StitchError(400, NoClipUrlsError), [])
    ensures r.0.Stitched? ==> (r.0.mimeType == VideoStitcher.Mp4
      && r.0.videoUrl == VideoStitcher.DataUrlPrefix + env.outputBase64)
    ensures r.0.StitchError? ==> r.0.status == 400 || r.0.status == 500
    ensures payload.Some? && ReadClipUrls(payload.value) != [] ==>
      var o := VideoStitcher.StitchVideoClips(ReadClipUrls(payload.value),
        Requested(ReadTransitionDurationSeconds(payload.value, strToNum)), env);
      && r.1 == o.effects
      && (o.result.Err? ==> r.0 == StitchError(500, o.result.message))
      && (o.result.Ok? ==> r.0 == Stitched(o.result.value.videoUrl, o.result.value.mimeType))
  {
    if payload.None? then (StitchError(400, InvalidJsonError), [])
    else
      var clipUrls := ReadClipUrls(payload.value);
      if |clipUrls| == 0 then (StitchError(400, NoClipUrlsError), [])
      else
        var requested := Requested(ReadTransitionDurationSeconds(payload.value, strToNum));
        VideoStitcher.StitchSuccessIsDataUrl(clipUrls, requested, env);
        Answer(VideoStitcher.StitchVideoClips(clipUrls, requested, env))
  }

  /** Once the body passes the route's checks, the stitcher's guards and cleanup order carry over. */
  lemma PostCleansUp(payload: Json, strToNum: string -> Num, env: VideoStitcher.StitchEnv)
    ensures var r := Post(Some(payload), strToNum, env);
      && (r.1 != [] ==> (r.1[0] == VideoStitcher.MakeTempDir(env.tempDirectory)
          && r.1[|r.1| - 1] == VideoStitcher.RemoveTempDir(env.tempDirectory)))
      && (r.1 == [] ==> r.0.StitchError?)
  {
    var clipUrls := ReadClipUrls(payload);
    if |clipUrls| > 0 {
      var requested := Requested(ReadTransitionDurationSeconds(payload, strToNum));
      var o := VideoStitcher.StitchVideoClips(clipUrls, requested, env);
      VideoStitcher.StitchGuardsAndCleanup(clipUrls, requested, env);
      assert Post(Some(payload), strToNum, env) == Answer(o);
    }
  }
}
