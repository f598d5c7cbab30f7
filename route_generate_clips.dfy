/**
 * The clip-generation route: reading script chunks from a JSON body and
 * answering with one playable locator per generated clip. The clip generator
 * itself is an injected function of the chunks it is given.
 */
module GenerateClipsRoute {
  import opened Common
  import opened Text
  import opened JsValue

  const DefaultChunkSeconds: int := 8
  const InvalidJsonError: string := "Request body must be valid JSON."
  const NoChunksError: string := "chunks is required and must include narration and visualPrompt values."
  const MissingLocatorError: string := "Veo did not return video URLs/buffers for every generated clip."

  datatype ScriptChunk = ScriptChunk(
    index: int, durationSeconds: int, narration: string, visualPrompt: string, textOverlay: Option<string>)

  /** A clip as the generator reports it. */
  datatype GeneratedClip = GeneratedClip(url: Option<string>, bufferBase64: Option<string>)

  datatype ClipsReply = ClipsError(status: nat, error: string) | ClipUrls(urls: seq<string>)

  /** `Math.round(n)` when `n` is a finite number above zero, else the fallback. */
  function RoundedOr(n: Num, fallback: int): (r: int)
    ensures IsPositiveFinite(n) ==> n.value - 0.5 < r as real <= n.value + 0.5
    ensures !IsPositiveFinite(n) ==> r == fallback
  {
    if IsPositiveFinite(n) then Round(n.value) else fallback
  }

  /** `normalizeChunk`: entry `position` of the chunk list. */
  function NormalizeChunk(entry: Json, position: nat, strToNum: string -> Num): (r: Option<ScriptChunk>)
    ensures r.Some? <==> IsRecord(entry) && AsString(Get(entry, "narration")).Some? && AsString(Get(entry, "visualPrompt")).Some?
    ensures r.Some? ==> (r.value.narration == Trim(AsString(Get(entry, "narration")).value)
      && r.value.visualPrompt == Trim(AsString(Get(entry, "visualPrompt")).value))
    ensures r.Some? ==> (r.value.textOverlay ==
      if AsString(Get(entry, "textOverlay")).Some? then Some(Trim(AsString(Get(entry, "textOverlay")).value)) else None)
    ensures r.Some? && !IsPositiveFinite(ToNumber(Get(entry, "index"), strToNum)) ==> r.value.index == position + 1
    ensures r.Some? && !IsPositiveFinite(ToNumber(Get(entry, "durationSeconds"), strToNum)) ==>
      r.value.durationSeconds == DefaultChunkSeconds
    ensures r.Some? ==> r.value.index == RoundedOr(ToNumber(Get(entry, "index"), strToNum), position + 1)
    ensures r.Some? ==>
      r.value.durationSeconds == RoundedOr(ToNumber(Get(entry, "durationSeconds"), strToNum), DefaultChunkSeconds)
  {
    if !IsRecord(entry) then None
    else
      var narration := AsString(Get(entry, "narration"));
      var visualPrompt := AsString(Get(entry, "visualPrompt"));
      if narration.None? || visualPrompt.None? then None
      else
        var textOverlay := AsString(Get(entry, "textOverlay"));
        Some(ScriptChunk(
          RoundedOr(ToNumber(Get(entry, "index"), strToNum), position + 1),
          RoundedOr(ToNumber(Get(entry, "durationSeconds"), strToNum), DefaultChunkSeconds),
          Trim(narration.value),
          Trim(visualPrompt.value),
          if textOverlay.Some? then Some(Trim(textOverlay.value)) else None))
  }

  /** A blank narration is trimmed to "" but not rejected. */
  lemma BlankNarrationAccepted(strToNum: string -> Num)
    ensures NormalizeChunk(JObj([("narration", JStr(" ")), ("visualPrompt", JStr("v"))]), 0, strToNum).Some?
  {
  }

  /** A missing index falls back to the position, counted from one. */
  lemma MissingIndexUsesPosition(narration: string, visualPrompt: string, position: nat, strToNum: string -> Num)
    ensures var r := NormalizeChunk(JObj([("narration", JStr(narration)), ("visualPrompt", JStr(visualPrompt))]), position, strToNum);
      r.Some? && r.value.index == position + 1
  {
    var entries := [("narration", JStr(narration)), ("visualPrompt", JStr(visualPrompt))];
    assert entries[0].0[0] == 'n' && entries[1..][0].0[0] == 'v' && "index"[0] == 'i';
    assert Get(JObj(entries), "narration") == Some(JStr(narration));
    assert Lookup(entries, "visualPrompt") == Lookup(entries[1..], "visualPrompt");
    assert Get(JObj(entries), "visualPrompt") == Some(JStr(visualPrompt));
    assert Lookup(entries, "index") == Lookup(entries[1..], "index");
    assert Lookup(entries[1..], "index") == Lookup(entries[1..][1..], "index");
    assert entries[1..][1..] == [];
  }

  /**
   * `entries.map((e, i) => f(e, position + i)).filter(Boolean)`: the defined results, the first
   * entry being at `position` of the original list.
   */
  function KeepDefined<T>(entries: seq<Json>, position: nat, f: (Json, nat) -> Option<T>): (r: seq<T>)
    ensures |r| <= |entries|
    decreases |entries|
  {
    if |entries| == 0 then []
    else
      var head := f(entries[0], position);
      (if head.Some? then [head.value] else []) + KeepDefined(entries[1..], position + 1, f)
  }

  function NormalizeFrom(entries: seq<Json>, position: nat, strToNum: string -> Num): seq<ScriptChunk> {
    KeepDefined(entries, position, (e, p) => NormalizeChunk(e, p, strToNum))
  }

  /** The chunk list: a top-level array, else `payload.chunks` when it is an array, else none. */
  function ChunkList(payload: Json): seq<Json> {
    if payload.JArr? then payload.items
    else if IsRecord(payload) && IsArrayValue(Get(payload, "chunks")) then Get(payload, "chunks").value.items
    else []
  }

  /** `readChunks`: positions are taken before invalid entries are dropped. */
  function ReadChunks(payload: Json, strToNum: string -> Num): (r: seq<ScriptChunk>)
    ensures |r| <= |ChunkList(payload)|
  {
    NormalizeFrom(ChunkList(payload), 0, strToNum)
  }

  /** Strictly increasing positions into a list of length `n`. */
  predicate Increasing(positions: seq<nat>, n: nat) {
    (forall j :: 0 <= j < |positions| ==> positions[j] < n)
    && (forall i, j :: 0 <= i < j < |positions| ==> positions[i] < positions[j])
  }

  /** Positions into a list, moved one place right, stay increasing. */
  lemma ShiftRight(positions: seq<nat>, n: nat) returns (shifted: seq<nat>)
    requires Increasing(positions, n)
    ensures |shifted| == |positions| && Increasing(shifted, n + 1)
    ensures forall j :: 0 <= j < |positions| ==> shifted[j] == positions[j] + 1
    ensures Increasing([0] + shifted, n + 1)
  {
    shifted := seq(|positions|, j requires 0 <= j < |positions| => positions[j] + 1);
  }

  /** The positions and values `KeptInOrder` promises for `f` over `entries` from `position`. */
  ghost predicate KeptAt<T>(entries: seq<Json>, position: nat, f: (Json, nat) -> Option<T>, positions: seq<nat>, r: seq<T>) {
    |positions| == |r| && Increasing(positions, |entries|)
    && forall j :: 0 <= j < |r| ==> f(entries[positions[j]], position + positions[j]) == Some(r[j])
  }

  /** The positions of the kept entries after `entries[0]`, counted in `entries`. */
  lemma ShiftKept<T>(entries: seq<Json>, position: nat, f: (Json, nat) -> Option<T>, rest: seq<nat>, tail: seq<T>)
    returns (shifted: seq<nat>)
    requires |entries| > 0
    requires KeptAt(entries[1..], position + 1, f, rest, tail)
    ensures KeptAt(entries, position, f, shifted, tail)
    ensures Increasing([0] + shifted, |entries|)
  {
    shifted := ShiftRight(rest, |entries| - 1);
    forall j | 0 <= j < |rest|
      ensures f(entries[shifted[j]], position + shifted[j]) == Some(tail[j])
    {
      assert entries[shifted[j]] == entries[1..][rest[j]];
    }
  }

  /** A defined value in front goes first; the positions of the others are unchanged. */
  lemma ConsKept<T>(entries: seq<Json>, position: nat, f: (Json, nat) -> Option<T>, shifted: seq<nat>, tail: seq<T>, v: T)
    requires |entries| > 0 && f(entries[0], position) == Some(v)
    requires KeptAt(entries, position, f, shifted, tail) && Increasing([0] + shifted, |entries|)
    ensures KeptAt(entries, position, f, [0] + shifted, [v] + tail)
  {
    var positions := [0] + shifted;
    var r := [v] + tail;
    forall j | 0 <= j < |r|
      ensures f(entries[positions[j]], position + positions[j]) == Some(r[j])
    {
      if j > 0 {
        assert positions[j] == shifted[j - 1] && r[j] == tail[j - 1];
      }
    }
  }

  /**
   * Every kept value is `f` of one entry at its original position, and the kept entries appear in
   * their original order.
   */
  lemma {:induction false} KeptInOrder<T>(entries: seq<Json>, position: nat, f: (Json, nat) -> Option<T>)
    returns (positions: seq<nat>)
    ensures KeptAt(entries, position, f, positions, KeepDefined(entries, position, f))
    decreases |entries|
  {
    if |entries| == 0 {
      positions := [];
    } else {
      var rest := KeptInOrder(entries[1..], position + 1, f);
      var tail := KeepDefined(entries[1..], position + 1, f);
      var shifted := ShiftKept(entries, position, f, rest, tail);
      var head := f(entries[0], position);
      if head.Some? {
        ConsKept(entries, position, f, shifted, tail, head.value);
        positions := [0] + shifted;
        assert KeepDefined(entries, position, f) == [head.value] + tail;
      } else {
        positions := shifted;
        assert KeepDefined(entries, position, f) == tail;
      }
    }
  }

  /** The chunks `readChunks` keeps come from entries at their original positions, in order. */
  lemma KeptChunksInOrder(payload: Json, strToNum: string -> Num) returns (positions: seq<nat>)
    ensures var entries := ChunkList(payload);
      var r := ReadChunks(payload, strToNum);
      |positions| == |r| && Increasing(positions, |entries|)
      && forall j :: 0 <= j < |r| ==> NormalizeChunk(entries[positions[j]], positions[j], strToNum) == Some(r[j])
  {
    var f := (e, p) => NormalizeChunk(e, p, strToNum);
    positions := KeptInOrder(ChunkList(payload), 0, f);
    assert KeptAt(ChunkList(payload), 0, f, positions, ReadChunks(payload, strToNum));
  }

  /** An invalid entry does not shift the fallback index of the entries after it. */
  lemma DroppedEntryKeepsPositions(bad: Json, entries: seq<Json>, strToNum: string -> Num)
    requires !IsRecord(bad)
    ensures ReadChunks(JArr([bad] + entries), strToNum) == NormalizeFrom(entries, 1, strToNum)
  {
    assert ([bad] + entries)[1..] == entries;
  }

  /** `clip.url ?? clip.bufferBase64`, kept only when non-empty. */
  function Locator(clip: GeneratedClip): (r: Option<string>)
    ensures clip.url.Some? ==> r == clip.url
    ensures r.None? <==> clip.url.None? && clip.bufferBase64.None?
    ensures r.Some? ==> r == clip.url || r == clip.bufferBase64
  {
    if clip.url.Some? then clip.url else clip.bufferBase64
  }

  /** The truthy locators, in clip order. */
  function Locators(clips: seq<GeneratedClip>): (r: seq<string>)
    ensures |r| <= |clips|
    ensures |r| == |clips| <==> forall k :: 0 <= k < |clips| ==> Truthy(Locator(clips[k]))
    ensures |r| == |clips| ==> forall k :: 0 <= k < |clips| ==> r[k] == Locator(clips[k]).value
  {
    if |clips| == 0 then []
    else
      var rest := Locators(clips[1..]);
      if Truthy(Locator(clips[0])) then
        assert forall k :: 1 <= k < |clips| ==> clips[k] == clips[1..][k - 1];
        [Locator(clips[0]).value] + rest
      else rest
  }

  /**
   * `POST`: invalid JSON and an empty chunk list answer 400 without generating; a generator
   * error, or any clip without a locator, answers 500.
   */
  function Post(payload: Option<Json>, strToNum: string -> Num, generate: seq<ScriptChunk> -> Result<seq<GeneratedClip>>): (r: ClipsReply)
    ensures payload.None? ==> r == ClipsError(400, InvalidJsonError)
    ensures payload.Some? && ReadChunks(payload.value, strToNum) == [] ==> r == ClipsError(400, NoChunksError)
    ensures r.ClipUrls? ==> (payload.Some? && ReadChunks(payload.value, strToNum) != []
      && var clips := generate(ReadChunks(payload.value, strToNum));
      clips.Ok? && |r.urls| == |clips.value|
      && forall k :: 0 <= k < |clips.value| ==> Truthy(Locator(clips.value[k])) && r.urls[k] == Locator(clips.value[k]).value)
    ensures payload.Some? && ReadChunks(payload.value, strToNum) != [] && generate(ReadChunks(payload.value, strToNum)).Err? ==>
      r == ClipsError(500, generate(ReadChunks(payload.value, strToNum)).message)
    ensures var chunks := if payload.Some? then ReadChunks(payload.value, strToNum) else [];
      payload.Some? && chunks != [] && generate(chunks).Ok?
      && (exists k :: 0 <= k < |generate(chunks).value| && !Truthy(Locator(generate(chunks).value[k])))
      ==> r == ClipsError(500, MissingLocatorError)
    ensures var chunks := if payload.Some? then ReadChunks(payload.value, strToNum) else [];
      payload.Some? && chunks != [] && generate(chunks).Ok?
      && (forall k :: 0 <= k < |generate(chunks).value| ==> Truthy(Locator(generate(chunks).value[k])))
      ==> r == ClipUrls(Locators(generate(chunks).value))
    ensures r.ClipsError? ==> r.status == 400 || r.status == 500
  {
    if payload.None? then ClipsError(400, InvalidJsonError)
    else
      var chunks := ReadChunks(payload.value, strToNum);
      if |chunks| == 0 then ClipsError(400, NoChunksError)
      else
        match generate(chunks)
        case Err(message) => ClipsError(500, message)
        case Ok(clips) =>
          var videoUrls := Locators(clips);
          if |videoUrls| != |clips| then ClipsError(500, MissingLocatorError) else ClipUrls(videoUrls)
  }

  /** An empty url is not nullish, so it hides the buffer and the clip counts as missing. */
  lemma EmptyUrlHidesBuffer(buffer: string)
    ensures !Truthy(Locator(GeneratedClip(Some(""), Some(buffer))))
  {
  }
}
