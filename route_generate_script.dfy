/**
 * The script route: for a browser whose session cookie names a Granola
 * connection, turns one meeting into narrated script chunks, or sends the
 * caller to the authorization page when the connection needs consent.
 */
module GenerateScriptRoute {
  import opened Common
  import opened JsValue
  import opened RouteInputs
  import GenerateClipsRoute

  const NotConnectedError: string := "Granola is not connected."
  const ConnectUrl: string := "/api/auth/granola/connect"
  const InvalidJsonError: string := "Request body must be valid JSON."
  const MissingMeetingIdError: string := "meetingId is required."
  const AuthorizationRequiredError: string := "Granola authorization is required."

  /** What the script generator answers: the chunks, or the authorization page to visit. */
  datatype ScriptResult =
    | ScriptReady(chunks: seq<GenerateClipsRoute.ScriptChunk>)
    | ScriptAuthRequired(authUrl: string)

  datatype ScriptReply =
    | NotConnected(connectUrl: string)
    | ScriptError(status: nat, error: string)
    | AuthorizationRequired(authUrl: string)
    | Chunks(chunks: seq<GenerateClipsRoute.ScriptChunk>)

  /**
   * `POST`: the cookie is checked first, then the body, then the meeting id; only then is the
   * generator asked, with the session, the request origin and the trimmed meeting id.
   */
  function Post(
    sessionId: Option<string>, payload: Option<Json>, origin: string,
    generate: (string, string, string) -> Result<ScriptResult>)
    : (r: ScriptReply)
    ensures !Truthy(sessionId) ==> r == NotConnected(ConnectUrl)
    ensures Truthy(sessionId) && payload.None? ==> r == ScriptError(400, InvalidJsonError)
    ensures Truthy(sessionId) && payload.Some? && ReadTrimmedField(payload.value, "meetingId").None? ==>
      r == ScriptError(400, MissingMeetingIdError)
    ensures r.Chunks? || r.AuthorizationRequired? || (r.ScriptError? && r.status == 500) ==>
      (Truthy(sessionId) && payload.Some? && ReadTrimmedField(payload.value, "meetingId").Some?
      && var answer := generate(sessionId.value, origin, ReadTrimmedField(payload.value, "meetingId").value);
      && (r.Chunks? ==> answer == Ok(ScriptReady(r.chunks)))
      && (r.AuthorizationRequired? ==> answer == Ok(ScriptAuthRequired(r.authUrl)))
      && (r.ScriptError? ==> answer == Err(r.error)))
    ensures r.ScriptError? ==> r.status == 400 || r.status == 500
    ensures Truthy(sessionId) && payload.Some? && ReadTrimmedField(payload.value, "meetingId").Some? ==>
      var answer := generate(sessionId.value, origin, ReadTrimmedField(payload.value, "meetingId").value);
      && (answer.Err? ==> r == ScriptError(500, answer.message))
      && (answer.Ok? && answer.value.ScriptAuthRequired? ==> r == AuthorizationRequired(answer.value.authUrl))
      && (answer.Ok? && answer.value.ScriptReady? ==> r == Chunks(answer.value.chunks))
  {
    if !Truthy(sessionId) then NotConnected(ConnectUrl)
    else if payload.None? then ScriptError(400, InvalidJsonError)
    else
      match ReadTrimmedField(payload.value, "meetingId")
      case None => ScriptError(400, MissingMeetingIdError)
      case Some(meetingId) =>
        match generate(sessionId.value, origin, meetingId)
        case Err(message) => ScriptError(500, message)
        case Ok(ScriptAuthRequired(authUrl)) => AuthorizationRequired(authUrl)
        case Ok(ScriptReady(chunks)) => Chunks(chunks)
  }

  /** An empty cookie counts as no connection, whatever the body says. */
  lemma EmptyCookieNotConnected(payload: Option<Json>, origin: string, generate: (string, string, string) -> Result<ScriptResult>)
    ensures Post(Some(""), payload, origin, generate) == NotConnected(ConnectUrl)
  {
  }

  /** Padding a trimmed, non-empty text with spaces and trimming it gives it back. */
  lemma TrimPadded(id: string)
    requires id != "" && Text.IsTrimmed(id)
    ensures Text.Trim(" " + id + " ") == id
  {
    var padded := " " + id + " ";
    assert padded[1..] == id + " ";
    assert Text.TrimStart(padded) == Text.TrimStart(id + " ");
    assert (id + " ")[0] == id[0];
    assert Text.TrimStart(id + " ") == id + " ";
    assert (id + " ")[..|id|] == id;
    assert Text.TrimEnd(id + " ") == Text.TrimEnd(id);
  }

  /** Of the body, only the trimmed meeting id matters. */
  lemma OnlyMeetingIdMatters(sessionId: Option<string>, a: Json, b: Json, origin: string, generate: (string, string, string) -> Result<ScriptResult>)
    requires ReadTrimmedField(a, "meetingId") == ReadTrimmedField(b, "meetingId")
    ensures Post(sessionId, Some(a), origin, generate) == Post(sessionId, Some(b), origin, generate)
  {
  }

  /** A padded meeting id is read as the id itself. */
  lemma PaddedMeetingIdRead(id: string)
    requires id != "" && Text.IsTrimmed(id)
    ensures ReadTrimmedField(JObj([("meetingId", JStr(" " + id + " "))]), "meetingId") == Some(id)
    ensures ReadTrimmedField(JObj([("meetingId", JStr(id))]), "meetingId") == Some(id)
  {
    TrimPadded(id);
    Text.TrimOfTrimmed(id);
  }

  /** The meeting id reaches the generator trimmed: padding it with spaces changes nothing. */
  lemma MeetingIdTrimmed(sessionId: Option<string>, id: string, origin: string, generate: (string, string, string) -> Result<ScriptResult>)
    requires id != "" && Text.IsTrimmed(id)
    ensures Post(sessionId, Some(JObj([("meetingId", JStr(" " + id + " "))])), origin, generate)
      == Post(sessionId, Some(JObj([("meetingId", JStr(id))])), origin, generate)
  {
    var padded := JObj([("meetingId", JStr(" " + id + " "))]);
    var plain := JObj([("meetingId", JStr(id))]);
    PaddedMeetingIdRead(id);
    OnlyMeetingIdMatters(sessionId, padded, plain, origin, generate);
  }
}
