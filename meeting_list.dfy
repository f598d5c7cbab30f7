/**
 * The meeting list component's state and the one request it makes when it mounts:
 * which meetings it shows, whether it believes Granola is connected, where its
 * connect button points and which error it shows.
 */
module MeetingList {
  import opened Common
  import opened JsValue

  const DefaultConnectUrl: string := "/api/auth/granola/connect"
  const LoadFailedMessage: string := "Unable to load meetings."
  const LoadFailedNonErrorMessage: string := "Unable to load meetings right now."
  const ConnectPrompt: string := "Connect Granola to load your recent meetings."
  const NoMeetingsYet: string := "No meetings available yet."

  /** A non-empty string under `key`, if the payload has one. */
  function NonEmptyString(payload: Json, key: string): Option<string> {
    match AsString(Get(payload, key))
    case Some(s) => if |s| > 0 then Some(s) else None
    case None => None
  }

  /**
   * `parseConnectUrl`: the server's `authUrl`, else its `connectUrl`, else the default
   * route. Only emptiness is checked, so a whitespace-only `authUrl` is taken as it is.
   */
  function ParseConnectUrl(payload: Json): (r: string)
    ensures r != ""
    ensures NonEmptyString(payload, "authUrl").Some? ==> r == NonEmptyString(payload, "authUrl").value
    ensures NonEmptyString(payload, "authUrl").None? && NonEmptyString(payload, "connectUrl").Some? ==>
      r == NonEmptyString(payload, "connectUrl").value
    ensures NonEmptyString(payload, "authUrl").None? && NonEmptyString(payload, "connectUrl").None? ==> r == DefaultConnectUrl
    ensures r == DefaultConnectUrl || Some(r) == AsString(Get(payload, "authUrl")) || Some(r) == AsString(Get(payload, "connectUrl"))
  {
    match NonEmptyString(payload, "authUrl")
    case Some(url) => url
    case None =>
      match NonEmptyString(payload, "connectUrl")
      case Some(url) => url
      case None => DefaultConnectUrl
  }

  /** A whitespace-only `authUrl` is not trimmed away: it becomes the link. */
  lemma BlankAuthUrlIsKept()
    ensures ParseConnectUrl(JObj([("authUrl", JStr(" ")), ("connectUrl", JStr(DefaultConnectUrl))])) == " "
  {
    assert Get(JObj([("authUrl", JStr(" ")), ("connectUrl", JStr(DefaultConnectUrl))]), "authUrl") == Some(JStr(" "));
  }

  /** `Array.isArray(payload.meetings) ? payload.meetings : []`. */
  function MeetingsOf(payload: Json): (r: seq<Json>)
    ensures Get(payload, "meetings").Some? && Get(payload, "meetings").value.JArr? ==> r == Get(payload, "meetings").value.items
    ensures !(Get(payload, "meetings").Some? && Get(payload, "meetings").value.JArr?) ==> r == []
  {
    match Get(payload, "meetings")
    case Some(JArr(items)) => items
    case _ => []
  }

  /** The message thrown for a failed response: the payload's string `error`, else the default. */
  function FailureMessage(payload: Json): (r: string)
    ensures AsString(Get(payload, "error")).Some? ==> r == AsString(Get(payload, "error")).value
    ensures AsString(Get(payload, "error")).None? ==> r == LoadFailedMessage
  {
    match AsString(Get(payload, "error"))
    case Some(message) => message
    case None => LoadFailedMessage
  }

  /** `response.ok`. */
  predicate IsOkStatus(status: int) {
    200 <= status <= 299
  }

  /**
   * How the request to the meetings route ended: the fetch threw (with the message of
   * an `Error`, or `None` for any other thrown value), or a response came back whose
   * body parsed to a value, or `None` when it was not JSON (read as `{}`).
   */
  datatype FetchOutcome =
    | Threw(errorMessage: Option<string>)
    | Responded(status: int, body: Option<Json>)

  /** The payload the component reads: an unparsable body becomes an empty object. */
  function PayloadOf(body: Option<Json>): (r: Json)
    ensures body.Some? ==> r == body.value
    ensures body.None? ==> r == JObj([]) && !r.JNull?
  {
    if body.Some? then body.value else JObj([])
  }

  /** The empty-state line under the list. */
  function EmptyStateLabel(isConnected: bool): (r: string)
    ensures isConnected <==> r == NoMeetingsYet
    ensures !isConnected <==> r == ConnectPrompt
  {
    if !isConnected then ConnectPrompt else NoMeetingsYet
  }

  /** The component's state hooks. */
  class MeetingListState {
    var meetings: seq<Json>
    var isLoadingMeetings: bool
    var isConnected: bool
    var connectUrl: string
    var error: Option<string>

    /**
     * What every reachable state keeps: the connect link is never empty, and an error is
     * only ever shown while the list considers itself disconnected.
     */
    predicate Valid()
      reads this
    {
      connectUrl != "" && (error.Some? ==> !isConnected)
    }

    /** The initial `useState` values. */
    constructor(initialConnected: bool)
      ensures Valid()
      ensures meetings == [] && !isLoadingMeetings && isConnected == initialConnected
      ensures connectUrl == DefaultConnectUrl && error == None
    {
      meetings := [];
      isLoadingMeetings := false;
      isConnected := initialConnected;
      connectUrl := DefaultConnectUrl;
      error := None;
    }

    /**
     * `loadMeetings`. `mounted` is whether the component is still mounted when the request
     * settles; `nullRead(name)` is the `TypeError` message for reading `name` from a `null`
     * payload (a body of `null` parses, and only `null` makes a property read throw).
     */
    method LoadMeetings(mounted: bool, outcome: FetchOutcome, nullRead: string -> string)
      requires Valid()
      modifies this
      ensures Valid()
      // An unmounted component only ever saw the loading flag go up.
      ensures !mounted ==>
        && isLoadingMeetings && meetings == old(meetings) && isConnected == old(isConnected)
        && connectUrl == old(connectUrl) && error == old(error)
      // A settled request always clears the loading flag.
      ensures mounted ==> !isLoadingMeetings
      ensures mounted && outcome.Threw? ==>
        && error == Some(if outcome.errorMessage.Some? then outcome.errorMessage.value else LoadFailedNonErrorMessage)
        && !isConnected && meetings == old(meetings) && connectUrl == old(connectUrl)
      ensures mounted && outcome.Responded? && outcome.status == 401 && !PayloadOf(outcome.body).JNull? ==>
        && !isConnected && connectUrl == ParseConnectUrl(PayloadOf(outcome.body)) && meetings == [] && error == None
      ensures mounted && outcome.Responded? && outcome.status != 401 && !IsOkStatus(outcome.status) && !PayloadOf(outcome.body).JNull? ==>
        && !isConnected && error == Some(FailureMessage(PayloadOf(outcome.body)))
        && meetings == old(meetings) && connectUrl == old(connectUrl)
      ensures mounted && outcome.Responded? && IsOkStatus(outcome.status) && !PayloadOf(outcome.body).JNull? ==>
        && isConnected && error == None && meetings == MeetingsOf(PayloadOf(outcome.body)) && connectUrl == old(connectUrl)
      // A `null` payload throws at the first property read, and the catch reports the TypeError.
      ensures mounted && outcome.Responded? && PayloadOf(outcome.body).JNull? ==>
        && !isConnected && meetings == old(meetings) && connectUrl == old(connectUrl)
        && error == Some(nullRead(if outcome.status == 401 then "authUrl"
                                  else if !IsOkStatus(outcome.status) then "error"
                                  else "meetings"))
    {
      isLoadingMeetings := true;
      if !mounted {
        return;
      }
      var thrown: Option<string> := None;
      match outcome {
        case Threw(message) =>
          thrown := Some(if message.Some? then message.value else LoadFailedNonErrorMessage);
        case Responded(status, body) =>
          var payload := PayloadOf(body);
          if status == 401 {
            isConnected := false;
            if payload.JNull? {
              thrown := Some(nullRead("authUrl"));
            } else {
              connectUrl := ParseConnectUrl(payload);
              meetings := [];
              error := None;
            }
          } else if !IsOkStatus(status) {
            thrown := Some(if payload.JNull? then nullRead("error") else FailureMessage(payload));
          } else {
            isConnected := true;
            error := None;
            if payload.JNull? {
              thrown := Some(nullRead("meetings"));
            } else {
              meetings := MeetingsOf(payload);
            }
          }
      }
      if thrown.Some? {
        error := thrown;
        isConnected := false;
      }
      isLoadingMeetings := false;
    }

    /** The line shown when the list is empty, from the connection flag. */
    function EmptyState(): (r: string)
      reads this
      ensures r == ConnectPrompt <==> !isConnected
    {
      EmptyStateLabel(isConnected)
    }
  }
}
